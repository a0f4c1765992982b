/**
 * Splitting and joining strings on a one-character separator: StringJoiner
 * without prefix or suffix, and Java's String.split with the limit 0.
 */
module Strings {

  /** Position of the first occurrence of c in s. */
  function FirstIndex(s: string, c: char): (i: nat)
    requires c in s
    ensures i < |s| && s[i] == c && c !in s[..i]
  {
    if s[0] == c then 0
    else
      var j := FirstIndex(s[1..], c);
      assert s[..j + 1] == [s[0]] + s[1..][..j];
      j + 1
  }

  /** Every piece of s between occurrences of sep, empty pieces included, in order. */
  function SplitAll(s: string, sep: char): (parts: seq<string>)
    ensures |parts| >= 1
    ensures forall k :: 0 <= k < |parts| ==> sep !in parts[k]
    decreases |s|
  {
    if sep !in s then [s]
    else
      var i := FirstIndex(s, sep);
      [s[..i]] + SplitAll(s[i + 1..], sep)
  }

  /** The parts with sep between each two neighbours, as a StringJoiner builds them. */
  function Join(parts: seq<string>, sep: char): string
  {
    if |parts| == 0 then ""
    else if |parts| == 1 then parts[0]
    else parts[0] + [sep] + Join(parts[1..], sep)
  }

  /** Joining the pieces of a split gives the original string back. */
  lemma {:induction false} JoinSplitAll(s: string, sep: char)
    ensures Join(SplitAll(s, sep), sep) == s
    decreases |s|
  {
    if sep in s {
      var i := FirstIndex(s, sep);
      JoinSplitAll(s[i + 1..], sep);
      assert s == s[..i] + [sep] + s[i + 1..];
    }
  }

  /** A separator-free head followed by the separator splits off as the first piece. */
  lemma SplitAllCons(x: string, y: string, sep: char)
    requires sep !in x
    ensures SplitAll(x + [sep] + y, sep) == [x] + SplitAll(y, sep)
  {
    var s := x + [sep] + y;
    assert s[|x|] == sep;
    var i := FirstIndex(s, sep);
    assert s[..|x|] == x;
    assert i == |x|;
    assert s[i + 1..] == y;
  }

  /** Splitting a join of separator-free parts gives the parts back. */
  lemma {:induction false} SplitAllJoin(parts: seq<string>, sep: char)
    requires |parts| >= 1
    requires forall k :: 0 <= k < |parts| ==> sep !in parts[k]
    ensures SplitAll(Join(parts, sep), sep) == parts
    decreases |parts|
  {
    if |parts| > 1 {
      SplitAllCons(parts[0], Join(parts[1..], sep), sep);
      SplitAllJoin(parts[1..], sep);
      assert parts == [parts[0]] + parts[1..];
    }
  }

  /** The separator occurs in a join of separator-free parts exactly when there are two parts or more. */
  lemma {:induction false} SepInJoin(parts: seq<string>, sep: char)
    requires forall k :: 0 <= k < |parts| ==> sep !in parts[k]
    ensures sep in Join(parts, sep) <==> |parts| >= 2
  {
    if |parts| >= 2 {
      var s := Join(parts, sep);
      assert s == parts[0] + [sep] + Join(parts[1..], sep);
      assert s[|parts[0]|] == sep;
    }
  }

  /** parts without its run of trailing empty strings. */
  function DropTrailingEmpty(parts: seq<string>): (r: seq<string>)
    ensures |r| <= |parts| && r == parts[..|r|]
    ensures forall k :: |r| <= k < |parts| ==> parts[k] == ""
    ensures r == [] || r[|r| - 1] != ""
  {
    if parts == [] then []
    else if parts[|parts| - 1] == "" then DropTrailingEmpty(parts[..|parts| - 1])
    else parts
  }

  /**
   * Java's s.split(String.valueOf(sep)): a string without the separator yields
   * itself alone (so "" yields [""]); otherwise the pieces between separators,
   * with the trailing empty pieces removed.
   */
  function JavaSplit(s: string, sep: char): (r: seq<string>)
    ensures sep !in s ==> r == [s]
    ensures sep in s ==> |r| <= |SplitAll(s, sep)| && r == SplitAll(s, sep)[..|r|]
    ensures sep in s ==> forall k :: |r| <= k < |SplitAll(s, sep)| ==> SplitAll(s, sep)[k] == ""
    ensures sep in s ==> r == [] || r[|r| - 1] != ""
  {
    if sep !in s then [s] else DropTrailingEmpty(SplitAll(s, sep))
  }

  /** Java's split undoes a join of non-empty, separator-free parts. */
  lemma JavaSplitJoin(parts: seq<string>, sep: char)
    requires |parts| >= 1
    requires forall k :: 0 <= k < |parts| ==> parts[k] != "" && sep !in parts[k]
    ensures JavaSplit(Join(parts, sep), sep) == parts
  {
    SplitAllJoin(parts, sep);
    SepInJoin(parts, sep);
  }

  /** Adding one part to a join adds the separator and the part at its end. */
  lemma {:induction false} JoinSnoc(parts: seq<string>, x: string, sep: char)
    requires |parts| >= 1
    ensures Join(parts + [x], sep) == Join(parts, sep) + [sep] + x
    decreases |parts|
  {
    if |parts| > 1 {
      assert (parts + [x])[1..] == parts[1..] + [x];
      JoinSnoc(parts[1..], x, sep);
    }
  }
}
