/**
 * The Resource Reference grammar, RR_URI_PATTERN:
 *   rr:// ([A-Z]{2,}) / ([a-z]{2,}) / ([a-zA-Z0-9-_]{3,}) ((/[a-zA-Z0-9-]{2,}){0,6})
 * anchored at both ends. Its language is given by the sub-matches (Groups) and
 * the text they spell; Match is the recogniser that finds them.
 */
module Grammar {
  import opened Wrappers
  import opened Ascii
  import opened Strings

  /** RR_PREFIX. */
  const Prefix: string := "rr://"

  /** The bound of the {0,6} repetition. */
  const MaxProperties: nat := 6

  predicate IsDigit(c: char) { '0' <= c <= '9' }

  predicate IsAlphanumeric(c: char) { IsUpperLetter(c) || IsLowerLetter(c) || IsDigit(c) }

  /** [a-zA-Z0-9-_] */
  predicate IsCustomerChar(c: char) { IsAlphanumeric(c) || c == '-' || c == '_' }

  /** [a-zA-Z0-9-] */
  predicate IsPropertyChar(c: char) { IsAlphanumeric(c) || c == '-' }

  /** Group 1: [A-Z]{2,} */
  predicate EnvironmentSegment(s: string)
  {
    |s| >= 2 && forall i :: 0 <= i < |s| ==> IsUpperLetter(s[i])
  }

  /** Group 2: [a-z]{2,} */
  predicate ApplicationSegment(s: string)
  {
    |s| >= 2 && forall i :: 0 <= i < |s| ==> IsLowerLetter(s[i])
  }

  /** Group 3: [a-zA-Z0-9-_]{3,} */
  predicate CustomerSegment(s: string)
  {
    |s| >= 3 && forall i :: 0 <= i < |s| ==> IsCustomerChar(s[i])
  }

  /** One repetition of group 5, without its leading slash: [a-zA-Z0-9-]{2,} */
  predicate PropertySegment(s: string)
  {
    |s| >= 2 && forall i :: 0 <= i < |s| ==> IsPropertyChar(s[i])
  }

  /** The sub-matches of a match: groups 1 to 3, and the repetitions of group 5 that make up group 4. */
  datatype Groups = Groups(env: string, app: string, customer: string, props: seq<string>)

  predicate WellFormed(g: Groups)
  {
    && EnvironmentSegment(g.env)
    && ApplicationSegment(g.app)
    && CustomerSegment(g.customer)
    && |g.props| <= MaxProperties
    && forall k :: 0 <= k < |g.props| ==> PropertySegment(g.props[k])
  }

  /** Group 4: every property with a slash in front, concatenated. */
  function PropertiesGroup(props: seq<string>): string
  {
    if props == [] then "" else "/" + props[0] + PropertiesGroup(props[1..])
  }

  /** The text a match with these sub-matches spans. */
  function Text(g: Groups): string
  {
    Prefix + g.env + "/" + g.app + "/" + g.customer + PropertiesGroup(g.props)
  }

  /** The language of RR_URI_PATTERN: the texts of well-formed sub-matches. */
  ghost predicate InLanguage(s: string)
    ensures InLanguage(s) ==> |s| >= |Prefix| + 9 && s[..|Prefix|] == Prefix
  {
    exists g :: WellFormed(g) && Text(g) == s
  }

  /** A part followed by slash-prefixed parts is the join of all of them. */
  lemma {:induction false} JoinCons(x: string, rest: seq<string>)
    ensures Join([x] + rest, '/') == x + PropertiesGroup(rest)
    decreases |rest|
  {
    if rest != [] {
      assert ([x] + rest)[1..] == [rest[0]] + rest[1..];
      JoinCons(rest[0], rest[1..]);
    }
  }

  /** Group 4 of non-empty properties is a slash and their join. */
  lemma PropertiesGroupJoin(props: seq<string>)
    requires props != []
    ensures PropertiesGroup(props) == "/" + Join(props, '/')
  {
    JoinCons(props[0], props[1..]);
    assert props == [props[0]] + props[1..];
  }

  /** The segments of a match, in order, as a list. */
  function Segments(g: Groups): seq<string>
  {
    [g.env, g.app, g.customer] + g.props
  }

  /** The text of a match is the prefix and its segments joined with slashes. */
  lemma TextIsJoin(g: Groups)
    ensures Text(g) == Prefix + Join(Segments(g), '/')
  {
    JoinCons(g.customer, g.props);
    var s := Segments(g);
    assert s[1..] == [g.app, g.customer] + g.props;
    assert s[1..][1..] == [g.customer] + g.props;
  }

  /** The slash-separated pieces after the prefix are the segments of a match. */
  predicate ValidSegments(parts: seq<string>)
  {
    && 3 <= |parts| <= 3 + MaxProperties
    && EnvironmentSegment(parts[0])
    && ApplicationSegment(parts[1])
    && CustomerSegment(parts[2])
    && forall k :: 3 <= k < |parts| ==> PropertySegment(parts[k])
  }

  function FromSegments(parts: seq<string>): Groups
    requires |parts| >= 3
  {
    Groups(parts[0], parts[1], parts[2], parts[3..])
  }

  lemma ValidSegmentsWellFormed(parts: seq<string>)
    requires ValidSegments(parts)
    ensures WellFormed(FromSegments(parts)) && Segments(FromSegments(parts)) == parts
  {
    var g := FromSegments(parts);
    forall k | 0 <= k < |g.props| ensures PropertySegment(g.props[k]) {
      assert g.props[k] == parts[k + 3];
    }
  }

  lemma SegmentSlashFree(s: string)
    requires EnvironmentSegment(s) || ApplicationSegment(s) || CustomerSegment(s) || PropertySegment(s)
    ensures '/' !in s
  {
  }

  lemma WellFormedValidSegments(g: Groups)
    requires WellFormed(g)
    ensures ValidSegments(Segments(g)) && FromSegments(Segments(g)) == g
    ensures forall k :: 0 <= k < |Segments(g)| ==> '/' !in Segments(g)[k]
  {
    var parts := Segments(g);
    assert parts[3..] == g.props;
    forall k | 3 <= k < |parts| ensures PropertySegment(parts[k]) {
      assert parts[k] == g.props[k - 3];
    }
    forall k | 0 <= k < |parts| ensures '/' !in parts[k] {
      SegmentSlashFree(parts[k]);
    }
  }

  /**
   * matcher.find() on the anchored pattern: the sub-matches when s is in the
   * language, None otherwise.
   */
  function Match(s: string): (r: Option<Groups>)
    ensures r.Some? ==> WellFormed(r.value) && Text(r.value) == s
  {
    if |s| < |Prefix| || s[..|Prefix|] != Prefix then None
    else
      var parts := SplitAll(s[|Prefix|..], '/');
      if ValidSegments(parts) then
        var g := FromSegments(parts);
        ValidSegmentsWellFormed(parts);
        TextIsJoin(g);
        JoinSplitAll(s[|Prefix|..], '/');
        assert s == s[..|Prefix|] + s[|Prefix|..];
        Some(g)
      else None
  }

  /** The recogniser finds the sub-matches of every text in the language. */
  lemma MatchComplete(g: Groups)
    requires WellFormed(g)
    ensures Match(Text(g)) == Some(g)
  {
    var s := Text(g);
    TextIsJoin(g);
    WellFormedValidSegments(g);
    SplitAllJoin(Segments(g), '/');
    assert s[..|Prefix|] == Prefix;
    assert s[|Prefix|..] == Join(Segments(g), '/');
  }

  /** The recogniser accepts exactly the language of the pattern. */
  lemma MatchExact(s: string)
    ensures Match(s).Some? <==> InLanguage(s)
  {
    if InLanguage(s) {
      var g :| WellFormed(g) && Text(g) == s;
      MatchComplete(g);
    }
  }

  /** A text whose slash-separated pieces are not the segments of a match is rejected. */
  lemma RejectedBySegments(parts: seq<string>)
    requires |parts| >= 1 && forall k :: 0 <= k < |parts| ==> '/' !in parts[k]
    requires !ValidSegments(parts)
    ensures !InLanguage(Prefix + Join(parts, '/'))
  {
    var t := Prefix + Join(parts, '/');
    assert t[..|Prefix|] == Prefix && t[|Prefix|..] == Join(parts, '/');
    SplitAllJoin(parts, '/');
    MatchExact(t);
  }

  /** The pattern is unambiguous: a text in the language has one set of sub-matches. */
  lemma Unambiguous(g: Groups, h: Groups)
    requires WellFormed(g) && WellFormed(h) && Text(g) == Text(h)
    ensures g == h
  {
    MatchComplete(g);
    MatchComplete(h);
  }

  /** isValidSSUri: false for null, otherwise whether the whole string is in the language. */
  function IsValidSSUri(ssUri: Option<string>): (b: bool)
    ensures b <==> ssUri.Some? && InLanguage(ssUri.value)
  {
    if ssUri.Some? then MatchExact(ssUri.value); Match(ssUri.value).Some? else false
  }
}
