/**
 * The state of a ResourceReference as a value, and the pure steps of the
 * class: field initialisation with case normalisation, getValue, and the
 * parse step of matchPattern. The objects themselves are in module Resource.
 */
module References {
  import opened Wrappers
  import opened Ascii
  import opened Strings
  import opened Grammar

  /**
   * The four fields of a ResourceReference, properties being the current
   * contents of its list. The names are the source's: matchPattern puts the
   * upper-case first segment into application and the second into environment.
   */
  datatype Reference = Reference(
    application: Option<string>,
    environment: Option<string>,
    customer: Option<string>,
    properties: seq<string>)

  /** Upper-cases a non-null string; null stays null. */
  function UpperOrNull(x: Option<string>): Option<string>
  {
    match x
    case None => None
    case Some(s) => Some(Upper(s))
  }

  /** Lower-cases a non-null string; null stays null. */
  function LowerOrNull(x: Option<string>): Option<string>
  {
    match x
    case None => None
    case Some(s) => Some(Lower(s))
  }

  /**
   * The field initialisation shared by both constructors and the Builder: the
   * first argument upper-cased, the second lower-cased, null kept as null,
   * customer and properties as given, and no check against the grammar.
   */
  function Construct(
    application: Option<string>,
    environment: Option<string>,
    customer: Option<string>,
    properties: seq<string>): (r: Reference)
    ensures r.application.Some? <==> application.Some?
    ensures application.Some? ==>
      NoLower(r.application.value) && SameIgnoringCase(application.value, r.application.value)
    ensures r.environment.Some? <==> environment.Some?
    ensures environment.Some? ==>
      NoUpper(r.environment.value) && SameIgnoringCase(environment.value, r.environment.value)
    ensures r.customer == customer && r.properties == properties
  {
    Reference(UpperOrNull(application), LowerOrNull(environment), customer, properties)
  }

  /** Normalising fields that are already normalised changes nothing (Builder, then constructor). */
  lemma ConstructIdempotent(
    application: Option<string>,
    environment: Option<string>,
    customer: Option<string>,
    properties: seq<string>)
    ensures
      var r := Construct(application, environment, customer, properties);
      Construct(r.application, r.environment, r.customer, r.properties) == r
  {
    if application.Some? { UpperIdempotent(application.value); }
    if environment.Some? { LowerIdempotent(environment.value); }
  }

  /** StringJoiner.add turns a null element into "null". */
  function Show(x: Option<string>): string
  {
    match x
    case None => "null"
    case Some(s) => s
  }

  /** What getValue hands to the joiner, in order. */
  function Fields(r: Reference): seq<string>
  {
    [Show(r.application), Show(r.environment), Show(r.customer)] + r.properties
  }

  /** getValue(): RR_PREFIX followed by the fields joined with "/". */
  function Format(r: Reference): (v: string)
    ensures v == Prefix + Show(r.application) + "/" + Show(r.environment) + "/" + Show(r.customer)
                 + PropertiesGroup(r.properties)
  {
    var fields := Fields(r);
    JoinCons(fields[0], fields[1..]);
    assert fields == [fields[0]] + fields[1..];
    assert fields[1..] == [fields[1]] + ([fields[2]] + r.properties);
    assert ([fields[2]] + r.properties)[1..] == r.properties;
    Prefix + Join(fields, '/')
  }

  /** When no field holds a slash, the formatted text reads back into the same fields, in order. */
  lemma FormatReadBack(r: Reference)
    requires forall k :: 0 <= k < |Fields(r)| ==> '/' !in Fields(r)[k]
    ensures |Format(r)| >= |Prefix| && Format(r)[..|Prefix|] == Prefix
    ensures SplitAll(Format(r)[|Prefix|..], '/') == Fields(r)
  {
    var s := Format(r);
    assert s[|Prefix|..] == Join(Fields(r), '/');
    SplitAllJoin(Fields(r), '/');
  }

  /** The parse step: drop one leading slash from group 4 and split the rest on "/". */
  function SplitPropertiesGroup(group4: string): (props: seq<string>)
    ensures group4 == "" ==> props == [""]
    ensures forall k :: 0 <= k < |props| ==> '/' !in props[k]
  {
    var rest := if |group4| > 0 && group4[0] == '/' then group4[1..] else group4;
    JavaSplit(rest, '/')
  }

  /**
   * The parse step gives the matched properties back; with none, Java's split
   * of the empty string gives one empty property.
   */
  lemma SplitPropertiesGroupOf(props: seq<string>)
    requires forall k :: 0 <= k < |props| ==> PropertySegment(props[k])
    ensures SplitPropertiesGroup(PropertiesGroup(props)) == if props == [] then [""] else props
  {
    if props != [] {
      PropertiesGroupJoin(props);
      assert ("/" + Join(props, '/'))[1..] == Join(props, '/');
      forall k | 0 <= k < |props| ensures props[k] != "" && '/' !in props[k] {
        SegmentSlashFree(props[k]);
      }
      JavaSplitJoin(props, '/');
    }
  }

  /**
   * matchPattern: None when the pattern does not match; otherwise the state
   * of the instance built from the groups (group 1 as application, group 2 as
   * environment, group 3 as customer, the split of group 4 as properties).
   */
  function Parse(s: string): (r: Option<Reference>)
    ensures r.Some? <==> IsValidSSUri(Some(s))
    ensures r.Some? ==>
      var g := Match(s).value;
      r.value == Reference(Some(g.env), Some(g.app), Some(g.customer),
                           if g.props == [] then [""] else g.props)
  {
    match Match(s)
    case None => None
    case Some(g) =>
      var builder := Construct(Some(g.env), Some(g.app), Some(g.customer), []);
      var r := Construct(builder.application, builder.environment, builder.customer,
                         builder.properties + SplitPropertiesGroup(PropertiesGroup(g.props)));
      UpperIdentity(g.env);
      LowerIdentity(g.app);
      SplitPropertiesGroupOf(g.props);
      Some(r)
  }

  /**
   * A parsed instance holds 1 to 6 properties: the matched ones in input
   * order, each 2 or more characters without "/" or "_", or the single empty
   * property when the input has none.
   */
  lemma ParsedProperties(s: string)
    requires Parse(s).Some?
    ensures var p := Parse(s).value.properties;
      && 1 <= |p| <= MaxProperties
      && (Match(s).value.props == [] ==> p == [""])
      && (Match(s).value.props != [] ==>
            p == Match(s).value.props &&
            forall k :: 0 <= k < |p| ==> |p[k]| >= 2 && '/' !in p[k] && '_' !in p[k])
  {
    var p := Parse(s).value.properties;
    if Match(s).value.props != [] {
      forall k | 0 <= k < |p| ensures |p[k]| >= 2 && '/' !in p[k] && '_' !in p[k] {
        assert PropertySegment(p[k]);
      }
    }
  }

  /** A parsed instance's application is the upper-case first segment and its environment the lower-case second. */
  lemma ParsedNames(s: string)
    requires Parse(s).Some?
    ensures var r := Parse(s).value;
      && r.application.Some? && EnvironmentSegment(r.application.value)
      && r.environment.Some? && ApplicationSegment(r.environment.value)
      && r.customer.Some? && CustomerSegment(r.customer.value)
      && s == Prefix + r.application.value + "/" + r.environment.value + "/" + r.customer.value
              + PropertiesGroup(Match(s).value.props)
  {
  }

  /** Round trip: a valid reference with at least one property is formatted back to itself. */
  lemma RoundTrip(s: string)
    requires IsValidSSUri(Some(s)) && Match(s).value.props != []
    ensures Format(Parse(s).value) == s
  {
    var g := Match(s).value;
    assert Fields(Parse(s).value) == Segments(g);
    TextIsJoin(g);
  }

  /** An instance holding the groups of a match and one empty property formats to the text and a slash. */
  lemma FormatEmptyProperty(g: Groups)
    requires g.props == []
    ensures Format(Reference(Some(g.env), Some(g.app), Some(g.customer), [""])) == Text(g) + "/"
  {
    assert Fields(Reference(Some(g.env), Some(g.app), Some(g.customer), [""])) == Segments(g) + [""];
    TextIsJoin(g);
    JoinSnoc(Segments(g), "", '/');
  }

  /** A match without properties followed by a slash is outside the language. */
  lemma TrailingSlashRejected(g: Groups)
    requires WellFormed(g) && g.props == []
    ensures !InLanguage(Text(g) + "/")
  {
    var parts := Segments(g) + [""];
    TextIsJoin(g);
    JoinSnoc(Segments(g), "", '/');
    WellFormedValidSegments(g);
    assert parts == [g.env, g.app, g.customer, ""];
    assert !PropertySegment(parts[3]);
    RejectedBySegments(parts);
  }

  /**
   * Without properties the round trip breaks: the single empty property adds a
   * trailing slash, and the result is outside the grammar.
   */
  lemma ZeroPropertiesFormat(s: string)
    requires IsValidSSUri(Some(s)) && Match(s).value.props == []
    ensures Format(Parse(s).value) == s + "/"
    ensures !IsValidSSUri(Some(s + "/"))
  {
    var g := Match(s).value;
    assert Parse(s).value == Reference(Some(g.env), Some(g.app), Some(g.customer), [""]);
    FormatEmptyProperty(g);
    TrailingSlashRejected(g);
  }
}
