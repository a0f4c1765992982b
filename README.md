# Resource Reference — a Dafny model

This project models the `ResourceReference` value type of the `commons.resource`
package: an identifier of the form

    rr://<ENV>/<app>/<customer>(/<property>){0,6}

with its recogniser (`isValidSSUri`), its parser (`of` / `matchPattern`), its
formatter (`getValue` / `toString`) and its mutable `Builder`.

Modules, one per concern of the class:

- `Wrappers` — `Option` (a Java reference that may be null) and `Result` (a call that may throw).
- `Ascii` — `toUpperCase` / `toLowerCase` restricted to ASCII letters, with uniqueness and idempotence lemmas.
- `Strings` — splitting and joining on one separator character: `Join` is what a `StringJoiner` produces, `SplitAll` yields every piece, `JavaSplit` is `String.split` with its two quirks (a string without the separator yields itself, so `""` yields `[""]`; trailing empty pieces are dropped).
- `Grammar` — `RR_URI_PATTERN`. Its language is defined as the texts `Text(g)` of well-formed sub-matches `g` (groups 1–3 and the repetitions inside group 4). `Match` is a recogniser that finds the sub-matches, proved sound and complete against that language. The proofs also show the pattern is unambiguous, so its capture groups are well defined.
- `References` — the state of an instance as a value, `Construct` (the case normalisation every constructor and the `Builder` perform), `Format` (`getValue`) and `Parse` (the outcome of `matchPattern`), together with the parse and format lemmas.
- `Resource` — the objects. `PropertyList` is the mutable `java.util.List`. `ResourceReference` has constant fields and a reference to such a list. `Builder` appends to its list, and `build()` hands that same list to the new instance. The module also holds the `of` and `matchPattern` methods.
- `Scenarios` — the model's behaviour on particular inputs.

The getters `getApplication`, `getEnvironment` and `getCustomer` are the public
constant fields of `Resource.ResourceReference`. `getProperties` is
`GetProperties`, which returns the list contents as a sequence value, so a
caller cannot change them through it.

Quirks of the code that the model keeps:

- The parameters are named `application, environment`, but `matchPattern` passes group 1 (the upper-case segment) as `application` and group 2 as `environment`. So a parsed instance's `application` is the first segment and its `environment` is the second. The first constructor argument is upper-cased and the second lower-cased.
- With zero properties, group 4 is empty, and Java's split of `""` gives `[""]`. The parsed instance therefore holds `[""]`, not an empty list, and `getValue` then ends in `/`, which is outside the grammar (`References.ZeroPropertiesFormat`).
- `Builder("MyApp", "ENV", "c")` builds an instance whose `getValue()` is `rr://MYAPP/env/c`, because the first argument is upper-cased and the second lower-cased (`Scenarios.BuilderThenGetValue`); that string is not valid (`Scenarios.BuilderBypassesGrammar`).
- A null name is kept as null and formatted as the text `null`, which is what `StringJoiner.add` writes for a null element (`Scenarios.NullFieldsFormat`).
- `of` fails with the fixed message `Invalid RRI pattern`, not with the rejected string.
- `build()` does not copy the builder's list, so appends after `build()` show through the built instance (`Resource.AppendAfterBuild`).
- Construction checks nothing against the grammar.

Assumptions about the environment: case mapping is ASCII-only, and null is
modelled as `Option.None` for the three scalar fields.

## Model

| member | source | states |
|---|---|---|
| `Ascii.Upper` | src/main/java/commons/resource/ResourceReference.java:31 | the result has no lower-case letter and equals the input ignoring case; `Ascii.NoLowerUnique` makes it the only such string |
| `Ascii.Lower` | src/main/java/commons/resource/ResourceReference.java:32 | the result has no upper-case letter and equals the input ignoring case |
| `Ascii.UpperIdentity` | src/main/java/commons/resource/ResourceReference.java:31 | upper-casing a string without lower-case letters leaves it unchanged |
| `Ascii.LowerIdentity` | src/main/java/commons/resource/ResourceReference.java:32 | lower-casing a string without upper-case letters leaves it unchanged |
| `Strings.JavaSplit` | src/main/java/commons/resource/ResourceReference.java:80 | a string without the separator splits to itself alone (so `""` gives `[""]`); otherwise the result is the list of all pieces with its trailing empty pieces removed, and it is empty or ends in a non-empty piece |
| `Strings.JoinSplitAll` | src/main/java/commons/resource/ResourceReference.java:80 | joining the pieces of a split with the separator restores the string |
| `Strings.SplitAllJoin` | src/main/java/commons/resource/ResourceReference.java:80 | splitting a join of one or more separator-free parts restores the parts |
| `Strings.JavaSplitJoin` | src/main/java/commons/resource/ResourceReference.java:80 | Java's split undoes a join of one or more non-empty, separator-free parts |
| `Strings.JoinSnoc` | src/main/java/commons/resource/ResourceReference.java:65 | each further element given to the joiner adds `/` and that element at the end |
| `Grammar.InLanguage` | src/main/java/commons/resource/ResourceReference.java:16-19 | the language of the anchored pattern: the texts spelt by well-formed groups; every such text starts with `rr://` and has at least 14 characters; `Grammar.MatchExact` ties it to the recogniser |
| `Grammar.Match` | src/main/java/commons/resource/ResourceReference.java:16-19 | when it finds sub-matches, they are well formed and spell exactly the input |
| `Grammar.MatchComplete` | src/main/java/commons/resource/ResourceReference.java:16-19 | on the text of any well-formed sub-matches, the recogniser finds exactly those sub-matches |
| `Grammar.MatchExact` | src/main/java/commons/resource/ResourceReference.java:16-19 | the recogniser succeeds exactly on the language of the pattern |
| `Grammar.Unambiguous` | src/main/java/commons/resource/ResourceReference.java:18-19 | two well-formed sub-matches with the same text are equal, so the capture groups are determined by the input |
| `Grammar.RejectedBySegments` | src/main/java/commons/resource/ResourceReference.java:19 | a text whose slash-separated pieces do not fit the segment grammar (wrong count or a bad segment) is outside the language |
| `Grammar.IsValidSSUri` | src/main/java/commons/resource/ResourceReference.java:26-28 | true exactly when the argument is non-null and is, as a whole, `rr://`, 2+ `A-Z`, `/`, 2+ `a-z`, `/`, 3+ of `[A-Za-z0-9_-]`, then 0 to 6 of `/` and 2+ of `[A-Za-z0-9-]` |
| `References.Construct` | src/main/java/commons/resource/ResourceReference.java:30-35 | null stays null; the first name is stored with no lower-case letter and the second with no upper-case letter, each equal to its argument ignoring case; customer and properties stored unchanged; no grammar check |
| `References.ConstructIdempotent` | src/main/java/commons/resource/ResourceReference.java:97-99 | normalising fields a second time (the Builder, then the constructor) changes nothing |
| `References.Format` | src/main/java/commons/resource/ResourceReference.java:60-67 | the `getValue` string is `rr://`, then application, `/`, environment, `/`, customer, then `/` and each property in order, the same shape as a matched text (`Grammar.Text`); `Show` writes a null name as `null`, as `StringJoiner.add` does; `References.FormatReadBack` and `References.RoundTrip` state what it reads back to |
| `References.FormatReadBack` | src/main/java/commons/resource/ResourceReference.java:60-67 | the formatted text starts with `rr://`, and when no field holds `/` its pieces are application, environment, customer and the properties, in that order |
| `References.SplitPropertiesGroup` | src/main/java/commons/resource/ResourceReference.java:79-80 | the strip-one-`/`-then-split step: an empty group 4 gives `[""]`, and no resulting property holds `/`; `References.SplitPropertiesGroupOf` states its result on matched groups |
| `References.SplitPropertiesGroupOf` | src/main/java/commons/resource/ResourceReference.java:79-80 | stripping the leading `/` from group 4 and splitting gives the matched properties, or `[""]` when there are none |
| `References.Parse` | src/main/java/commons/resource/ResourceReference.java:75-85 | succeeds exactly when `isValidSSUri` holds; then the application is group 1, the environment group 2, the customer group 3, and the properties are the matched ones or `[""]` |
| `References.ParsedProperties` | src/main/java/commons/resource/ResourceReference.java:79-80 | a parsed instance has 1 to 6 properties: `[""]` without matched properties, otherwise exactly the matched ones in order, each 2+ characters with no `/` or `_` |
| `References.ParsedNames` | src/main/java/commons/resource/ResourceReference.java:78 | a parsed instance holds the upper-case first segment as application, the lower-case second as environment and the customer unchanged, and these spell the input |
| `References.RoundTrip` | src/main/java/commons/resource/ResourceReference.java:75-81 | for a valid string with at least one property, formatting the parse gives the string back |
| `References.FormatEmptyProperty` | src/main/java/commons/resource/ResourceReference.java:60-67 | an instance holding matched groups and one empty property formats to the matched text plus `/` |
| `References.TrailingSlashRejected` | src/main/java/commons/resource/ResourceReference.java:19 | a reference without properties followed by `/` is outside the language |
| `References.ZeroPropertiesFormat` | src/main/java/commons/resource/ResourceReference.java:79-80 | for a valid string without properties, formatting the parse adds a trailing `/`, and that result is not valid |
| `Resource.ResourceReference.FromList` | src/main/java/commons/resource/ResourceReference.java:30-35 | the instance keeps the given list object itself, and its fields are the normalised arguments |
| `Resource.ResourceReference.FromArray` | src/main/java/commons/resource/ResourceReference.java:37-42 | the instance holds the given properties in a list of its own, and its fields are the normalised arguments |
| `Resource.ResourceReference.GetProperties` | src/main/java/commons/resource/ResourceReference.java:56-58 | returns the current contents of the instance's list as a value |
| `Resource.ResourceReference.GetValue` | src/main/java/commons/resource/ResourceReference.java:60-67 | the accumulated string is `rr://` followed by application, environment, customer and the properties joined with `/` |
| `Resource.ResourceReference.ToString` | src/main/java/commons/resource/ResourceReference.java:87-89 | returns the same string as `getValue` |
| `Resource.Builder.constructor` | src/main/java/commons/resource/ResourceReference.java:97-102 | the fields are the normalised arguments and the list is new and empty |
| `Resource.Builder.WithProperties` | src/main/java/commons/resource/ResourceReference.java:104-107 | appends all given properties in order and returns the same builder |
| `Resource.Builder.AddProperty` | src/main/java/commons/resource/ResourceReference.java:109-112 | appends one property and returns the same builder |
| `Resource.Builder.Build` | src/main/java/commons/resource/ResourceReference.java:114-116 | a new instance whose list is the builder's own list object, its fields those of the builder unchanged |
| `Resource.AppendAfterBuild` | src/main/java/commons/resource/ResourceReference.java:109-116 | a property added to the builder after `build()` shows up in the built instance's `getProperties()` |
| `Resource.MatchPattern` | src/main/java/commons/resource/ResourceReference.java:75-85 | empty exactly when the pattern does not match; otherwise a new instance whose state is `Parse` of the input |
| `Resource.Of` | src/main/java/commons/resource/ResourceReference.java:69-73 | succeeds exactly when `isValidSSUri` holds, with the parsed instance; otherwise fails with `Invalid RRI pattern` |
| `Scenarios.ParseWithoutProperties` | src/main/java/commons/resource/ResourceReference.java:79-80 | `rr://US/app/cust123` parses to application `US`, environment `app`, customer `cust123` and properties `[""]`, and formats to `rr://US/app/cust123/` |
| `Scenarios.SixPropertiesAccepted` | src/main/java/commons/resource/ResourceReference.java:19 | a reference with six properties is valid |
| `Scenarios.SeventhPropertyRejected` | src/main/java/commons/resource/ResourceReference.java:19 | the same reference with a seventh property is not valid |
| `Scenarios.NullFieldsFormat` | src/main/java/commons/resource/ResourceReference.java:60-64 | the case normalisation applied to three null names and no properties, formatted, gives `rr://null/null/null` |
| `Scenarios.BuilderBypassesGrammar` | src/main/java/commons/resource/ResourceReference.java:97-99 | the case normalisation the Builder applies to `("MyApp", "ENV", "c")`, formatted, gives `rr://MYAPP/env/c`, which is not valid |
| `Scenarios.BuilderThenGetValue` | src/main/java/commons/resource/ResourceReference.java:97-116 | `new Builder("MyApp", "ENV", "c")`, `build()`, `getValue()` gives `rr://MYAPP/env/c`; after `addProperty("x1")` on the builder, `getValue()` on the same built instance gives `rr://MYAPP/env/c/x1` |

## Left out

- `src/main/java/commons/classfinder/ClassFinder.java` is not part of this model. It does filesystem and class-loader I/O and loads classes by reflection, which have no counterpart here.
- `Ascii.Upper`, `Ascii.Lower`: these map ASCII letters only. Java's locale-dependent Unicode case mapping, where a string can change length, is not modelled.
- `Grammar.Match`, `Grammar.IsValidSSUri`, `References.Parse`, `Resource.MatchPattern`, `Resource.Of`: the pattern is anchored strictly at the end of the string. Java's `$` also matches before one final line terminator, so the source's `isValidSSUri` and `of` also accept a valid reference followed by one line terminator (such as `rr://US/app/cust123` and a newline); the model rejects it.
- `Resource.Of`, `Resource.MatchPattern`: take a non-null string. The `NullPointerException` that `of(null)` raises inside the matcher is not modelled; null is modelled only for `isValidSSUri`.
- `Resource.ResourceReference.FromArray`: copies the values it is given. `Arrays.asList` writes through to the caller's varargs array, and that aliasing is not modelled.
- Null elements in the properties list, a null varargs array and a null list given to the list constructor (`Resource.ResourceReference.FromList` takes a list object) are not modelled. In the source a null list makes `getValue` and `getProperties` throw a `NullPointerException` later; in the model properties are always a list of non-null strings.
- `Resource.ResourceReference.GetProperties`: returns a snapshot of the list contents at the time of the call. In the source, `getProperties()` returns a live unmodifiable view, so a caller holding that view also sees properties the builder adds later; the model shows those later additions only through a fresh call (`Resource.AppendAfterBuild`). The `UnsupportedOperationException` that the view throws when a caller tries to mutate it is not modelled. The sharing of one list by the builder and the built instance is modelled.
- `InvalidPropertiesFormatException` is modelled as `Result.Failure` carrying its message.
