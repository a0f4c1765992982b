/** The behaviour of the model on particular inputs. */
module Scenarios {
  import opened Wrappers
  import opened Ascii
  import opened Strings
  import opened Grammar
  import opened References
  import opened Resource

  /** Three segments and no property: the parsed instance holds one empty property. */
  lemma ParseWithoutProperties()
    ensures Parse("rr://US/app/cust123") == Some(Reference(Some("US"), Some("app"), Some("cust123"), [""]))
    ensures Format(Parse("rr://US/app/cust123").value) == "rr://US/app/cust123/"
  {
    NoPropertiesText();
    NoPropertiesWellFormed();
    MatchComplete(NoProperties());
    ZeroPropertiesFormat("rr://US/app/cust123");
  }

  /** The sub-matches of a reference without properties. */
  function NoProperties(): Groups
  {
    Groups("US", "app", "cust123", [])
  }

  lemma NoPropertiesText()
    ensures Text(NoProperties()) == "rr://US/app/cust123"
  {
  }

  lemma NoPropertiesWellFormed()
    ensures WellFormed(NoProperties())
  {
  }

  /** The sub-matches of a reference with six properties. */
  function SixProperties(): Groups
  {
    Groups("US", "app", "cust123", ["a1", "b2", "c3", "d4", "e5", "f6"])
  }

  lemma SixPropertiesGroup()
    ensures PropertiesGroup(SixProperties().props) == "/a1/b2/c3/d4/e5/f6"
  {
    var props := SixProperties().props;
    assert PropertiesGroup(props[4..]) == "/e5/f6" by {
      assert props[4..][1..] == props[5..];
      assert PropertiesGroup(props[5..]) == "/f6";
    }
    assert PropertiesGroup(props[2..]) == "/c3/d4/e5/f6" by {
      assert props[2..][1..] == props[3..] && props[3..][1..] == props[4..];
    }
    assert props[1..][1..] == props[2..];
  }

  lemma SixPropertiesText()
    ensures Text(SixProperties()) == "rr://US/app/cust123/a1/b2/c3/d4/e5/f6"
  {
    SixPropertiesGroup();
    assert Text(SixProperties()) == "rr://US/app/cust123" + "/a1/b2/c3/d4/e5/f6" by {
      assert Prefix + "US" + "/" + "app" + "/" + "cust123" == "rr://US/app/cust123";
    }
  }

  lemma SixPropertiesWellFormed()
    ensures WellFormed(SixProperties())
  {
  }

  /** Six properties are accepted. */
  lemma SixPropertiesAccepted()
    ensures IsValidSSUri(Some("rr://US/app/cust123/a1/b2/c3/d4/e5/f6"))
  {
    SixPropertiesText();
    SixPropertiesWellFormed();
  }

  /** A seventh property is rejected. */
  lemma SeventhPropertyRejected()
    ensures !IsValidSSUri(Some("rr://US/app/cust123/a1/b2/c3/d4/e5/f6/g7"))
  {
    var g := SixProperties();
    var parts := Segments(g) + ["g7"];
    TextIsJoin(g);
    JoinSnoc(Segments(g), "g7", '/');
    SixPropertiesText();
    assert Prefix + Join(parts, '/') == "rr://US/app/cust123/a1/b2/c3/d4/e5/f6/g7";
    assert forall k :: 0 <= k < |parts| ==> '/' !in parts[k];
    assert !ValidSegments(parts);
    RejectedBySegments(parts);
  }

  /** Builder("MyApp", "ENV", "c") upper-cases its first argument and lower-cases its second. */
  lemma BuilderFields()
    ensures Fields(Construct(Some("MyApp"), Some("ENV"), Some("c"), [])) == ["MYAPP", "env", "c"]
  {
    assert Upper("MyApp") == "MYAPP";
    assert Lower("ENV") == "env" by {
      assert Lower("V") == "v";
      assert Lower("NV") == "nv";
    }
  }

  lemma JoinThree(a: string, b: string, c: string)
    ensures Join([a, b, c], '/') == a + "/" + b + "/" + c
  {
    assert [a, b, c][1..] == [b, c] && [b, c][1..] == [c];
    assert Join([c], '/') == c;
    assert Join([b, c], '/') == b + "/" + c;
  }

  lemma BuilderFormat()
    ensures Format(Construct(Some("MyApp"), Some("ENV"), Some("c"), [])) == "rr://MYAPP/env/c"
  {
    var r := Construct(Some("MyApp"), Some("ENV"), Some("c"), []);
    BuilderFields();
    assert Show(r.application) == "MYAPP" && Show(r.environment) == "env" && Show(r.customer) == "c";
    assert PropertiesGroup(r.properties) == "";
    assert Prefix + "MYAPP" + "/" + "env" + "/" + "c" + "" == "rr://MYAPP/env/c";
  }

  lemma BuilderTextRejected()
    ensures !IsValidSSUri(Some("rr://MYAPP/env/c"))
  {
    var fields := ["MYAPP", "env", "c"];
    JoinThree("MYAPP", "env", "c");
    assert forall k :: 0 <= k < |fields| ==> '/' !in fields[k];
    assert !CustomerSegment(fields[2]);
    RejectedBySegments(fields);
  }

  /**
   * The Builder checks nothing: Builder("MyApp", "ENV", "c") formats to a
   * string outside the grammar, its customer being too short.
   */
  lemma BuilderBypassesGrammar()
    ensures Format(Construct(Some("MyApp"), Some("ENV"), Some("c"), [])) == "rr://MYAPP/env/c"
    ensures !IsValidSSUri(Some("rr://MYAPP/env/c"))
  {
    BuilderFormat();
    BuilderTextRejected();
  }

  /** Null names format as "null", since the joiner writes a null element that way; null stays null through normalisation. */
  lemma NullFieldsFormat()
    ensures Format(Construct(None, None, None, [])) == "rr://null/null/null"
  {
    assert Fields(Construct(None, None, None, [])) == ["null", "null", "null"];
    JoinThree("null", "null", "null");
  }

  lemma BuilderFormatWithProperty()
    ensures Format(Construct(Some("MyApp"), Some("ENV"), Some("c"), ["x1"])) == "rr://MYAPP/env/c/x1"
  {
    var r := Construct(Some("MyApp"), Some("ENV"), Some("c"), []);
    BuilderFormat();
    assert Construct(Some("MyApp"), Some("ENV"), Some("c"), ["x1"]) == r.(properties := ["x1"]);
    assert PropertiesGroup(["x1"]) == "/x1";
    assert "rr://MYAPP/env/c" + "/x1" == "rr://MYAPP/env/c/x1";
  }

  /**
   * The Builder class end to end: Builder("MyApp", "ENV", "c"), build(),
   * getValue(); then addProperty("x1") on the builder and getValue() again
   * on the same built instance, which sees the new property.
   */
  method BuilderThenGetValue() returns (before: string, after: string)
    ensures before == "rr://MYAPP/env/c"
    ensures after == "rr://MYAPP/env/c/x1"
  {
    var builder := new Builder(Some("MyApp"), Some("ENV"), Some("c"));
    var built := builder.Build();
    BuilderFormat();
    before := built.GetValue();
    var same := builder.AddProperty("x1");
    after := built.GetValue();
    BuilderFormatWithProperty();
    assert built.State() == Construct(Some("MyApp"), Some("ENV"), Some("c"), ["x1"]);
  }
}
