/**
 * The objects: ResourceReference, its nested Builder, and the mutable list
 * they share. A ResourceReference's fields never change, but its properties
 * field is a reference to a list that the Builder that built it can still
 * append to.
 */
module Resource {
  import opened Wrappers
  import opened Strings
  import opened Grammar
  import opened References

  /** The message of the InvalidPropertiesFormatException that `of` throws. */
  const InvalidPattern: string := "Invalid RRI pattern"

  /** A java.util.List<String>: an ArrayList filled by a Builder, or the Arrays.asList view of varargs. */
  class PropertyList {
    var items: seq<string>

    constructor (items: seq<string>)
      ensures this.items == items
    {
      this.items := items;
    }
  }

  class ResourceReference {
    const application: Option<string>
    const environment: Option<string>
    const customer: Option<string>
    const properties: PropertyList

    /** The fields as a value, properties read through the shared list. */
    function State(): Reference
      reads properties
    {
      Reference(application, environment, customer, properties.items)
    }

    /** The constructor taking a List: it keeps that very list, without a copy. */
    constructor FromList(application: Option<string>, environment: Option<string>,
                         customer: Option<string>, properties: PropertyList)
      ensures this.properties == properties
      ensures State() == Construct(application, environment, customer, properties.items)
    {
      var r := Construct(application, environment, customer, properties.items);
      this.application := r.application;
      this.environment := r.environment;
      this.customer := r.customer;
      this.properties := properties;
    }

    /** The varargs constructor: the properties are held in a list of their own. */
    constructor FromArray(application: Option<string>, environment: Option<string>,
                          customer: Option<string>, properties: seq<string>)
      ensures fresh(this.properties)
      ensures State() == Construct(application, environment, customer, properties)
    {
      var r := Construct(application, environment, customer, properties);
      this.application := r.application;
      this.environment := r.environment;
      this.customer := r.customer;
      this.properties := new PropertyList(properties);
    }

    /** getProperties(): a read-only view of the current list contents. */
    function GetProperties(): (p: seq<string>)
      reads properties
      ensures p == State().properties
    {
      properties.items
    }

    /** getValue(): a StringJoiner with delimiter "/" and prefix RR_PREFIX, fed the fields in order. */
    method GetValue() returns (v: string)
      ensures v == Format(State())
    {
      var head := [Show(application), Show(environment), Show(customer)];
      var joined := Show(application) + "/" + Show(environment) + "/" + Show(customer);
      assert joined == Join(head, '/') by {
        assert head[1..] == [Show(environment), Show(customer)];
        assert head[1..][1..] == [Show(customer)];
        assert Join([Show(customer)], '/') == Show(customer);
        assert Join(head[1..], '/') == Show(environment) + "/" + Show(customer);
      }
      var props := properties.items;
      assert head + props[..0] == head;
      var i := 0;
      while i < |props|
        invariant 0 <= i <= |props|
        invariant joined == Join(head + props[..i], '/')
      {
        JoinSnoc(head + props[..i], props[i], '/');
        assert head + props[..i + 1] == head + props[..i] + [props[i]];
        joined := joined + "/" + props[i];
        i := i + 1;
      }
      assert props[..i] == props;
      v := Prefix + joined;
    }

    /** toString() is getValue(). */
    method ToString() returns (v: string)
      ensures v == Format(State())
    {
      v := GetValue();
    }
  }

  class Builder {
    const application: Option<string>
    const environment: Option<string>
    const customer: Option<string>
    const properties: PropertyList

    /** The fields hold what the case normalisation leaves unchanged. */
    ghost predicate Normalised()
    {
      Construct(application, environment, customer, []) == Reference(application, environment, customer, [])
    }

    /** Normalises case as the constructors do and starts with an empty list. */
    constructor (application: Option<string>, environment: Option<string>, customer: Option<string>)
      ensures Normalised()
      ensures fresh(this.properties) && this.properties.items == []
      ensures Reference(this.application, this.environment, this.customer, [])
           == Construct(application, environment, customer, [])
    {
      var r := Construct(application, environment, customer, []);
      this.application := r.application;
      this.environment := r.environment;
      this.customer := r.customer;
      this.properties := new PropertyList([]);
      ConstructIdempotent(application, environment, customer, []);
    }

    /** withProperties: appends all given properties in order and returns this builder. */
    method WithProperties(props: seq<string>) returns (b: Builder)
      modifies properties
      ensures b == this
      ensures properties.items == old(properties.items) + props
    {
      properties.items := properties.items + props;
      b := this;
    }

    /** addProperty: appends one property and returns this builder. */
    method AddProperty(property: string) returns (b: Builder)
      modifies properties
      ensures b == this
      ensures properties.items == old(properties.items) + [property]
    {
      properties.items := properties.items + [property];
      b := this;
    }

    /** build(): a new instance over this builder's own list, not a copy of it. */
    method Build() returns (r: ResourceReference)
      requires Normalised()
      ensures fresh(r) && r.properties == properties
      ensures r.State() == Construct(application, environment, customer, properties.items)
      ensures r.State() == Reference(application, environment, customer, properties.items)
    {
      r := new ResourceReference.FromList(application, environment, customer, properties);
      ConstructIdempotent(application, environment, customer, properties.items);
    }
  }

  /** An append on a builder after build() shows through the built instance's getProperties(). */
  method AppendAfterBuild(b: Builder, property: string) returns (r: ResourceReference)
    requires b.Normalised()
    modifies b.properties
    ensures fresh(r)
    ensures r.GetProperties() == old(b.properties.items) + [property]
  {
    r := b.Build();
    var same := b.AddProperty(property);
  }

  /** matchPattern: on a match, a Builder over groups 1 to 3 given the split of group 4. */
  method MatchPattern(value: string) returns (r: Option<ResourceReference>)
    ensures r.Some? <==> Match(value).Some?
    ensures r.Some? ==> fresh(r.value) && fresh(r.value.properties)
    ensures r.Some? ==> r.value.State() == Parse(value).value
  {
    var m := Match(value);
    if m.Some? {
      var g := m.value;
      var builder := new Builder(Some(g.env), Some(g.app), Some(g.customer));
      var same := builder.WithProperties(SplitPropertiesGroup(PropertiesGroup(g.props)));
      var built := builder.Build();
      r := Some(built);
    } else {
      r := None;
    }
  }

  /** of: the parsed instance, or the InvalidPropertiesFormatException when the pattern does not match. */
  method Of(rri: string) returns (r: Result<ResourceReference, string>)
    ensures r.Success? <==> IsValidSSUri(Some(rri))
    ensures r.Failure? ==> r.error == InvalidPattern
    ensures r.Success? ==> fresh(r.value) && r.value.State() == Parse(rri).value
  {
    var m := MatchPattern(rri);
    if m.Some? {
      r := Success(m.value);
    } else {
      r := Failure(InvalidPattern);
    }
  }
}
