/** A sub-field descriptor (an entry of a nested field's `properties`): chainable setters
    over private fields. Its enabled flag starts true and nothing ever writes it. */
module IndexMappingProperty {
  import opened Php
  import opened Mapable

  class IndexMappingProperty {
    var name: Option<string>
    var fieldType: Option<string>
    const enabled: bool := true
    var normalizer: Option<string>
    var properties: PropList
    var analyzer: Option<string>

    /** A new sub-field: nothing set; normalizer, analyzer and properties read as null. */
    constructor ()
      ensures name == None && fieldType == None
      ensures GetNormalizer() == None && GetAnalyzer() == None && GetProperties() == NoList
    {
      name := None;
      fieldType := None;
      normalizer := None;
      properties := NoList;
      analyzer := None;
    }

    function GetName(): string
      reads this
      requires name.Some?
    {
      name.value
    }

    method SetName(v: string) returns (self: IndexMappingProperty)
      modifies this`name
      ensures name == Some(v) && GetName() == v
      ensures self == this
    {
      name := Some(v);
      self := this;
    }

    function GetType(): string
      reads this
      requires fieldType.Some?
    {
      fieldType.value
    }

    method SetType(v: string) returns (self: IndexMappingProperty)
      modifies this`fieldType
      ensures fieldType == Some(v) && GetType() == v
      ensures self == this
    {
      fieldType := Some(v);
      self := this;
    }

    function GetNormalizer(): Option<string>
      reads this
    {
      normalizer
    }

    method SetNormalizer(v: string) returns (self: IndexMappingProperty)
      modifies this`normalizer
      ensures GetNormalizer() == Some(v)
      ensures self == this
    {
      normalizer := Some(v);
      self := this;
    }

    function GetProperties(): PropList
      reads this
    {
      properties
    }

    method SetProperties(v: seq<Mapable>) returns (self: IndexMappingProperty)
      modifies this`properties
      ensures GetProperties() == PropList(v)
      ensures self == this
    {
      properties := PropList(v);
      self := this;
    }

    function GetAnalyzer(): Option<string>
      reads this
    {
      analyzer
    }

    method SetAnalyzer(v: string) returns (self: IndexMappingProperty)
      modifies this`analyzer
      ensures GetAnalyzer() == Some(v)
      ensures self == this
    {
      analyzer := Some(v);
      self := this;
    }

    /** Always true: the flag is fixed at its initial value. */
    function IsEnabled(): (r: bool)
      ensures r
    {
      enabled
    }

    /** The sub-field as a mapping entry: enabled, and without element data. */
    function Snapshot(): (m: Mapable)
      reads this
      requires name.Some? && fieldType.Some?
      ensures m.enabled && !IsElement(m)
    {
      Mapable(name.value, fieldType.value, IsEnabled(), normalizer, analyzer, properties, None)
    }
  }
}
