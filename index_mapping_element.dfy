/** A field descriptor of the index mapping: private fields written one at a time by setters.
    Fields that hold nothing until set are `Option`s; a getter whose declared return type
    excludes null needs its field set. */
module IndexMappingElement {
  import opened Php
  import opened BitrixFieldType
  import opened Mapable

  class IndexMappingElement {
    var name: Option<string>
    var title: Option<string>
    var hint: Option<string>
    var fieldType: Option<string>
    var enabled: bool
    var showingType: Option<string>
    var properties: PropList
    var normalizer: Option<string>
    var analyzer: Option<string>
    var bitrixIblockId: Option<int>
    var bitrixIblockField: Option<string>
    var bitrixIblockPropertyLink: Option<int>
    var bitrixIblockFieldType: Option<FieldKind>
    var bitrixHL: Option<string>
    var hasInFilter: bool
    var hasInSearch: bool
    var showInSection: Option<Value>
    var sort: int
    var propertyType: Value
    var propertyId: Value
    var callback: Option<Callable>
    var targetClass: Option<string>
    var targetMethod: Option<string>

    /** A new element: enabled, in neither filter nor search, sort 0, everything else unset. */
    constructor ()
      ensures name == None && title == None && hint == None && fieldType == None
      ensures enabled && showingType == None && properties == NoList
      ensures normalizer == None && analyzer == None
      ensures bitrixIblockId == None && bitrixIblockField == None && bitrixIblockPropertyLink == None
      ensures bitrixIblockFieldType == None && bitrixHL == None
      ensures !hasInFilter && !hasInSearch && showInSection == None && sort == 0
      ensures propertyType == VNull && propertyId == VNull && callback == None
      ensures targetClass == None && targetMethod == None
    {
      name := None;
      title := None;
      hint := None;
      fieldType := None;
      enabled := true;
      showingType := None;
      properties := NoList;
      normalizer := None;
      analyzer := None;
      bitrixIblockId := None;
      bitrixIblockField := None;
      bitrixIblockPropertyLink := None;
      bitrixIblockFieldType := None;
      bitrixHL := None;
      hasInFilter := false;
      hasInSearch := false;
      showInSection := None;
      sort := 0;
      propertyType := VNull;
      propertyId := VNull;
      callback := None;
      targetClass := None;
      targetMethod := None;
    }

    function GetName(): string
      reads this
      requires name.Some?
    {
      name.value
    }

    method SetName(v: string) returns (self: IndexMappingElement)
      modifies this`name
      ensures name == Some(v) && GetName() == v
      ensures self == this
    {
      name := Some(v);
      self := this;
    }

    function GetTitle(): string
      reads this
      requires title.Some?
    {
      title.value
    }

    method SetTitle(v: string) returns (self: IndexMappingElement)
      modifies this`title
      ensures title == Some(v) && GetTitle() == v
      ensures self == this
    {
      title := Some(v);
      self := this;
    }

    function GetHint(): Option<string>
      reads this
    {
      hint
    }

    method SetHint(v: Option<string>) returns (self: IndexMappingElement)
      modifies this`hint
      ensures GetHint() == v
      ensures self == this
    {
      hint := v;
      self := this;
    }

    function GetType(): string
      reads this
      requires fieldType.Some?
    {
      fieldType.value
    }

    method SetType(v: string) returns (self: IndexMappingElement)
      modifies this`fieldType
      ensures fieldType == Some(v) && GetType() == v
      ensures self == this
    {
      fieldType := Some(v);
      self := this;
    }

    function GetShowingType(): Option<string>
      reads this
    {
      showingType
    }

    method SetShowingType(v: string) returns (self: IndexMappingElement)
      modifies this`showingType
      ensures GetShowingType() == Some(v)
      ensures self == this
    {
      showingType := Some(v);
      self := this;
    }

    function GetProperties(): PropList
      reads this
    {
      properties
    }

    method SetProperties(v: seq<Mapable>) returns (self: IndexMappingElement)
      modifies this`properties
      ensures GetProperties() == PropList(v)
      ensures self == this
    {
      properties := PropList(v);
      self := this;
    }

    function GetNormalizer(): Option<string>
      reads this
    {
      normalizer
    }

    method SetNormalizer(v: Option<string>) returns (self: IndexMappingElement)
      modifies this`normalizer
      ensures GetNormalizer() == v
      ensures self == this
    {
      normalizer := v;
      self := this;
    }

    function GetAnalyzer(): Option<string>
      reads this
    {
      analyzer
    }

    method SetAnalyzer(v: string) returns (self: IndexMappingElement)
      modifies this`analyzer
      ensures GetAnalyzer() == Some(v)
      ensures self == this
    {
      analyzer := Some(v);
      self := this;
    }

    function GetBitrixIblockId(): Option<int>
      reads this
    {
      bitrixIblockId
    }

    method SetBitrixIblockId(v: int) returns (self: IndexMappingElement)
      modifies this`bitrixIblockId
      ensures GetBitrixIblockId() == Some(v)
      ensures self == this
    {
      bitrixIblockId := Some(v);
      self := this;
    }

    function GetBitrixIblockField(): Option<string>
      reads this
    {
      bitrixIblockField
    }

    method SetBitrixIblockField(v: string) returns (self: IndexMappingElement)
      modifies this`bitrixIblockField
      ensures GetBitrixIblockField() == Some(v)
      ensures self == this
    {
      bitrixIblockField := Some(v);
      self := this;
    }

    function GetTargetClass(): Option<string>
      reads this
    {
      targetClass
    }

    method SetTargetClass(v: string) returns (self: IndexMappingElement)
      modifies this`targetClass
      ensures GetTargetClass() == Some(v)
      ensures self == this
    {
      targetClass := Some(v);
      self := this;
    }

    function GetTargetMethod(): Option<string>
      reads this
    {
      targetMethod
    }

    method SetTargetMethod(v: string) returns (self: IndexMappingElement)
      modifies this`targetMethod
      ensures GetTargetMethod() == Some(v)
      ensures self == this
    {
      targetMethod := Some(v);
      self := this;
    }

    /** The stored flag; false for an element whose flag was never set. */
    function IsHasInFilter(): bool
      reads this
    {
      hasInFilter
    }

    method SetHasInFilter(v: bool) returns (self: IndexMappingElement)
      modifies this`hasInFilter
      ensures IsHasInFilter() == v
      ensures self == this
    {
      hasInFilter := v;
      self := this;
    }

    function IsHasInSearch(): bool
      reads this
    {
      hasInSearch
    }

    method SetHasInSearch(v: bool) returns (self: IndexMappingElement)
      modifies this`hasInSearch
      ensures IsHasInSearch() == v
      ensures self == this
    {
      hasInSearch := v;
      self := this;
    }

    function GetShowInSection(): Option<Value>
      reads this
    {
      showInSection
    }

    method SetShowInSection(v: Option<Value>) returns (self: IndexMappingElement)
      requires v.Some? ==> v.value.VList? || v.value.VMap?
      modifies this`showInSection
      ensures GetShowInSection() == v
      ensures self == this
    {
      showInSection := v;
      self := this;
    }

    function GetBitrixIblockPropertyLink(): Option<int>
      reads this
    {
      bitrixIblockPropertyLink
    }

    method SetBitrixIblockPropertyLink(v: Option<int>) returns (self: IndexMappingElement)
      modifies this`bitrixIblockPropertyLink
      ensures GetBitrixIblockPropertyLink() == v
      ensures self == this
    {
      bitrixIblockPropertyLink := v;
      self := this;
    }

    function GetBitrixIblockFieldType(): Option<FieldKind>
      reads this
    {
      bitrixIblockFieldType
    }

    method SetBitrixIblockFieldType(v: Option<FieldKind>) returns (self: IndexMappingElement)
      modifies this`bitrixIblockFieldType
      ensures GetBitrixIblockFieldType() == v
      ensures self == this
    {
      bitrixIblockFieldType := v;
      self := this;
    }

    function GetBitrixHL(): Option<string>
      reads this
    {
      bitrixHL
    }

    method SetBitrixHL(v: string)
      modifies this`bitrixHL
      ensures GetBitrixHL() == Some(v)
    {
      bitrixHL := Some(v);
    }

    function GetSort(): int
      reads this
    {
      sort
    }

    method SetSort(v: int)
      modifies this`sort
      ensures GetSort() == v
    {
      sort := v;
    }

    function GetPropertyType(): Value
      reads this
    {
      propertyType
    }

    method SetPropertyType(v: Value)
      modifies this`propertyType
      ensures GetPropertyType() == v
    {
      propertyType := v;
    }

    function GetPropertyId(): Value
      reads this
    {
      propertyId
    }

    method SetPropertyId(v: Value)
      modifies this`propertyId
      ensures GetPropertyId() == v
    {
      propertyId := v;
    }

    method SetFunction(v: Callable)
      modifies this`callback
      ensures callback == Some(v) && GetFunction() == v
    {
      callback := Some(v);
    }

    /** The stored callable; the declared return type rules out calling this before one is set. */
    function GetFunction(): Callable
      reads this
      requires callback.Some?
    {
      callback.value
    }

    /** True unless `SetEnabled(false)` was the last write. */
    function IsEnabled(): bool
      reads this
    {
      enabled
    }

    method SetEnabled(v: bool)
      modifies this`enabled
      ensures IsEnabled() == v
    {
      enabled := v;
    }

    /** The element as a mapping entry: every field at this moment. */
    function Snapshot(): (m: Mapable)
      reads this
      requires name.Some? && fieldType.Some?
    {
      Mapable(name.value, fieldType.value, enabled, normalizer, analyzer, properties,
        Some(ElementInfo(title, hint, showingType, bitrixIblockId, bitrixIblockField,
          bitrixIblockPropertyLink, bitrixIblockFieldType, bitrixHL, hasInFilter, hasInSearch,
          showInSection, sort, propertyType, propertyId, callback, targetClass, targetMethod)))
    }
  }
}
