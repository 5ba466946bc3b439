/** Builds the index configuration of a Bitrix catalog: the default element fields, one
    element per iblock property row (typed by the smart-filter settings), and for catalogs
    with trade offers a single nested `offers` element holding the offer iblock's fields.
    The iblock property rows and the smart-filter settings are inputs: the database reads
    that produce them are not part of this model. */
module BitrixConfigGenerator {
  import opened Php
  import opened TypeEnum
  import opened BitrixFieldType
  import opened Mapable
  import IME = IndexMappingElement
  import IMP = IndexMappingProperty
  import IC = IndexConfig

  // ------------------------------------------------------------- Elasticsearch types

  /** `getTypeForElastic`: numbers are floats whatever the filter says; otherwise a field of
      the smart filter is nested and any other field a keyword. */
  function GetTypeForElastic(bitrixType: string, hasInSmartFilter: bool): (r: FieldType)
    ensures r == Float <==> bitrixType == "N"
    ensures r == Nested <==> bitrixType != "N" && hasInSmartFilter
    ensures r == Keyword <==> bitrixType != "N" && !hasInSmartFilter
  {
    if bitrixType == "N" then Float
    else if hasInSmartFilter then Nested
    else Keyword
  }

  // ------------------------------------------------------------- default fields

  /** One entry of the default field list. Keys the entry may lack are `Option`s (`isset`),
      and `enabled` is any value, null when absent. */
  datatype DefaultField = DefaultField(
    name: string,
    title: string,
    fieldType: string,
    enabled: Value,
    bitrixIblockField: Option<string>,
    bitrixIblockFieldType: Option<FieldKind>,
    normalizer: Option<string>,
    analyzer: Option<string>,
    targetClass: Option<string>,
    targetMethod: Option<string>,
    callback: Option<Callable>)

  function Plain(name: string, title: string, t: FieldType, field: string, kind: FieldKind): DefaultField {
    DefaultField(name, title, TypeName(t), VNull, Some(field), Some(kind), None, None, None, None, None)
  }

  function Picture(name: string, field: string): DefaultField {
    DefaultField(name, "детальная картина", TypeName(Keyword), VBool(false), Some(field), Some(FileField),
                 None, None, Some("CFile"), Some("GetPath"), None)
  }

  /** The twelve built-in fields, in order. */
  function BuiltInFields(): (r: seq<DefaultField>)
    ensures |r| == 12
    ensures forall i :: 0 <= i < |r| ==> (r[i].enabled == VBool(false) <==> i == 5 || i == 6)
  {
    [ Plain("bitrixId", "id", Integer, "ID", ElementField),
      Plain("active", "активность", Boolean, "ACTIVE", ElementField),
      Plain("name", "название", Text, "NAME", ElementField).(analyzer := Some("all_text")),
      Plain("preview_text", "короткий текст", Text, "PREVIEW_TEXT", ElementField).(analyzer := Some("all_text")),
      Plain("detail_text", "детальный текст", Text, "DETAIL_TEXT", ElementField).(analyzer := Some("all_text")),
      Picture("preview_picture", "PREVIEW_PICTURE"),
      Picture("detail_picture", "DETAIL_PICTURE"),
      Plain("code", "slug", Keyword, "CODE", ElementField).(normalizer := Some("lowercase")),
      Plain("xml_id", "XML_ID", Keyword, "XML_ID", ElementField).(normalizer := Some("lowercase")),
      Plain("sort", "SORT", Integer, "SORT", ElementField),
      Plain("section", "SECTION", Keyword, "SECTION_ID", SectionField).(normalizer := Some("lowercase")),
      Plain("show_counter", "show_counter", Integer, "SHOW_COUNTER", ElementField) ]
  }

  /** `defaultFields()`: the constructor's list when it is non-empty, the built-ins otherwise. */
  function DefaultFieldsOf(custom: seq<DefaultField>): (r: seq<DefaultField>)
    ensures custom != [] ==> r == custom
    ensures custom == [] ==> r == BuiltInFields() && |r| == 12
  {
    if custom != [] then custom else BuiltInFields()
  }

  /** The element `getDefaultParams` makes of one entry. */
  function DefaultElement(f: DefaultField, iBlockId: int): (m: Mapable)
    ensures m.name == f.name && m.fieldType == f.fieldType && m.properties == NoList && IsElement(m)
    ensures !m.enabled <==> f.enabled == VBool(false)
    ensures m.normalizer == f.normalizer && m.analyzer == f.analyzer
    ensures m.element.value.title == Some(f.title) && m.element.value.bitrixIblockId == Some(iBlockId)
    ensures m.element.value.bitrixIblockField == f.bitrixIblockField
    ensures m.element.value.bitrixIblockFieldType == f.bitrixIblockFieldType
    ensures m.element.value.targetClass == f.targetClass && m.element.value.targetMethod == f.targetMethod
    ensures m.element.value.callback == f.callback
    ensures !m.element.value.hasInFilter && m.element.value.propertyId == VNull
  {
    Mapable(f.name, f.fieldType, f.enabled != VBool(false), f.normalizer, f.analyzer, NoList,
      Some(ElementInfo(Some(f.title), None, None, Some(iBlockId), f.bitrixIblockField, None,
        f.bitrixIblockFieldType, None, false, false, None, 0, VNull, VNull, f.callback,
        f.targetClass, f.targetMethod)))
  }

  function DefaultElements(fields: seq<DefaultField>, iBlockId: int): (r: seq<Mapable>)
    ensures |r| == |fields|
  {
    seq(|fields|, i requires 0 <= i < |fields| => DefaultElement(fields[i], iBlockId))
  }

  /** `getDefaultParams`: one element per entry, in order, all in iblock `iBlockId`. */
  method GetDefaultParams(fields: seq<DefaultField>, iBlockId: int) returns (added: seq<Mapable>)
    ensures added == DefaultElements(fields, iBlockId)
  {
    added := [];
    var i := 0;
    while i < |fields|
      invariant 0 <= i <= |fields|
      invariant added == DefaultElements(fields[..i], iBlockId)
    {
      added := added + [DefaultElement(fields[i], iBlockId)];
      i := i + 1;
    }
    assert fields[..i] == fields;
  }

  // ------------------------------------------------------------- nested sub-fields

  function SubField(name: string, normalizer: Option<string>): Mapable {
    Mapable(name, TypeName(Keyword), true, normalizer, None, NoList, None)
  }

  /** The sub-fields of every nested property: four keywords, all lower-cased but the title. */
  function NestedShape(): (ps: seq<Mapable>)
    ensures |ps| == 4
    ensures ps[0].name == "title" && ps[1].name == "value" && ps[2].name == "computed" && ps[3].name == "keyId"
    ensures forall p :: p in ps ==> ParseType(p.fieldType) == Some(Keyword) && p.enabled && !IsElement(p)
    ensures forall p :: p in ps ==> (p.normalizer == None <==> p.name == "title")
    ensures forall p :: p in ps && p.normalizer.Some? ==> p.normalizer.value == "lowercase"
  {
    [SubField("title", None), SubField("value", Some("lowercase")),
     SubField("computed", Some("lowercase")), SubField("keyId", Some("lowercase"))]
  }

  /** One sub-field object, built with chained setters: the type, then the normalizer when
      there is one, then the name. */
  method NewSubField(name: string, normalizer: Option<string>) returns (p: Mapable)
    ensures p == SubField(name, normalizer)
  {
    var property := new IMP.IndexMappingProperty();
    var self := property.SetType(TypeName(Keyword));
    if normalizer.Some? {
      self := self.SetNormalizer(normalizer.value);
    }
    self := self.SetName(name);
    p := property.Snapshot();
  }

  /** The four sub-field objects of a nested property. */
  method NestedSubFields() returns (ps: seq<Mapable>)
    ensures ps == NestedShape()
  {
    var title := NewSubField("title", None);
    var value := NewSubField("value", Some("lowercase"));
    var computed := NewSubField("computed", Some("lowercase"));
    var keyId := NewSubField("keyId", Some("lowercase"));
    ps := [title, value, computed, keyId];
  }

  // ------------------------------------------------------------- property rows

  /** One row of the iblock's property list, with the columns the generator reads. The
      columns the code hands to `string` setters are strings; the rest keep their raw value. */
  datatype PropertyRow = PropertyRow(
    id: Value,
    name: string,
    code: string,
    propertyType: string,
    userType: Value,
    linkIblockId: Value,
    userTypeSettings: Value)

  /** The smart-filter settings of one property: its section-link row and the codes of the
      sections it is shown in. */
  datatype SectionProperty = SectionProperty(
    smartFilter: Value,
    sort: Value,
    propertyType: Value,
    displayType: string,
    filterHint: Option<string>,
    sections: seq<Value>)

  /** A property whose values live in a highload block. */
  predicate IsDirectory(row: PropertyRow) {
    row.propertyType == "S" && row.userType == VStr("directory")
  }

  /** The kind of a property row, by precedence: a section link (`G`) first, then a linked
      iblock, then a highload directory, then a list (`L`), then a plain property. */
  function FieldKindOf(row: PropertyRow): FieldKind {
    if row.propertyType == "G" then CategoryProperty
    else if !Empty(row.linkIblockId) then LinkedProperty
    else if IsDirectory(row) then HlProperty
    else if row.propertyType == "L" then EnumProperty
    else SimpleProperty
  }

  function TableName(row: PropertyRow): Value {
    Field(row.userTypeSettings, "TABLE_NAME")
  }

  /** `setBitrixIblockFieldType`: three writes of the kind, the last that applies winning,
      plus the highload table and the linked iblock when there are some, on an element that
      has neither yet. */
  method SetBitrixIblockFieldType(e: IME.IndexMappingElement, row: PropertyRow)
    requires IsDirectory(row) ==> TableName(row).VStr?
    requires e.bitrixHL == None && e.bitrixIblockPropertyLink == None
    modifies e`bitrixIblockFieldType, e`bitrixHL, e`bitrixIblockPropertyLink
    ensures e.bitrixIblockFieldType == Some(FieldKindOf(row))
    ensures e.bitrixHL == if IsDirectory(row) then Some(TableName(row).s) else None
    ensures e.bitrixIblockPropertyLink == if !Empty(row.linkIblockId) then Some(ToInt(row.linkIblockId)) else None
  {
    if IsDirectory(row) {
      e.bitrixIblockFieldType := Some(HlProperty);
      e.bitrixHL := Some(TableName(row).s);
    } else if row.propertyType == "L" {
      e.bitrixIblockFieldType := Some(EnumProperty);
    } else {
      e.bitrixIblockFieldType := Some(SimpleProperty);
    }
    if !Empty(row.linkIblockId) {
      e.bitrixIblockPropertyLink := Some(ToInt(row.linkIblockId));
      e.bitrixIblockFieldType := Some(LinkedProperty);
    }
    if row.propertyType == "G" {
      e.bitrixIblockFieldType := Some(CategoryProperty);
    }
  }

  /** The smart-filter settings of a property are stored under its id cast to int. */
  function SettingsKey(row: PropertyRow): int {
    ToInt(row.id)
  }

  /** The property has smart-filter settings, and they switch the smart filter on. */
  predicate InSmartFilter(row: PropertyRow, settings: map<int, SectionProperty>) {
    SettingsKey(row) in settings && settings[SettingsKey(row)].smartFilter == VStr("Y")
  }

  /** What the typed setters demand of a row: a directory names its highload table. */
  predicate RowOk(row: PropertyRow) {
    IsDirectory(row) ==> TableName(row).VStr?
  }

  /** The element one property row becomes. */
  function PropertyElement(row: PropertyRow, settings: map<int, SectionProperty>, iBlockId: int): (m: Mapable)
    requires RowOk(row)
    ensures IsElement(m)
  {
    var inSettings := SettingsKey(row) in settings;
    var smart := InSmartFilter(row, settings);
    var t := GetTypeForElastic(row.propertyType, smart);
    Mapable(Lower(row.code), TypeName(t), true, None, None,
      if t == Nested then PropList(NestedShape()) else NoList,
      Some(ElementInfo(
        Some(row.name),
        if inSettings then settings[SettingsKey(row)].filterHint else None,
        if inSettings then Some(settings[SettingsKey(row)].displayType) else None,
        Some(iBlockId),
        Some(row.code),
        if !Empty(row.linkIblockId) then Some(ToInt(row.linkIblockId)) else None,
        Some(FieldKindOf(row)),
        if IsDirectory(row) then Some(TableName(row).s) else None,
        smart, false,
        if inSettings then Some(VList(settings[SettingsKey(row)].sections)) else None,
        if inSettings then ToInt(settings[SettingsKey(row)].sort) else 0,
        if inSettings then settings[SettingsKey(row)].propertyType else VNull,
        if inSettings then row.id else VNull,
        None, None, None)))
  }

  /** What a property row's element is: named by the lower-cased code, tied to the iblock
      field of that code, of the row's kind; a float exactly for numbers, nested exactly for
      the other smart-filter properties (with the four keyword sub-fields), a keyword
      otherwise. */
  lemma PropertyElementShape(row: PropertyRow, settings: map<int, SectionProperty>, iBlockId: int)
    requires RowOk(row)
    ensures var m := PropertyElement(row, settings, iBlockId);
      && m.name == Lower(row.code)
      && m.element.value.bitrixIblockField == Some(row.code)
      && m.element.value.bitrixIblockId == Some(iBlockId)
      && m.element.value.bitrixIblockFieldType == Some(FieldKindOf(row))
      && m.element.value.hasInFilter == InSmartFilter(row, settings)
      && (ParseType(m.fieldType) == Some(Float) <==> row.propertyType == "N")
      && (ParseType(m.fieldType) == Some(Nested) <==> row.propertyType != "N" && InSmartFilter(row, settings))
      && (ParseType(m.fieldType) == Some(Keyword) <==> row.propertyType != "N" && !InSmartFilter(row, settings))
      && m.properties == if ParseType(m.fieldType) == Some(Nested) then PropList(NestedShape()) else NoList
  {
    ParseTypeName(GetTypeForElastic(row.propertyType, InSmartFilter(row, settings)));
  }

  function PropertyElements(rows: seq<PropertyRow>, settings: map<int, SectionProperty>, iBlockId: int): (r: seq<Mapable>)
    requires forall i :: 0 <= i < |rows| ==> RowOk(rows[i])
    ensures |r| == |rows|
  {
    seq(|rows|, i requires 0 <= i < |rows| => PropertyElement(rows[i], settings, iBlockId))
  }

  method CollectPropertyElements(rows: seq<PropertyRow>, settings: map<int, SectionProperty>, iBlockId: int)
    returns (added: seq<Mapable>)
    requires forall i :: 0 <= i < |rows| ==> RowOk(rows[i])
    ensures added == PropertyElements(rows, settings, iBlockId)
  {
    added := [];
    var i := 0;
    while i < |rows|
      invariant 0 <= i <= |rows|
      invariant added == PropertyElements(rows[..i], settings, iBlockId)
    {
      added := added + [PropertyElement(rows[i], settings, iBlockId)];
      i := i + 1;
    }
    assert rows[..i] == rows;
  }

  // ------------------------------------------------------------- offers

  /** The availability flag every offer carries. */
  function CatalogAvailable(iBlockId: int): Mapable {
    DefaultElement(Plain("catalog_available", "Доступность", Boolean, "STORE_QUANTITY", ElementField), iBlockId)
  }

  /** The single element of the offer iblock, holding `items`: nested, named `offers`. */
  function OfferElementOf(iBlockId: int, items: seq<Mapable>): Mapable {
    Mapable("offers", TypeName(Nested), true, None, None, PropList(items),
      Some(ElementInfo(Some("Торговое предложение"), None, None, Some(iBlockId), None, None, Some(Offer), None,
        false, false, None, 0, VNull, VNull, None, None, None)))
  }

  /** The offers element of the offer iblock: it holds the default fields, the availability
      flag and the offer properties, in that order. */
  function OfferElement(fields: seq<DefaultField>, rows: seq<PropertyRow>, settings: map<int, SectionProperty>, iBlockId: int): (m: Mapable)
    requires forall i :: 0 <= i < |rows| ==> RowOk(rows[i])
    ensures m.name == "offers" && ParseType(m.fieldType) == Some(Nested) && m.enabled && IsElement(m)
    ensures m.element.value.bitrixIblockFieldType == Some(Offer) && m.element.value.bitrixIblockId == Some(iBlockId)
    ensures m.properties ==
      PropList(DefaultElements(fields, iBlockId) + [CatalogAvailable(iBlockId)] + PropertyElements(rows, settings, iBlockId))
  {
    OfferElementOf(iBlockId, DefaultElements(fields, iBlockId) + [CatalogAvailable(iBlockId)] + PropertyElements(rows, settings, iBlockId))
  }


  /** What `getIblockProperties` adds to the collection: the default fields and one element
      per row, or, for the offer iblock, the one offers element. */
  function IblockMapping(fields: seq<DefaultField>, rows: seq<PropertyRow>, settings: map<int, SectionProperty>, iBlockId: int,
                         isOffer: bool): seq<Mapable>
    requires forall i :: 0 <= i < |rows| ==> RowOk(rows[i])
  {
    if isOffer then [OfferElement(fields, rows, settings, iBlockId)]
    else DefaultElements(fields, iBlockId) + PropertyElements(rows, settings, iBlockId)
  }

  method NewCatalogAvailable(iBlockId: int) returns (m: Mapable)
    ensures m == CatalogAvailable(iBlockId)
  {
    var e := new IME.IndexMappingElement();
    e.name := Some("catalog_available");
    e.fieldType := Some(TypeName(Boolean));
    e.title := Some("Доступность");
    e.bitrixIblockId := Some(iBlockId);
    e.bitrixIblockField := Some("STORE_QUANTITY");
    e.bitrixIblockFieldType := Some(ElementField);
    m := e.Snapshot();
  }

  /** The `offers` element of the offer branch of `getIblockProperties`, given the
      properties collected for it. */
  method NewOfferElement(iBlockId: int, items: seq<Mapable>) returns (m: Mapable)
    ensures m == OfferElementOf(iBlockId, items)
  {
    var offer := new IME.IndexMappingElement();
    offer.title := Some("Торговое предложение");
    offer.fieldType := Some(TypeName(Nested));
    offer.name := Some("offers");
    offer.bitrixIblockId := Some(iBlockId);
    offer.bitrixIblockFieldType := Some(Offer);
    offer.properties := PropList(items);
    m := offer.Snapshot();
  }

  /** `getIblockProperties`: what one iblock adds to the mapping collection. */
  method GetIblockProperties(fields: seq<DefaultField>, rows: seq<PropertyRow>, settings: map<int, SectionProperty>,
                             iBlockId: int, isOffer: bool) returns (added: seq<Mapable>)
    requires forall i :: 0 <= i < |rows| ==> RowOk(rows[i])
    ensures added == IblockMapping(fields, rows, settings, iBlockId, isOffer)
  {
    if isOffer {
      var defaults := GetDefaultParams(fields, iBlockId);
      var available := NewCatalogAvailable(iBlockId);
      var props := CollectPropertyElements(rows, settings, iBlockId);
      var m := NewOfferElement(iBlockId, defaults + [available] + props);
      added := [m];
    } else {
      var defaults := GetDefaultParams(fields, iBlockId);
      var props := CollectPropertyElements(rows, settings, iBlockId);
      added := defaults + props;
    }
  }


  // ------------------------------------------------------------- the generator

  /** The index settings every generated configuration carries: the `lowercase` normalizer
      and the Russian/English stop-word and stemming analyzers. */
  function DefaultSettings(): OMap<Value> {
    [("analysis", VMap([
      ("normalizer", VMap([
        ("lowercase", VMap([("type", VStr("custom")), ("filter", VList([VStr("lowercase")]))]))])),
      ("filter", VMap([
        ("russian_stop", VMap([("type", VStr("stop")), ("stopwords", VStr("_russian_"))])),
        ("russian_keywords", VMap([("type", VStr("keyword_marker")), ("keywords", VList([]))])),
        ("russian_stemmer", VMap([("type", VStr("stemmer")), ("language", VStr("russian"))])),
        ("english_stemmer", VMap([("type", VStr("stemmer")), ("language", VStr("english"))])),
        ("english_stop", VMap([("type", VStr("stop")), ("stopwords", VStr("_english_"))]))])),
      ("analyzer", VMap([
        ("russian_text", VMap([("type", VStr("custom")), ("tokenizer", VStr("standard")),
          ("filter", VList([VStr("lowercase"), VStr("russian_stop"), VStr("russian_stemmer")]))])),
        ("english_text", VMap([("type", VStr("custom")), ("tokenizer", VStr("standard")),
          ("filter", VList([VStr("lowercase"), VStr("english_stop"), VStr("english_stemmer")]))])),
        ("all_text", VMap([("type", VStr("custom")), ("tokenizer", VStr("standard")),
          ("filter", VList([VStr("lowercase"), VStr("english_stop"), VStr("russian_stop"),
                            VStr("english_stemmer"), VStr("russian_stemmer")]))]))]))]))]
  }

  /** `hasOffers`: an offer iblock id that is set and not zero. */
  predicate HasOffers(iBlockOfferId: Option<int>) {
    iBlockOfferId.Some? && iBlockOfferId.value != 0
  }

  /** The generated mapping: the catalog's own fields, then the offers element when there
      is an offer iblock. */
  function GeneratedMapping(fields: seq<DefaultField>, iBlockId: int, rows: seq<PropertyRow>, settings: map<int, SectionProperty>,
                            iBlockOfferId: Option<int>, offerRows: seq<PropertyRow>, offerSettings: map<int, SectionProperty>): (r: seq<Mapable>)
    requires forall i :: 0 <= i < |rows| ==> RowOk(rows[i])
    requires forall i :: 0 <= i < |offerRows| ==> RowOk(offerRows[i])
    ensures HasOffers(iBlockOfferId) ==>
      |r| == |fields| + |rows| + 1 &&
      r[..|r| - 1] == IblockMapping(fields, rows, settings, iBlockId, false) &&
      r[|r| - 1] == OfferElement(fields, offerRows, offerSettings, iBlockOfferId.value)
    ensures !HasOffers(iBlockOfferId) ==> r == IblockMapping(fields, rows, settings, iBlockId, false)
  {
    var main := IblockMapping(fields, rows, settings, iBlockId, false);
    if HasOffers(iBlockOfferId) then
      var r := main + IblockMapping(fields, offerRows, offerSettings, iBlockOfferId.value, true);
      assert r[..|r| - 1] == main;
      r
    else main
  }

  class BitrixConfigGenerator {
    const name: string
    const iBlockId: int
    const iBlockOfferId: Option<int>
    const defaultFields: seq<DefaultField>

    constructor (name: string, iBlockId: int, iBlockOfferId: Option<int>, defaultFields: seq<DefaultField>)
      ensures this.name == name && this.iBlockId == iBlockId
      ensures this.iBlockOfferId == iBlockOfferId && this.defaultFields == defaultFields
    {
      this.name := name;
      this.iBlockId := iBlockId;
      this.iBlockOfferId := iBlockOfferId;
      this.defaultFields := defaultFields;
    }

    /** `generateConfig`: the configuration of the catalog iblock and, when there is one, its
        offer iblock. The offer id is passed to an `int` setter, so it must be set. */
    method GenerateConfig(rows: seq<PropertyRow>, settings: map<int, SectionProperty>,
                          offerRows: seq<PropertyRow>, offerSettings: map<int, SectionProperty>) returns (config: IC.IndexConfig)
      requires iBlockOfferId.Some?
      requires forall i :: 0 <= i < |rows| ==> RowOk(rows[i])
      requires forall i :: 0 <= i < |offerRows| ==> RowOk(offerRows[i])
      ensures fresh(config)
      ensures config.mapping == Some(GeneratedMapping(DefaultFieldsOf(defaultFields), iBlockId, rows, settings,
                                                      iBlockOfferId, offerRows, offerSettings))
      ensures config.iBlockId == Some(iBlockId) && config.offerIBlockId == iBlockOfferId
      ensures config.name == Some(name) && config.settings == Some(DefaultSettings())
    {
      var fields := DefaultFieldsOf(defaultFields);
      var collection := GetIblockProperties(fields, rows, settings, iBlockId, false);
      if HasOffers(iBlockOfferId) {
        var offers := GetIblockProperties(fields, offerRows, offerSettings, iBlockOfferId.value, true);
        collection := collection + offers;
      }
      config := new IC.IndexConfig();
      config.SetIBlockId(iBlockId);
      config.SetOfferIBlockId(iBlockOfferId.value);
      config.SetName(name);
      config.SetMapping(collection);
      config.SetSettings(DefaultSettings());
    }
  }
}
