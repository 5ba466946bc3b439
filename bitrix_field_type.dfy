/** Where a mapped field's data comes from in Bitrix. The enumeration's string values are
    not part of this model, so its cases are kept abstract. */
module BitrixFieldType {
  datatype FieldKind =
    | ElementField
    | FileField
    | SectionField
    | HlProperty
    | EnumProperty
    | SimpleProperty
    | LinkedProperty
    | CategoryProperty
    | Offer
    | AnonymousFunction
}
