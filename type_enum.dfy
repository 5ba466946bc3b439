/** The Elasticsearch field types the mapping uses. Mapping records keep the type as the
    string the index expects; this closed enumeration names the eight strings the code knows. */
module TypeEnum {
  import opened Php

  datatype FieldType = Keyword | Float | Integer | Nested | Boolean | Date | Text | Object

  /** The mapping string of each type. */
  function TypeName(t: FieldType): string {
    match t
    case Keyword => "keyword"
    case Float => "float"
    case Integer => "integer"
    case Nested => "nested"
    case Boolean => "boolean"
    case Date => "date"
    case Text => "text"
    case Object => "object"
  }

  /** Reading a mapping string back; a string outside the eight names is no known type. */
  function ParseType(s: string): (r: Option<FieldType>)
    ensures r.Some? ==> TypeName(r.value) == s
  {
    if s == "keyword" then Some(Keyword)
    else if s == "float" then Some(Float)
    else if s == "integer" then Some(Integer)
    else if s == "nested" then Some(Nested)
    else if s == "boolean" then Some(Boolean)
    else if s == "date" then Some(Date)
    else if s == "text" then Some(Text)
    else if s == "object" then Some(Object)
    else None
  }

  /** Every type's name reads back as that type, so the eight names are pairwise distinct. */
  lemma ParseTypeName(t: FieldType)
    ensures ParseType(TypeName(t)) == Some(t)
  {
  }

  lemma TypeNameInjective(t: FieldType, u: FieldType)
    ensures TypeName(t) == TypeName(u) <==> t == u
  {
    ParseTypeName(t);
    ParseTypeName(u);
  }
}
