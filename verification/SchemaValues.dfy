/** JSON schema documents. */
module SchemaValues {

  /** A schema value; the order of an object's members does not matter. */
  datatype Node = Str(text: string) | Other(literal: string) | List(items: seq<Node>) | Dict(fields: map<string, Node>)
}
