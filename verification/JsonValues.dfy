/** Values in JSON documents. */
module JsonValues {

  /** Up to Python's equality. */
  datatype Json = Null | Bool(b: bool) | Text(text: string) | Other(id: int)

  type Document = map<string, Json>

  predicate Has(d: Document, key: string, value: Json) {
    key in d && d[key] == value
  }
}
