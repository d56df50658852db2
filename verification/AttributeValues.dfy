/** Shared attribute values as a reader sees them, whatever the build stores them in. */
module AttributeValues {
  datatype Attribute = NumberValue(n: int) | TextValue(s: string)
}
