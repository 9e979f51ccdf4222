/** A value as it travels in a JSON body or a database row. */
module Values {

  /**
   * `Other` is any further value (a decimal, a date, a float), given by the
   * text `str()` prints for it.
   */
  datatype Value = Null | Str(s: string) | Int(i: int) | Bool(b: bool) | Other(text: string)
}
