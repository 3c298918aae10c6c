/** Values shared by every manager: nullable references and the "present" test
    the shapefile publisher applies to coordinate reference system names. */
module Values {

  /** A reference that may be null: `None` stands for null. */
  datatype Option<+T> = None | Some(value: T)

  /** A string is present when it is non-null and has at least one character. */
  predicate Present(s: Option<string>)
  {
    s.Some? && |s.value| != 0
  }
}
