/** The value-or-nothing type: `None` stands for a Java `null` wherever the source may hold one. */
module Optional {
  datatype Option<+T> = None | Some(value: T)
}
