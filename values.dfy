/** Small value types shared by the whole model. */
module Values {

  /** Python's `None` or a present value. */
  datatype Option<T> = None | Some(value: T)

  /**
   * A value inside a discovery configuration: `None` (an availability topic
   * that was never set), a string, or the device-metadata dictionary that
   * every entity embeds under "dev".
   */
  datatype Value = Null | Text(s: string) | Dict(entries: map<string, string>)

  /** An application callback, kept opaque: only its identity matters. */
  type ActionId = nat
}
