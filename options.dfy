/** An optional value: the model's rendering of a TypeScript `string | undefined`. */
module Options {

  datatype Option<+T> = None | Some(value: T)
}
