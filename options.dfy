/** The optional value that the TypeScript source writes as `T | undefined`. */
module Options {

  datatype Option<+T> = None | Some(value: T)
}
