/** The optional-value datatype used across the model of server/redis.js. */
module Optional {

  /** An optional value: `None` stands for JavaScript's `undefined` or `null` where server/redis.js checks for absence. */
  datatype Option<+T> = None | Some(value: T)
}
