/** Values shared by every part of the model. */
module Wrappers {

  /** An optional value: `None` stands for JavaScript's `undefined` / `null` / `false`. */
  datatype Option<+T> = None | Some(value: T)

  /** A document key as `getDocKey` yields it: the string form of an ObjectId. */
  type Id = string
}
