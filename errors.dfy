/**
 * The adapter signals failure by throwing a JavaScript `Error`; some call sites
 * attach `category = 'VALIDATION'` to it, others throw it untagged.
 */
module Errors {

  /** `Validation` is an error whose `category` property is 'VALIDATION'; `Untagged` has none. */
  datatype Category = Validation | Untagged

  datatype Error = Error(message: string, category: Category)
}
