/** The nullable references of the original program (a `string` that may be
    null, a guideline section that may be absent) are modelled as `Option`. */
module Wrappers {

  datatype Option<+T> = None | Some(value: T)

  /** A nullable string as C# string concatenation and interpolation render it:
      null becomes the empty string. */
  function OrEmpty(s: Option<string>): string {
    match s
    case Some(v) => v
    case None => ""
  }
}
