/** The two pieces of C# string behaviour that the controller relies on. */
module CsStrings {
  import opened Optional

  /** A C# `string`: a reference that may be null (`None`). */
  type CsString = Option<string>

  /** `string.IsNullOrEmpty`. */
  predicate IsNullOrEmpty(s: CsString) {
    s == None || s == Some("")
  }

  /** The text a C# `+` concatenation contributes for `s`: a null operand
      contributes nothing, as if it were the empty string. */
  function TextOf(s: CsString): string {
    match s
    case None => ""
    case Some(t) => t
  }
}
