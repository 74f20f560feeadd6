/** The string tests of the .NET base library that the program relies on. */
module Text {
  import opened Wrappers

  /** char.IsWhiteSpace: the Unicode space separators (category Zs), the line and
      paragraph separators, and the control characters U+0009..U+000D and U+0085. */
  predicate IsWhiteSpace(c: char) {
    ('\U{0009}' <= c <= '\U{000D}') || c == ' ' || c == '\U{0085}' || c == '\U{00A0}'
    || c == '\U{1680}' || ('\U{2000}' <= c <= '\U{200A}') || c == '\U{2028}' || c == '\U{2029}'
    || c == '\U{202F}' || c == '\U{205F}' || c == '\U{3000}'
  }

  /** A non-null string that is empty or consists of white space only. */
  predicate IsBlank(s: string) {
    forall i :: 0 <= i < |s| ==> IsWhiteSpace(s[i])
  }

  /** The test the MailMessage.Subject setter makes before it accepts a text. */
  predicate HasCrOrLf(s: string) {
    exists i :: 0 <= i < |s| && (s[i] == '\r' || s[i] == '\n')
  }

  /** string.IsNullOrWhiteSpace, with C#'s null string as None. */
  predicate IsNullOrWhiteSpace(s: Option<string>) {
    s.None? || IsBlank(s.value)
  }
}
