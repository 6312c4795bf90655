/**
  Character classification as the C library's <cctype> defines it in the
  "C" locale, restricted to what the SimpleLang lexer asks: isspace, isalpha
  and isdigit. Every character outside ASCII is classified as none of them.
 */
module CType {

  /** The NUL character that terminates a C string. */
  const NUL: char := '\0'

  /** isspace: space, horizontal tab, newline, vertical tab, form feed, carriage return. */
  predicate IsSpace(c: char) {
    c == ' ' || c == '\t' || c == '\n' || c == '\U{000B}' || c == '\U{000C}' || c == '\r'
  }

  /** isalpha: an ASCII upper- or lower-case letter. */
  predicate IsAlpha(c: char) {
    ('a' <= c <= 'z') || ('A' <= c <= 'Z')
  }

  /** isdigit: an ASCII decimal digit. */
  predicate IsDigit(c: char) {
    '0' <= c <= '9'
  }
}
