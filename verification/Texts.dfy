/** How the database compares text. */
module Texts {

  /** The database's text rules: any upper-casing and any collation. */
  datatype Text = Text(upper: string -> string, place: string -> int)

  /** `iexact` */
  predicate SameText(text: Text, a: string, b: string) {
    text.upper(a) == text.upper(b)
  }

  predicate Occurs(needle: string, hay: string) {
    needle <= hay || (hay != [] && Occurs(needle, hay[1..]))
  }

  /** `icontains` */
  predicate ContainsText(text: Text, hay: string, needle: string) {
    Occurs(text.upper(needle), text.upper(hay))
  }
}
