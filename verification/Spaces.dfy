/** White space as Python sees it in text: what `str.strip` trims and what `\s` matches. */
module Spaces {

  predicate Space(c: char) {
    var n := c as int;
    9 <= n <= 13 || 28 <= n <= 32 || n == 0x85 || n == 0xA0 || n == 0x1680 || 0x2000 <= n <= 0x200A ||
    n == 0x2028 || n == 0x2029 || n == 0x202F || n == 0x205F || n == 0x3000
  }

  /** The white space characters one by one. */
  const WHITE_SPACE := "\t\n\U{B}\U{C}\r\U{1C}\U{1D}\U{1E}\U{1F} \U{85}\U{A0}\U{1680}\U{2000}\U{2001}\U{2002}" +
                       "\U{2003}\U{2004}\U{2005}\U{2006}\U{2007}\U{2008}\U{2009}\U{200A}\U{2028}\U{2029}\U{202F}" +
                       "\U{205F}\U{3000}"

  lemma {:induction false} SpacesListed(c: char)
    ensures Space(c) <==> c in WHITE_SPACE
  {
  }
}
