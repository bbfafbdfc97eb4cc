/**
 * Page coordinates, as the text extractor reports them: `x0`/`x1` grow to the
 * right, `top`/`bottom` grow downwards.  They are compared, combined by
 * min/max, shifted by constant offsets and subtracted in the line tolerance
 * test; they are modelled as reals, so none of these operations rounds.
 */
module Geometry {

  /** A rectangle `[x0, top, x1, bottom]`. */
  datatype Box = Box(x0: real, top: real, x1: real, bottom: real)

  /** One extracted word: its text and its rectangle. */
  datatype Word = Word(text: string, x0: real, top: real, x1: real, bottom: real)

  /** What the extractor yields for one page: its words in extraction order and its images. */
  datatype Page = Page(words: seq<Word>, images: seq<Box>)

  function Min(a: real, b: real): (m: real)
    ensures m <= a && m <= b
    ensures m == a || m == b
  {
    if a <= b then a else b
  }

  function Max(a: real, b: real): (m: real)
    ensures a <= m && b <= m
    ensures m == a || m == b
  {
    if a >= b then a else b
  }

  function Abs(x: real): (r: real)
    ensures r >= 0.0
    ensures r == x || r == -x
  {
    if x >= 0.0 then x else -x
  }
}
