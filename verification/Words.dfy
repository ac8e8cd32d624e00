/** 64-bit unsigned machine words, the type of every CPU counter and quota.
    The controller's saturating decrements compare through signed casts, and some of its
    subtractions rely on wrap-around, so both are written out here. */
module Words {

  const TWO63: int := 0x8000_0000_0000_0000
  const TWO64: int := 0x1_0000_0000_0000_0000
  const MAX_WORD: Word := TWO64 - 1

  type Word = x: int | 0 <= x < TWO64

  /** The word congruent to `x`. */
  function Wrap(x: int): (r: Word)
    ensures 0 <= x < TWO64 ==> r == x
    ensures -TWO64 <= x < 0 ==> r == x + TWO64
    ensures TWO64 <= x < 2 * TWO64 ==> r == x - TWO64
  {
    x % TWO64
  }

  /** The value of a word after a cast to a signed 64-bit integer. */
  function Signed(x: Word): (r: int)
    ensures Wrap(r) == x
    ensures -TWO63 <= r < TWO63
  {
    if x < TWO63 then x else x - TWO64
  }

  /** A plain increment of a counter. */
  function AddWord(x: Word, d: Word): (r: Word)
    ensures x < TWO63 && d < TWO63 ==> r == x + d
  {
    Wrap(x + d)
  }

  /** A decrement that stops at zero, deciding by the signed values of both operands. */
  function SatSub(x: Word, d: Word): (r: Word)
    ensures x < TWO63 && d <= x ==> r == x - d
    ensures x < TWO63 && x < d < TWO63 ==> r == 0
    // a wrapped negative amount is added
    ensures x < TWO63 && TWO63 <= d ==> r == x + (TWO64 - d)
  {
    if Signed(x) - Signed(d) < 0 then 0 else Wrap(x - d)
  }

  /** Wrapped differences undo wrapped sums and differences. */
  lemma WrapUndoes(x: Word, d: Word)
    ensures Wrap(Wrap(x + d) - x) == d
    ensures Wrap(x - Wrap(x - d)) == d
  {
  }

  function MinWord(x: Word, y: Word): (r: Word)
    ensures r <= x && r <= y && (r == x || r == y)
  {
    if x <= y then x else y
  }

  function MaxWord(x: Word, y: Word): (r: Word)
    ensures r >= x && r >= y && (r == x || r == y)
  {
    if x >= y then x else y
  }

  /** Rounding a non-negative real down to a word; values out of range saturate. */
  function Cast(x: real): (r: Word)
    ensures 0.0 <= x && x.Floor < TWO64 ==> r == x.Floor
  {
    if x < 0.0 then 0 else if x.Floor >= TWO64 then MAX_WORD else x.Floor
  }
}
