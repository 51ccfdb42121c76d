/**
 * Styling tokens of the compact action buttons: a six-colour palette that cycles over the
 * button index, and the button size constants (in dp).
 */
module ActionButtonTokens {

  /** A colour as its 32-bit ARGB value. */
  datatype Color = Color(argb: nat)

  const Palette: seq<Color> := [
    Color(0xFF6C63FF),
    Color(0xFFFFB74D),
    Color(0xFF26A69A),
    Color(0xFFEF5350),
    Color(0xFF42A5F5),
    Color(0xFFFF7043)
  ]

  /** The colour returned when the palette is empty. */
  const FallbackColor: Color := Color(0xFF6C63FF)

  const ButtonHeight: nat := 36
  const MinButtonWidth: nat := 72
  const ButtonSpacing: nat := 4

  /** Kotlin's `Int` range. */
  predicate IsInt32(x: int) {
    -0x8000_0000 <= x < 0x8000_0000
  }

  function Abs(x: int): nat {
    if x < 0 then -x else x
  }

  /**
   * Kotlin's `%`: the remainder of division truncated toward zero, so it takes the sign of the
   * dividend (unlike Dafny's `%`, which is never negative).
   */
  function KotlinRem(a: int, b: int): (r: int)
    requires b != 0
    ensures Abs(r) < Abs(b)
    ensures a >= 0 ==> r >= 0
    ensures a < 0 ==> r <= 0
    ensures (a - r) % Abs(b) == 0
  {
    var m := Abs(b);
    if a >= 0 then
      ModUnique(a - a % m, m, a / m, 0);
      a % m
    else
      ModUnique(a + (-a) % m, m, -((-a) / m), 0);
      -((-a) % m)
  }

  /** `((index % size) + size) % size`, with Kotlin's remainder at both steps. */
  function NormalizedIndex(index: int, size: int): (r: int)
    requires size > 0
    ensures 0 <= r < size
  {
    KotlinRem(KotlinRem(index, size) + size, size)
  }

  /** `x % n == y % n` (Euclidean) when `x` and `y` differ by a multiple of `n`. */
  lemma SameResidue(x: int, y: int, n: int)
    requires n > 0
    requires (x - y) % n == 0
    ensures x % n == y % n
  {
    var k := (x - y) / n;
    assert x - y == k * n;
    assert x == y + k * n;
    var q := y / n;
    assert y == q * n + y % n;
    assert x == (q + k) * n + y % n;
    ModUnique(x, n, q + k, y % n);
  }

  /** The Euclidean remainder is the unique `r` in [0, n) with `x == q * n + r`. */
  lemma ModUnique(x: int, n: int, q: int, r: int)
    requires n > 0 && 0 <= r < n
    requires x == q * n + r
    ensures x % n == r
  {
    var d := x / n - q;
    assert d * n == r - x % n;
  }

  /** The normalised index is the mathematical (never negative) residue of the index. */
  lemma NormalizedIndexIsResidue(index: int, size: int)
    requires size > 0
    ensures NormalizedIndex(index, size) == index % size
  {
    var inner := KotlinRem(index, size);
    var shifted := inner + size;
    assert shifted > 0;
    assert NormalizedIndex(index, size) == shifted % size;
    assert (shifted - index) % size == 0 by {
      assert (index - inner) % size == 0;
      SameResidue(shifted - index, -(index - inner) + size, size);
      MultipleNegated(index - inner, size);
    }
    SameResidue(shifted, index, size);
  }

  /** Negating a multiple of `n` and adding `n` gives a multiple of `n`. */
  lemma MultipleNegated(m: int, n: int)
    requires n > 0 && m % n == 0
    ensures (-m + n) % n == 0
  {
    var k := m / n;
    assert m == k * n;
    assert -m + n == (1 - k) * n;
    ModUnique(-m + n, n, 1 - k, 0);
  }

  /**
   * For a 32-bit index and any palette of at most 2^30 colours (the real one has six), the
   * intermediate `index % size + size` cannot overflow.
   */
  lemma NoOverflow(index: int, size: int)
    requires IsInt32(index) && 0 < size <= 0x4000_0000
    ensures IsInt32(KotlinRem(index, size) + size)
  {
  }

  /** `colorFor` over an arbitrary palette; the real palette is never empty. */
  function ColorForPalette(palette: seq<Color>, index: int): (c: Color)
    ensures palette == [] ==> c == FallbackColor
    ensures palette != [] ==> c in palette
  {
    if palette == [] then FallbackColor
    else palette[NormalizedIndex(index, |palette|)]
  }

  function ColorFor(index: int): Color {
    ColorForPalette(Palette, index)
  }

  /** Any index, negative ones included, picks the palette entry at its residue. */
  lemma ColorForPicksResidue(palette: seq<Color>, index: int)
    requires palette != []
    ensures ColorForPalette(palette, index) == palette[index % |palette|]
  {
    NormalizedIndexIsResidue(index, |palette|);
  }

  /**
   * The palette cycles every six buttons, for indices as mathematical integers. In Kotlin
   * `index + 6` wraps around above `Int.MAX_VALUE - 6`, where this does not apply.
   */
  lemma ColorForCycles(index: int)
    ensures ColorFor(index) == ColorFor(index + 6)
  {
    ColorForPicksResidue(Palette, index);
    ColorForPicksResidue(Palette, index + 6);
    SameResidue(index + 6, index, 6);
  }

  /** The first six buttons get the palette in declaration order. */
  lemma ColorForDeclarationOrder()
    ensures forall i :: 0 <= i < |Palette| ==> ColorFor(i) == Palette[i]
  {
    forall i | 0 <= i < |Palette| ensures ColorFor(i) == Palette[i] {
      ColorForPicksResidue(Palette, i);
      assert i % 6 == i;
    }
  }

  /** The thirteenth button wraps to the first colour, and index -1 to the last. */
  lemma ColorForWraps()
    ensures ColorFor(12) == Color(0xFF6C63FF)
    ensures ColorFor(-1) == Color(0xFFFF7043)
  {
    ColorForPicksResidue(Palette, 12);
    assert 12 % 6 == 0;
    ColorForPicksResidue(Palette, -1);
    assert -1 % 6 == 5;
  }

  /** The empty-palette fallback, and the size tokens. */
  lemma Tokens()
    ensures ColorForPalette([], 3) == Color(0xFF6C63FF)
    ensures ButtonHeight == 36 && MinButtonWidth == 72 && ButtonSpacing == 4
  {
  }
}
