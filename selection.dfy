/**
  `getRandomBackground` and `getFont`: deterministic picks from the configured
  palette and font list, keyed by the initials.
 */
module Selection {
  import opened Text

  /** A background or foreground colour, as configured (a hex string such as "#cccccc"). */
  type Color = string

  /** A font entry of the configuration: a file name under the avatar font directory. */
  type FontId = string

  /** The sum of the byte codes of `s`, accumulated from the left. */
  function CodeSum(s: AsciiString): (sum: nat)
    ensures |s| == 1 ==> sum == Ord(s[0])
  {
    if s == [] then 0 else CodeSum(s[..|s| - 1]) + Ord(s[|s| - 1])
  }

  /** Each character adds at most 127 to the sum. */
  lemma {:induction false} CodeSumBound(s: AsciiString)
    ensures CodeSum(s) <= 127 * |s|
  {
    if s != [] {
      CodeSumBound(s[..|s| - 1]);
    }
  }

  /** The sum over a concatenation is the sum of the sums. */
  lemma {:induction false} CodeSumAppend(a: AsciiString, b: AsciiString)
    ensures CodeSum(a + b) == CodeSum(a) + CodeSum(b)
  {
    if b == [] {
      assert a + b == a;
    } else {
      CodeSumAppend(a, b[..|b| - 1]);
      assert (a + b)[..|a + b| - 1] == a + b[..|b| - 1];
    }
  }

  /** Taking one character out of a text takes its code out of the sum. */
  lemma RemoveOne(b: AsciiString, i: nat)
    requires i < |b|
    ensures CodeSum(b) == CodeSum(b[..i] + b[i + 1..]) + Ord(b[i])
  {
    var front, x, back := b[..i], [b[i]], b[i + 1..];
    assert b == (front + x) + back;
    CodeSumAppend(front + x, back);
    CodeSumAppend(front, x);
    CodeSumAppend(front, back);
    assert CodeSum(x) == Ord(b[i]);
  }

  /** Taking one character out of a text takes one occurrence out of its multiset. */
  lemma RemoveOneMultiset(b: AsciiString, i: nat)
    requires i < |b|
    ensures multiset(b[..i] + b[i + 1..]) == multiset(b) - multiset{b[i]}
  {
    assert b == b[..i] + [b[i]] + b[i + 1..];
  }

  /** The sum does not depend on the order of the characters. */
  lemma {:induction false} CodeSumPermutation(a: AsciiString, b: AsciiString)
    requires multiset(a) == multiset(b)
    ensures CodeSum(a) == CodeSum(b)
    decreases |a|
  {
    if a == [] {
      assert |b| == |multiset(b)| == 0;
    } else {
      var n := |a| - 1;
      assert a[n] in multiset(b);
      var i :| 0 <= i < |b| && b[i] == a[n];
      RemoveOne(a, n);
      RemoveOne(b, i);
      RemoveOneMultiset(a, n);
      RemoveOneMultiset(b, i);
      assert a[..n] + a[n + 1..] == a[..n];
      CodeSumPermutation(a[..n], b[..i] + b[i + 1..]);
    }
  }

  /**
    `getRandomBackground`: with no initials the current background stays; otherwise
    the palette entry at the byte-code sum of the initials modulo the palette size.
   */
  function BackgroundFor(initials: AsciiString, colors: seq<Color>, current: Color): (color: Color)
    requires |colors| > 0
    ensures initials == [] ==> color == current
    ensures initials != [] ==> color in colors
  {
    if |initials| == 0 then current else colors[CodeSum(initials) % |colors|]
  }

  /** Initials that are rearrangements of each other ("JD", "DJ") get the same background. */
  lemma BackgroundIgnoresOrder(a: AsciiString, b: AsciiString, colors: seq<Color>, current: Color)
    requires |colors| > 0
    requires multiset(a) == multiset(b)
    ensures BackgroundFor(a, colors, current) == BackgroundFor(b, colors, current)
  {
    CodeSumPermutation(a, b);
    assert a == [] <==> b == [] by {
      assert |a| == |multiset(a)| && |b| == |multiset(b)|;
    }
  }

  /** "JD" sums to 74 + 68 = 142, so a palette of two gives its first entry. */
  lemma BackgroundJohnDoe(c0: Color, c1: Color, current: Color)
    ensures BackgroundFor("JD", [c0, c1], current) == c0
  {
    var jd: AsciiString := "JD";
    assert jd[..1] == "J" && jd[..1][..0] == [];
    assert CodeSum(jd) == 142;
  }

  /** What `getFont` hands to the renderer: a font file, or the renderer's built-in font number. */
  datatype FontChoice = FontFile(id: FontId) | BuiltinFont(number: int)

  /** The built-in font `getFont` falls back to. */
  const FALLBACK_FONT := 5

  /**
    `getFont`: for truthy initials, the font at the byte code of their first character
    modulo the list size, when its file exists; the built-in font 5 otherwise.
   */
  function FontFor(initials: AsciiString, fonts: seq<FontId>, fontFileExists: FontId -> bool): (font: FontChoice)
    requires |fonts| > 0
    ensures font.FontFile? ==> font.id in fonts && fontFileExists(font.id)
    ensures font.BuiltinFont? ==> font.number == FALLBACK_FONT
    ensures !Truthy(initials) ==> font == BuiltinFont(FALLBACK_FONT)
    ensures Truthy(initials) ==> (font.FontFile? <==> fontFileExists(fonts[Ord(initials[0]) % |fonts|]))
  {
    if Truthy(initials) && fontFileExists(fonts[Ord(initials[0]) % |fonts|]) then
      FontFile(fonts[Ord(initials[0]) % |fonts|])
    else
      BuiltinFont(FALLBACK_FONT)
  }

  /** The font depends on the first character of the initials alone. */
  lemma FontKeyedByFirstChar(a: AsciiString, b: AsciiString, fonts: seq<FontId>, fontFileExists: FontId -> bool)
    requires |fonts| > 0
    requires Truthy(a) && Truthy(b) && a[0] == b[0]
    ensures FontFor(a, fonts, fontFileExists) == FontFor(b, fonts, fontFileExists)
  {
  }

  /**
    The two picks differ in kind: "AB" and "BA" share a background (same sum) but,
    with two font files present, get different fonts (first characters 65 and 66).
   */
  lemma ColorSumsFontTakesFirst(colors: seq<Color>, current: Color, f0: FontId, f1: FontId)
    requires |colors| > 0 && f0 != f1
    ensures BackgroundFor("AB", colors, current) == BackgroundFor("BA", colors, current)
    ensures FontFor("AB", [f0, f1], _ => true) == FontFile(f1)
    ensures FontFor("BA", [f0, f1], _ => true) == FontFile(f0)
  {
    var ab: AsciiString, ba: AsciiString := "AB", "BA";
    assert multiset(ab) == multiset(ba);
    BackgroundIgnoresOrder(ab, ba, colors, current);
  }
}
