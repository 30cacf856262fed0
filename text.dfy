/**
  Strings as the avatar engine sees them, and the PHP string primitives it uses:
  `explode(' ', ...)`, `implode(...)`, `ord(...)` and PHP truthiness of a string.

  Every character is ASCII, so that a character (what Stringy counts) is one byte
  (what `strlen` and `ord` count).
 */
module Text {

  /** A character that is one byte in UTF-8. */
  type AsciiChar = c: char | c < 128 as char

  type AsciiString = seq<AsciiChar>

  const SPACE: AsciiChar := ' '

  /** PHP's `ord` of a one-character string: its byte code. */
  function Ord(c: AsciiChar): (code: nat)
    ensures code < 128
  {
    c as nat
  }

  /** The first `n` elements, or all of them when there are fewer (Collection `slice(0, n)`, Stringy `substr(0, n)`). */
  function Take<T>(xs: seq<T>, n: nat): (prefix: seq<T>)
    ensures |prefix| == (if n < |xs| then n else |xs|)
    ensures prefix <= xs
  {
    if n < |xs| then xs[..n] else xs
  }

  /** PHP's truthiness of a string: false exactly for "" and "0". */
  predicate Truthy(s: AsciiString)
    ensures Truthy(s) <==> |s| >= 2 || (|s| == 1 && s[0] != '0')
  {
    s != [] && s != ['0']
  }

  /**
    PHP's `explode(' ', s)`: the pieces of `s` between single spaces, in order.
    There is always one more piece than there are spaces, and no piece holds a space.
   */
  function Explode(s: AsciiString): (words: seq<AsciiString>)
    ensures |words| >= 1
    ensures forall k :: 0 <= k < |words| ==> SPACE !in words[k]
  {
    if s == [] then [[]]
    else
      var rest := Explode(s[1..]);
      if s[0] == SPACE then [[]] + rest
      else [[s[0]] + rest[0]] + rest[1..]
  }

  /** One piece more than there are spaces: a text without spaces is a single piece. */
  lemma {:induction false} ExplodeCount(s: AsciiString)
    ensures |Explode(s)| == multiset(s)[SPACE] + 1
  {
    if s != [] {
      ExplodeCount(s[1..]);
      assert s == [s[0]] + s[1..];
    }
  }

  /** PHP's `implode(glue, words)`: the words joined with `glue` between neighbours. */
  function Implode(words: seq<AsciiString>, glue: AsciiString): (joined: AsciiString)
    ensures words != [] ==> words[0] <= joined
    ensures (forall k :: 0 <= k < |words| ==> SPACE !in words[k]) && SPACE !in glue ==> SPACE !in joined
  {
    if words == [] then []
    else if |words| == 1 then words[0]
    else words[0] + glue + Implode(words[1..], glue)
  }

  /** Joining the pieces of `explode(' ', s)` with a space gives `s` back. */
  lemma {:induction false} ImplodeExplode(s: AsciiString)
    ensures Implode(Explode(s), [SPACE]) == s
  {
    if s != [] {
      var rest := Explode(s[1..]);
      ImplodeExplode(s[1..]);
      if s[0] == SPACE {
        ImplodeCons([], rest, [SPACE]);
      } else {
        ImplodeExtendFirst([s[0]], rest, [SPACE]);
      }
      assert s == [s[0]] + s[1..];
    }
  }

  lemma ImplodeCons(w: AsciiString, words: seq<AsciiString>, glue: AsciiString)
    requires words != []
    ensures Implode([w] + words, glue) == w + glue + Implode(words, glue)
  {
    assert ([w] + words)[1..] == words;
  }

  /** Prepending to the first word prepends to the joined text. */
  lemma ImplodeExtendFirst(p: AsciiString, words: seq<AsciiString>, glue: AsciiString)
    requires words != []
    ensures Implode([p + words[0]] + words[1..], glue) == p + Implode(words, glue)
  {
    if |words| > 1 {
      ImplodeCons(p + words[0], words[1..], glue);
    }
  }

  /** A word with no space in front of any text extends the first piece of the text. */
  lemma {:induction false} ExplodeWordPrefix(w: AsciiString, s: AsciiString)
    requires SPACE !in w
    ensures Explode(w + s) == [w + Explode(s)[0]] + Explode(s)[1..]
  {
    if w != [] {
      ExplodeWordPrefix(w[1..], s);
      var e := Explode(s);
      var r := Explode(w[1..] + s);
      assert (w + s)[1..] == w[1..] + s;
      assert w[0] in w;
      assert Explode(w + s) == [[w[0]] + r[0]] + r[1..];
      assert r[0] == w[1..] + e[0] && r[1..] == e[1..];
      assert [w[0]] + (w[1..] + e[0]) == w + e[0];
    } else {
      assert w + s == s;
      assert w + Explode(s)[0] == Explode(s)[0];
      assert Explode(s) == [Explode(s)[0]] + Explode(s)[1..];
    }
  }

  /** Splitting words joined by single spaces gives the words back, when no word holds a space. */
  lemma {:induction false} ExplodeImplode(words: seq<AsciiString>)
    requires |words| >= 1
    requires forall k :: 0 <= k < |words| ==> SPACE !in words[k]
    ensures Explode(Implode(words, [SPACE])) == words
  {
    if |words| == 1 {
      ExplodeWordPrefix(words[0], []);
      assert words[0] + [] == words[0];
    } else {
      var tail := Implode(words[1..], [SPACE]);
      ExplodeImplode(words[1..]);
      assert Implode(words, [SPACE]) == words[0] + ([SPACE] + tail);
      ExplodeWordPrefix(words[0], [SPACE] + tail);
      assert ([SPACE] + tail)[1..] == tail;
      assert Explode([SPACE] + tail) == [[]] + words[1..];
      assert words[0] + [] == words[0];
      assert words == [words[0]] + words[1..];
    }
  }

  /**
    What Stringy's `collapseWhitespace` leaves behind: no space at either end
    and never two spaces in a row.
   */
  predicate WellCollapsed(s: AsciiString)
  {
    && (s != [] ==> s[0] != SPACE && s[|s| - 1] != SPACE)
    && forall k :: 0 <= k < |s| - 1 ==> !(s[k] == SPACE && s[k + 1] == SPACE)
  }

  /**
    Without doubled or trailing spaces, only the first piece of `explode(' ', s)`
    can be empty, and it is empty exactly when `s` is empty or starts with a space.
   */
  lemma {:induction false} ExplodeInnerWordsNonEmpty(s: AsciiString)
    requires forall k :: 0 <= k < |s| - 1 ==> !(s[k] == SPACE && s[k + 1] == SPACE)
    requires s != [] ==> s[|s| - 1] != SPACE
    ensures forall k :: 1 <= k < |Explode(s)| ==> Explode(s)[k] != []
    ensures Explode(s)[0] == [] <==> s == [] || s[0] == SPACE
  {
    if s != [] {
      var rest := Explode(s[1..]);
      ExplodeInnerWordsNonEmpty(s[1..]);
      if s[0] == SPACE {
        assert s[1..] != [];
        assert s[1] != SPACE;
        assert Explode(s) == [[]] + rest;
      } else {
        assert Explode(s) == [[s[0]] + rest[0]] + rest[1..];
      }
    }
  }

  /** No piece of `explode(' ', s)` is empty when `s` is non-empty and well collapsed. */
  lemma CollapsedWordsNonEmpty(s: AsciiString)
    requires WellCollapsed(s) && s != []
    ensures forall k :: 0 <= k < |Explode(s)| ==> Explode(s)[k] != []
  {
    ExplodeInnerWordsNonEmpty(s);
  }
}
