/**
  `getInitials`: the short label drawn on the avatar, taken from the normalised name.
 */
module Initials {
  import opened Wrappers
  import opened Text

  /** Stringy `substr(0, 1)` of every word, in word order: what the `each` loop pushes. */
  function FirstChars(words: seq<AsciiString>): (firsts: seq<AsciiString>)
    ensures |firsts| == |words|
    ensures forall k :: 0 <= k < |words| ==>
      && |firsts[k]| <= 1
      && firsts[k] <= words[k]
      && (words[k] != [] ==> firsts[k] == [words[k][0]])
  {
    seq(|words|, k requires 0 <= k < |words| => Take(words[k], 1))
  }

  /** The multi-word branch: the first characters of the first `chars` words, glued with nothing. */
  function MultiWordInitials(words: seq<AsciiString>, chars: nat): (initials: AsciiString)
    requires forall k :: 0 <= k < |words| ==> SPACE !in words[k]
    ensures |initials| <= chars && |initials| <= |words|
    ensures SPACE !in initials
  {
    var firsts := Take(FirstChars(words), chars);
    ConcatShortParts(firsts);
    Implode(firsts, [])
  }

  /**
    `getInitials` with the single-word branch reading the name itself: a single word
    gives its first `chars` characters, or the whole word when it is shorter.
   */
  function InitialsOf(name: AsciiString, chars: nat): (initials: AsciiString)
    ensures |initials| <= chars
    ensures SPACE !in initials
    ensures SPACE !in name ==> initials == Take(name, chars)
  {
    ExplodeCount(name);
    var words := Explode(name);
    if |words| == 1 then
      if |name| >= chars then name[..chars] else name
    else
      MultiWordInitials(words, chars)
  }

  /** Gluing parts of at most one character each gives at most one character per part. */
  lemma {:induction false} ConcatShortParts(parts: seq<AsciiString>)
    requires forall k :: 0 <= k < |parts| ==> |parts[k]| <= 1
    ensures |Implode(parts, [])| <= |parts|
    ensures (forall k :: 0 <= k < |parts| ==> SPACE !in parts[k]) ==> SPACE !in Implode(parts, [])
  {
    if |parts| > 1 {
      ConcatShortParts(parts[1..]);
    }
  }

  /** Gluing one-character parts gives the string of those characters, in order. */
  lemma {:induction false} ConcatSingletons(parts: seq<AsciiString>)
    requires forall k :: 0 <= k < |parts| ==> |parts[k]| == 1
    ensures |Implode(parts, [])| == |parts|
    ensures forall k :: 0 <= k < |parts| ==> Implode(parts, [])[k] == parts[k][0]
  {
    if |parts| > 1 {
      ConcatSingletons(parts[1..]);
      assert Implode(parts, []) == parts[0] + Implode(parts[1..], []);
    }
  }

  /**
    A name of several words, none empty, gives one initial per word for the first
    `chars` words: the first character of each, in word order.
   */
  lemma MultiWordInitialsSpec(name: AsciiString, chars: nat)
    requires SPACE in name
    requires forall k :: 0 <= k < |Explode(name)| ==> Explode(name)[k] != []
    ensures var words, initials := Explode(name), InitialsOf(name, chars);
      && |initials| == (if chars < |words| then chars else |words|)
      && forall k :: 0 <= k < |initials| ==> initials[k] == words[k][0]
  {
    var words := Explode(name);
    var firsts := Take(FirstChars(words), chars);
    assert forall k :: 0 <= k < |firsts| ==> firsts[k] == Take(words[k], 1);
    ConcatSingletons(firsts);
  }

  /**
    A well-collapsed, non-empty name gives non-empty initials that start with the
    name's first character; only an empty name gives empty initials.
   */
  lemma {:induction false} CollapsedNameInitials(name: AsciiString, chars: nat)
    requires WellCollapsed(name) && chars >= 1
    ensures InitialsOf(name, chars) == [] <==> name == []
    ensures name != [] ==> InitialsOf(name, chars)[0] == name[0]
  {
    if name != [] && SPACE in name {
      CollapsedWordsNonEmpty(name);
      MultiWordInitialsSpec(name, chars);
      var rest := Explode(name[1..]);
      assert Explode(name) == [[name[0]] + rest[0]] + rest[1..];
    }
  }

  /** What the unset variable `$string` makes of a single-word name. */
  datatype Fatal = MemberCallOnNull

  /**
    `getInitials` as written: the single-word branch reads the undefined `$string`,
    so a word of at least `chars` characters calls `substr` on null, and a shorter
    word comes back as `(string) null`, the empty string.
   */
  function InitialsAsWritten(name: AsciiString, chars: nat): (r: Result<AsciiString, Fatal>)
    ensures SPACE in name ==> r == Success(InitialsOf(name, chars))
  {
    ExplodeCount(name);
    var words := Explode(name);
    if |words| == 1 then
      if |name| >= chars then Failure(MemberCallOnNull) else Success([])
    else
      Success(MultiWordInitials(words, chars))
  }

  /**
    As written, no single-word name gets its intended initials, except the empty
    name with `chars >= 1`, whose intended initials are empty anyway.
   */
  lemma AsWrittenLosesSingleWords(name: AsciiString, chars: nat)
    requires SPACE !in name && (name != [] || chars == 0)
    ensures InitialsAsWritten(name, chars) != Success(InitialsOf(name, chars))
    ensures |name| >= chars <==> InitialsAsWritten(name, chars).Failure?
  {
    ExplodeCount(name);
  }

  /** "Madonna" with two characters: a fatal error as written, "Ma" as intended. */
  lemma AsWrittenMadonna()
    ensures InitialsAsWritten("Madonna", 2) == Failure(MemberCallOnNull)
    ensures InitialsOf("Madonna", 2) == "Ma"
  {
    var name: AsciiString := "Madonna";
    assert SPACE !in name;
    assert |Explode(name)| == 1;
  }

  /** "John Doe" with two characters gives "JD". */
  lemma InitialsJohnDoe()
    ensures InitialsOf("John Doe", 2) == "JD"
  {
    var john: AsciiString, doe: AsciiString := "John", "Doe";
    ExplodeImplode([john, doe]);
    assert Implode([john, doe], [SPACE]) == "John Doe";
  }

  /** Single words with two characters: "Madonna" gives "Ma", "Cher" gives "Ch", "" gives "". */
  lemma InitialsSingleWords()
    ensures InitialsOf("Madonna", 2) == "Ma"
    ensures InitialsOf("Cher", 2) == "Ch"
    ensures InitialsOf("", 2) == ""
  {
    var madonna: AsciiString, cher: AsciiString := "Madonna", "Cher";
    assert SPACE !in madonna && SPACE !in cher;
  }
}
