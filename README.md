# Avatar initials, colour and font — a Dafny model

This project models the engine of the PHP class `Laravolt\Avatar\Avatar`: a
fluent builder that turns a display name into a placeholder avatar. From the
name it derives

- the **initials**: several words give the first character of each of the
  first `chars` words; a single word is meant to give its first `chars`
  characters (or the whole word when shorter), as the comment at
  src/Avatar.php:106 says, but as written the branch reads an undefined
  variable (see "## Findings");
- the **background colour**: the palette entry at the sum of the initials' byte
  codes modulo the palette size, or the current background for empty initials;
- the **font**: the font entry at the first initial's byte code modulo the list
  size, when the initials are PHP-truthy and the font file exists, and the
  renderer's built-in font `5` otherwise.

Around these sit the constructor defaults, the input guard and normalisation of
`create`, the setters, and the render description `buildAvatar` hands to the
image library.

Files and modules:

- `wrappers.dfy`, `Wrappers`: `Option` (PHP null, absent configuration keys) and `Result` (exceptions as values).
- `text.dfy`, `Text`: ASCII strings, `explode`/`implode`, `ord`, PHP string truthiness, and what a collapsed name looks like.
- `initials.dfy`, `Initials`: `getInitials` as a pure function, its properties, and the code as written.
- `selection.dfy`, `Selection`: the byte-code sum, the background pick and the font pick.
- `avatar.dfy`, `AvatarBuilder`: the `Avatar` class with its fields, constructor, `create`, the
  loops of `getInitials` and `getRandomBackground`, `getFont` and `buildAvatar`, proved equal to the pure
  definitions above; the constructor, `create` and the setters are specified by the new state
  they leave.

Strings are sequences of ASCII characters. With UTF-8 text, ASCII is the range where one
character (what Stringy's `length` and `substr` count) is one byte (what `strlen` and `ord`
count), so the model's byte sums and character slices agree with the PHP code.

The external collaborators are parameters of the `Avatar` constructor, kept as function-valued
constants of the object: Stringy's `collapseWhitespace` and `toAscii`, and the font-file check
`is_file(base_path('resources/laravolt/avatar/fonts/' . $font))`. `FontFile(id)` in a render
description stands for the file with that name in the avatar font directory.

Points of the code worth noting:

- Nothing checks for an empty palette or font list (src/Avatar.php:28-37), while both are indexed modulo their size (src/Avatar.php:138, src/Avatar.php:147); the constructor requires both to be non-empty.
- Empty initials keep the *current* background (src/Avatar.php:126-127): `'#cccccc'` (src/Avatar.php:19) until something else is set.
- The font falls back to `5` for the initials `"0"` as well as `""`, because `if ($initials)` tests PHP truthiness (src/Avatar.php:145).
- `setDimension` makes the avatar square when the height is missing *or zero*, because `if (!$height)` tests PHP truthiness (src/Avatar.php:86).
- The background and font picks count bytes (`strlen`, `ord`, src/Avatar.php:126-146), while the initials count characters (Stringy `substr`, src/Avatar.php:118); the model restricts strings to ASCII, where the two agree.
- `getFont` and `buildAvatar` recompute the initials from the stored name (src/Avatar.php:143, src/Avatar.php:164); the model proves the result equals the initials `create` stored (src/Avatar.php:57).

## Model

| member | source | states |
|---|---|---|
| `Text.Ord` | src/Avatar.php:130 | the byte code of an ASCII character is below 128 |
| `Text.Explode` | src/Avatar.php:104 | `explode(' ', name)` gives at least one piece, and no piece contains a space |
| `Text.ExplodeCount` | src/Avatar.php:104-107 | there is exactly one piece more than there are spaces, so a name is a single word exactly when it has no space |
| `Text.ImplodeExplode` | src/Avatar.php:104 | joining the pieces with single spaces gives the name back |
| `Text.ExplodeImplode` | src/Avatar.php:104 | splitting space-joined words that contain no space gives the words back |
| `Text.ExplodeInnerWordsNonEmpty` | src/Avatar.php:104 | without doubled or trailing spaces only the first piece can be empty, exactly when the name is empty or starts with a space |
| `Text.CollapsedWordsNonEmpty` | src/Avatar.php:51 | a non-empty name with no leading, trailing or doubled spaces splits into non-empty words |
| `Text.Take` | src/Avatar.php:118-121 | Collection `slice(0, n)` and Stringy `substr(0, n)`: the first `n` elements, or all when fewer; always a prefix |
| `Text.Truthy` | src/Avatar.php:145 | PHP truthiness of a string: true exactly for strings of two or more characters and for one character other than `0` |
| `Text.Implode` | src/Avatar.php:121 | `implode`: the first part is a prefix of the result, and no space appears unless a part or the glue has one |
| `Initials.FirstChars` | src/Avatar.php:117-119 | the `each` loop's pushes: one part per word, each at most one character and a prefix of its word, the word's first character when the word is non-empty |
| `Selection.CodeSum` | src/Avatar.php:130-136 | the sum of the byte codes the loop accumulates, starting from the first character's code (`$number = ord($this->initials[0])`): a one-character text sums to that character's code |
| `Selection.CodeSumBound` | src/Avatar.php:130-136 | each character adds at most 127 to the sum, so the sum of `chars` initials stays far below PHP's 64-bit integer limit and the unbounded integers of the model lose nothing against `$number += ord(...)` |
| `Initials.MultiWordInitials` | src/Avatar.php:115-121 | the glued first characters of the first `chars` words have at most `chars` characters, at most one per word, and no space |
| `Initials.InitialsOf` | src/Avatar.php:102-122 | initials never exceed `chars` characters and never contain a space; a single word gives its first `chars` characters, or itself when shorter |
| `Initials.ConcatShortParts` | src/Avatar.php:121 | gluing parts of at most one character yields at most one character per part, and no space if no part has one |
| `Initials.ConcatSingletons` | src/Avatar.php:121 | gluing one-character parts yields exactly those characters in order |
| `Initials.MultiWordInitialsSpec` | src/Avatar.php:116-121 | for several non-empty words the initials have `min(chars, wordCount)` characters and the k-th is the first character of the k-th word |
| `Initials.CollapsedNameInitials` | src/Avatar.php:104-121 | for a collapsed name and `chars >= 1` the initials are empty exactly when the name is, and otherwise start with the name's first character |
| `Initials.InitialsAsWritten` | src/Avatar.php:106-113 | the code as written: a fatal call on null for a long single word, `""` for a short one, and the intended initials for several words |
| `Initials.AsWrittenLosesSingleWords` | src/Avatar.php:107-113 | as written, no single-word name gets its intended initials (the only exception is the empty name with `chars >= 1`, whose intended initials are empty too); it fails exactly when the word has at least `chars` characters |
| `Initials.AsWrittenMadonna` | src/Avatar.php:108-109 | "Madonna" with `chars = 2` is a fatal error as written and gives "Ma" as intended |
| `Initials.InitialsJohnDoe` | src/Avatar.php:116-121 | "John Doe" with `chars = 2` gives "JD" |
| `Initials.InitialsSingleWords` | src/Avatar.php:106-113 | "Madonna" gives "Ma", "Cher" gives "Ch", and the empty name gives "" |
| `Selection.CodeSumAppend` | src/Avatar.php:130-136 | the byte-code sum of a concatenation is the sum of the two sums |
| `Selection.CodeSumPermutation` | src/Avatar.php:130-136 | the byte-code sum does not depend on the order of the characters |
| `Selection.BackgroundFor` | src/Avatar.php:124-139 | empty initials keep the current background; non-empty initials always pick an element of the palette |
| `Selection.BackgroundIgnoresOrder` | src/Avatar.php:130-138 | rearranged initials ("JD", "DJ") pick the same background |
| `Selection.BackgroundJohnDoe` | src/Avatar.php:130-138 | "JD" sums to 142 and picks the first entry of a two-colour palette |
| `Selection.FontFor` | src/Avatar.php:141-155 | non-truthy initials ("" or "0") give the built-in font 5; truthy ones give a font file exactly when the file at the first byte code modulo the list size exists, and a chosen file is always a configured, existing one |
| `Selection.FontKeyedByFirstChar` | src/Avatar.php:145-147 | truthy initials with the same first character get the same font |
| `Selection.ColorSumsFontTakesFirst` | src/Avatar.php:130-147 | "AB" and "BA" share a background but, with two existing font files, get different fonts |
| `AvatarBuilder.NameText` | src/Avatar.php:41-49 | the guard fails exactly for an array or an object without `__toString`, with the array error for arrays |
| `AvatarBuilder.Avatar.constructor` | src/Avatar.php:28-37 | each absent key takes its default: chars 2, colors `['#999999']`, fonts `[1]`, fontSize 32, width 100, height 100, ascii false; background `'#cccccc'`, foreground `'#ffffff'`, empty initials, no name |
| `AvatarBuilder.Avatar.Create` | src/Avatar.php:39-61 | a rejected input changes nothing; otherwise the stored name is the input with its whitespace collapsed, then folded to ASCII only in ascii mode (`Normalize`, src/Avatar.php:51-55), the initials are those of the name, the background is picked from them, the object itself is returned, and no other field changes |
| `AvatarBuilder.Avatar.GetInitials` | src/Avatar.php:102-122 | the loop that pushes each word's first character, then slices and glues, yields `InitialsOf` of the stored name |
| `AvatarBuilder.Avatar.GetRandomBackground` | src/Avatar.php:124-139 | the summing loop yields `BackgroundFor` of the stored initials and the current background |
| `AvatarBuilder.Avatar.GetFont` | src/Avatar.php:141-155 | the font recomputed from the name is `FontFor` of the stored initials |
| `AvatarBuilder.Avatar.BuildAvatar` | src/Avatar.php:157-174 | before `create` an error; after it the render description carries the current size, colours and font size, the stored initials as the text, the font picked at build time, centred both ways |
| `AvatarBuilder.Avatar.SetBackground` | src/Avatar.php:70-75 | sets only the background and returns the same object |
| `AvatarBuilder.Avatar.SetForeground` | src/Avatar.php:77-82 | sets only the foreground and returns the same object |
| `AvatarBuilder.Avatar.SetDimension` | src/Avatar.php:84-93 | sets only width and height; a missing or zero height becomes the width |
| `AvatarBuilder.Avatar.SetFontSize` | src/Avatar.php:95-100 | sets only the font size and returns the same object |
| `AvatarBuilder.CollapsedNameSelections` | src/Avatar.php:124-155 | for a collapsed non-empty name the background is a palette entry and a chosen font file is the one keyed by the name's first character |
| `AvatarBuilder.CreateThenSetBackground` | src/Avatar.php:57-75 | a `setBackground` after `create` wins in the render description, whose text is the initials of the stored name |
| `AvatarBuilder.CreateEmptyName` | src/Avatar.php:124-155 | an empty name is no error: empty initials, the background left as it was, and the built-in font |

## Findings

| source | as written | input that shows it | evidently intended | confidence | as-written member | corrected member |
|---|---|---|---|---|---|---|
| src/Avatar.php:109 | the single-word branch reads the undefined `$string`: `substr` is called on null when the word has at least `chars` characters, and `(string) null` is returned otherwise, assuming the undefined-variable notice at line 112 stays a notice (an error handler that promotes notices, as Laravel's does, throws there instead) | name "Madonna", `chars = 2`: fatal error; name "J", `chars = 2`: initials "" | the comment at line 106: the first `chars` characters of the name, or the whole name when shorter ("Ma", "J") | high; not executed | `Initials.InitialsAsWritten` (`Initials.AsWrittenMadonna`, `Initials.AsWrittenLosesSingleWords`) | `Initials.InitialsOf` |

The rest of the model uses the corrected `Initials.InitialsOf`; its single-word branch returns a
plain string, like the other branches.

## Left out

- Image rendering and encoding (`toBase64`, `Image::canvas`, `fill`, `text`, `encode('data-url')`, the `image` field): they belong to the Intervention Image library; only the render description is modelled.
- The centre coordinates `width / 2` and `height / 2`: PHP may make floats of them and only the renderer uses them.
- Font file lookup: `base_path` and `is_file` are filesystem calls; they are the `fontFileExists` parameter, and a font file is named by its configuration entry rather than its full path.
- Stringy's `collapseWhitespace` and `toAscii`: foreign library calls, kept as parameters with no behaviour; what they do, and the idempotence of normalisation, are not modelled. Lemmas that need collapsed text take `WellCollapsed` as a hypothesis.
- Names outside ASCII: with UTF-8 such characters are several bytes, so the code's byte sums and Stringy's character counts diverge; the model does not represent them.
- Negative `chars`, non-list `colors` or `fonts` arrays, and configuration keys explicitly set to null: `chars` is a natural number, the lists are sequences, and an absent key is `None`.
- PHP-falsy heights other than null and 0 (`false`, `""`, `"0"`): the height argument of `setDimension` is an optional integer.
- Colours and font entries are strings; the code accepts any PHP value, and the default font entry `1` is the string `"1"`, which names the same file after concatenation.
- Laravel's `Arr::get` and `Collection` are modelled by `Option.GetOr` and sequences, not as library code.
- Initials.InitialsOf: the corrected single-word branch returns a plain string, as the other branches do; reading line 109 literally as `$this->name->substr(0, $this->chars)` would return a Stringy object, which is always truthy at line 145. The model therefore gives font 5 for the name "0" with `chars = 1`, where the literal reading looks up the font file at `ord('0')`, and gives font 5 for a single word with `chars = 0`, where the literal reading throws `OutOfBoundsException` at `$initials[0]`.
- Ascii mode is modelled on ASCII input only: `toAscii` takes and returns ASCII strings, so the non-ASCII names it exists to transliterate are not represented.
