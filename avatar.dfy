/**
  The `Avatar` builder: configuration with defaults, `create` (input guard,
  normalisation, initials, background), the fluent setters, and the render
  description `buildAvatar` hands to the image library.
 */
module AvatarBuilder {
  import opened Wrappers
  import opened Text
  import opened Initials
  import opened Selection

  /** The constructor's configuration array; an absent key is `None`. */
  datatype Config = Config(
    chars: Option<nat>,
    colors: Option<seq<Color>>,
    fonts: Option<seq<FontId>>,
    fontSize: Option<int>,
    width: Option<int>,
    height: Option<int>,
    ascii: Option<bool>)

  const DEFAULT_CHARS: nat := 2
  const DEFAULT_COLORS: seq<Color> := ["#999999"]
  const DEFAULT_FONTS: seq<FontId> := ["1"]
  const DEFAULT_FONT_SIZE := 32
  const DEFAULT_WIDTH := 100
  const DEFAULT_HEIGHT := 100
  const INITIAL_BACKGROUND: Color := "#cccccc"
  const INITIAL_FOREGROUND: Color := "#ffffff"

  /**
    The argument of `create`, by PHP kind: a string, number, boolean or null is
    `Scalar` with its string conversion; an object may or may not have `__toString`.
   */
  datatype NameInput = Scalar(text: AsciiString) | ArrayValue | Object(toString: Option<AsciiString>)

  /** The two `InvalidArgumentException`s of `create`. */
  datatype CreateError = ArrayPassed | ObjectWithoutToString

  /** The guard of `create` followed by the string conversion `Stringy::create` performs. */
  function NameText(input: NameInput): (r: Result<AsciiString, CreateError>)
    ensures r.Failure? <==> input.ArrayValue? || input == Object(None)
    ensures r.Failure? ==> (r.error == ArrayPassed <==> input.ArrayValue?)
  {
    match input
    case ArrayValue => Failure(ArrayPassed)
    case Object(None) => Failure(ObjectWithoutToString)
    case Object(Some(s)) => Success(s)
    case Scalar(s) => Success(s)
  }

  /** The normalised name `create` stores: whitespace collapsed, then folded to ASCII when configured. */
  function Normalize(raw: AsciiString, ascii: bool,
                     collapseWhitespace: AsciiString -> AsciiString,
                     toAscii: AsciiString -> AsciiString): AsciiString
  {
    var collapsed := collapseWhitespace(raw);
    if ascii then toAscii(collapsed) else collapsed
  }

  /** What `buildAvatar` gives the image library: canvas, fill, text and font settings. */
  datatype RenderSpec = RenderSpec(
    width: int,
    height: int,
    background: Color,
    text: AsciiString,
    font: FontChoice,
    fontSize: int,
    foreground: Color,
    align: string,
    valign: string)

  /** `buildAvatar` before any `create`: `getInitials` calls a method on the null name. */
  datatype BuildError = NameNotCreated

  class Avatar {
    var name: Option<AsciiString>
    const chars: nat
    const colors: seq<Color>
    const fonts: seq<FontId>
    var fontSize: int
    var width: int
    var height: int
    var background: Color
    var foreground: Color
    var initials: AsciiString
    const ascii: bool

    /** Stringy's `collapseWhitespace`, `toAscii`, and the font-file existence check. */
    const collapseWhitespace: AsciiString -> AsciiString
    const toAscii: AsciiString -> AsciiString
    const fontFileExists: FontId -> bool

    /** Both lists can be indexed modulo their size, and the stored initials are those of the stored name. */
    ghost predicate Valid()
      reads this
    {
      && |colors| > 0
      && |fonts| > 0
      && initials == (if name.Some? then InitialsOf(name.value, chars) else [])
    }

    /** Every configuration key that is absent takes its default. */
    constructor (config: Config,
                 collapseWhitespace: AsciiString -> AsciiString,
                 toAscii: AsciiString -> AsciiString,
                 fontFileExists: FontId -> bool)
      requires config.colors != Some([]) && config.fonts != Some([])
      ensures Valid()
      ensures chars == config.chars.GetOr(DEFAULT_CHARS)
      ensures colors == config.colors.GetOr(DEFAULT_COLORS)
      ensures fonts == config.fonts.GetOr(DEFAULT_FONTS)
      ensures fontSize == config.fontSize.GetOr(DEFAULT_FONT_SIZE)
      ensures width == config.width.GetOr(DEFAULT_WIDTH)
      ensures height == config.height.GetOr(DEFAULT_HEIGHT)
      ensures ascii == config.ascii.GetOr(false)
      ensures name == None && initials == []
      ensures background == INITIAL_BACKGROUND && foreground == INITIAL_FOREGROUND
      ensures this.collapseWhitespace == collapseWhitespace && this.toAscii == toAscii
      ensures this.fontFileExists == fontFileExists
    {
      chars := config.chars.GetOr(DEFAULT_CHARS);
      colors := config.colors.GetOr(DEFAULT_COLORS);
      fonts := config.fonts.GetOr(DEFAULT_FONTS);
      fontSize := config.fontSize.GetOr(DEFAULT_FONT_SIZE);
      width := config.width.GetOr(DEFAULT_WIDTH);
      height := config.height.GetOr(DEFAULT_HEIGHT);
      ascii := config.ascii.GetOr(false);
      name := None;
      initials := [];
      background := INITIAL_BACKGROUND;
      foreground := INITIAL_FOREGROUND;
      this.collapseWhitespace := collapseWhitespace;
      this.toAscii := toAscii;
      this.fontFileExists := fontFileExists;
    }

    /**
      Rejects an array, or an object without `__toString`, before any field changes;
      otherwise stores the normalised name, its initials, and the background picked
      from them (the current background when the initials are empty).
     */
    method Create(input: NameInput) returns (r: Result<Avatar, CreateError>)
      requires Valid()
      modifies this`name, this`initials, this`background
      ensures Valid()
      ensures NameText(input).Failure? ==>
        r == Failure(NameText(input).error) && unchanged(this)
      ensures NameText(input).Success? ==>
        && r == Success(this)
        && name == Some(Normalize(NameText(input).value, ascii, collapseWhitespace, toAscii))
        && initials == InitialsOf(name.value, chars)
        && background == BackgroundFor(initials, colors, old(background))
    {
      var text := NameText(input);
      if text.Failure? {
        return Failure(text.error);
      }
      var normalized := collapseWhitespace(text.value);
      if ascii {
        normalized := toAscii(normalized);
      }
      name := Some(normalized);
      initials := GetInitials();
      var color := GetRandomBackground();
      var self := SetBackground(color);
      return Success(this);
    }

    /** `getInitials` of the stored name: splits it, and pushes each word's first character. */
    method GetInitials() returns (result: AsciiString)
      requires name.Some?
      ensures result == InitialsOf(name.value, chars)
    {
      var current := name.value;
      var words := Explode(current);
      if |words| == 1 {
        if |current| >= chars {
          return current[..chars];
        }
        return current;
      }
      var pushed: seq<AsciiString> := [];
      var i := 0;
      while i < |words|
        invariant 0 <= i <= |words|
        invariant |pushed| == i
        invariant forall k :: 0 <= k < i ==> pushed[k] == Take(words[k], 1)
      {
        pushed := pushed + [Take(words[i], 1)];
        i := i + 1;
      }
      assert pushed == FirstChars(words);
      result := Implode(Take(pushed, chars), []);
    }

    /** `getRandomBackground`: sums the byte codes of the stored initials in a loop. */
    method GetRandomBackground() returns (color: Color)
      requires |colors| > 0
      ensures color == BackgroundFor(initials, colors, background)
    {
      if |initials| == 0 {
        return background;
      }
      var number := Ord(initials[0]);
      assert initials[..1][..0] == [];
      var i := 1;
      var charLength := |initials|;
      while i < charLength
        invariant 1 <= i <= charLength
        invariant number == CodeSum(initials[..i])
      {
        assert initials[..i + 1][..i] == initials[..i];
        number := number + Ord(initials[i]);
        i := i + 1;
      }
      assert initials[..charLength] == initials;
      color := colors[number % |colors|];
    }

    /** `getFont`: recomputes the initials and picks the font from their first character. */
    method GetFont() returns (font: FontChoice)
      requires Valid() && name.Some?
      ensures font == FontFor(initials, fonts, fontFileExists)
    {
      var current := GetInitials();
      if Truthy(current) {
        var number := Ord(current[0]);
        var candidate := fonts[number % |fonts|];
        if fontFileExists(candidate) {
          return FontFile(candidate);
        }
      }
      return BuiltinFont(FALLBACK_FONT);
    }

    /**
      `buildAvatar`: the canvas size, the fill, the stored initials as the text, the font
      picked at build time, the size and colour, centred both ways; an error before `create`.
     */
    method BuildAvatar() returns (r: Result<RenderSpec, BuildError>)
      requires Valid()
      ensures name.None? ==> r == Failure(NameNotCreated)
      ensures name.Some? ==> r == Success(RenderSpec(width, height, background, initials,
        FontFor(initials, fonts, fontFileExists), fontSize, foreground, "center", "middle"))
    {
      if name.None? {
        return Failure(NameNotCreated);
      }
      var text := GetInitials();
      var font := GetFont();
      return Success(RenderSpec(width, height, background, text, font, fontSize, foreground, "center", "middle"));
    }

    method SetBackground(hex: Color) returns (self: Avatar)
      requires Valid()
      modifies this`background
      ensures Valid() && self == this
      ensures background == hex
    {
      background := hex;
      return this;
    }

    method SetForeground(hex: Color) returns (self: Avatar)
      requires Valid()
      modifies this`foreground
      ensures Valid() && self == this
      ensures foreground == hex
    {
      foreground := hex;
      return this;
    }

    /** A missing or zero height (PHP-falsy) makes the avatar square. */
    method SetDimension(newWidth: int, newHeight: Option<int>) returns (self: Avatar)
      requires Valid()
      modifies this`width, this`height
      ensures Valid() && self == this
      ensures width == newWidth
      ensures height == if newHeight.None? || newHeight == Some(0) then newWidth else newHeight.value
    {
      var h := newHeight.GetOr(0);
      if h == 0 {
        h := newWidth;
      }
      width := newWidth;
      height := h;
      return this;
    }

    method SetFontSize(size: int) returns (self: Avatar)
      requires Valid()
      modifies this`fontSize
      ensures Valid() && self == this
      ensures fontSize == size
    {
      fontSize := size;
      return this;
    }
  }

  /**
    For a well-collapsed non-empty name, the background comes from the palette, and a
    font file, when chosen, is the one at the byte code of the name's first character.
   */
  lemma {:induction false} CollapsedNameSelections(name: AsciiString, chars: nat, colors: seq<Color>, current: Color,
                                fonts: seq<FontId>, fontFileExists: FontId -> bool)
    requires WellCollapsed(name) && name != [] && chars >= 1
    requires |colors| > 0 && |fonts| > 0
    ensures BackgroundFor(InitialsOf(name, chars), colors, current) in colors
    ensures var font, key := FontFor(InitialsOf(name, chars), fonts, fontFileExists), fonts[Ord(name[0]) % |fonts|];
      && (font.FontFile? ==> font.id == key)
      && (Truthy(InitialsOf(name, chars)) && fontFileExists(key) ==> font == FontFile(key))
  {
    CollapsedNameInitials(name, chars);
  }

  /**
    `create`, then `setBackground`, then `buildAvatar`: the later colour wins, and the
    text is the initials of the stored name.
   */
  method CreateThenSetBackground(avatar: Avatar, input: NameInput, hex: Color)
    returns (spec: Result<RenderSpec, BuildError>)
    requires avatar.Valid()
    modifies avatar
    ensures NameText(input).Success? ==>
      && avatar.name.Some?
      && spec.Success?
      && spec.value.background == hex
      && spec.value.text == InitialsOf(avatar.name.value, avatar.chars)
  {
    var created := avatar.Create(input);
    var self := avatar.SetBackground(hex);
    spec := avatar.BuildAvatar();
  }

  /**
    An empty name, when normalisation keeps it empty, is not an error: empty initials,
    the background left as it was, and the built-in font.
   */
  method CreateEmptyName(avatar: Avatar) returns (spec: Result<RenderSpec, BuildError>)
    requires avatar.Valid()
    requires Normalize([], avatar.ascii, avatar.collapseWhitespace, avatar.toAscii) == []
    modifies avatar
    ensures avatar.initials == [] && avatar.background == old(avatar.background)
    ensures spec == Success(RenderSpec(avatar.width, avatar.height, old(avatar.background), [],
      BuiltinFont(FALLBACK_FONT), avatar.fontSize, avatar.foreground, "center", "middle"))
  {
    var created := avatar.Create(Scalar([]));
    assert InitialsOf([], avatar.chars) == [];
    spec := avatar.BuildAvatar();
  }
}
