/** The panel configuration reader of src/dld_common.c: a JSON recognizer (RFC 8259, sections 2 and 4 to 7,
    restricted to one schema). The reader's methods are proved against scanning functions on the unread
    rest of the text; those are proved sound and complete against syntax trees and their printer. */
module ConfigParser {
  import opened Abi
  import opened Wrappers

  type Text = seq<byte>

  datatype Scan<+T> = Fail | Scanned(value: T, rest: Text)

  const QUOTE: byte := 0x22
  const BACKSLASH: byte := 0x5c
  const OPEN_BRACE: byte := 0x7b
  const CLOSE_BRACE: byte := 0x7d
  const OPEN_BRACKET: byte := 0x5b
  const CLOSE_BRACKET: byte := 0x5d
  const COLON: byte := 0x3a
  const COMMA: byte := 0x2c
  const MINUS: byte := 0x2d
  const NAME_BYTES := 32

  function Ascii(s: string): Text {
    seq(|s|, i requires 0 <= i < |s| => s[i] as int % 0x80)
  }

  const PIXEL_TYPE: Text := Ascii("pixel_type")
  const STRING_LENGTHS: Text := Ascii("string_lengths")

  function ProfileOf(name: Text): u32 {
    if name == Ascii("ws2812b") then WS2812B
    else if name == Ascii("ws2811-hs") then WS2811_HS
    else if name == Ascii("ws2812b-bgr") then WS2812B_BGR
    else if name == Ascii("ws2811-hs-bgr") then WS2811_HS_BGR
    else 0
  }

  // ---------------------------------------------------------------- scanning functions

  predicate IsSpace(c: byte) { c == 0x20 || c == 0x09 || c == 0x0d || c == 0x0a }
  predicate IsDigit(c: byte) { 0x30 <= c <= 0x39 }

  function HexDigit(c: byte): int {
    if IsDigit(c) then c - 0x30
    else if 0x61 <= c <= 0x66 then c - 0x61 + 10
    else if 0x41 <= c <= 0x46 then c - 0x41 + 10
    else -1
  }

  function SkipSpace(s: Text): (t: Text)
    ensures |t| <= |s|
  {
    if s != [] && IsSpace(s[0]) then SkipSpace(s[1..]) else s
  }

  function Token(s: Text, wanted: byte): (r: Scan<()>)
    ensures r.Scanned? ==> |r.rest| < |s|
  {
    var t := SkipSpace(s);
    if t == [] || t[0] != wanted then Fail else Scanned((), t[1..])
  }

  /** The k hexadecimal digits of a Unicode escape, appended to `value`. */
  function HexDigits(s: Text, k: nat, value: nat): (r: Scan<nat>)
    ensures r.Scanned? ==> |r.rest| + k == |s|
    decreases k
  {
    if k == 0 then Scanned(value, s)
    else if s == [] || HexDigit(s[0]) < 0 then Fail
    else HexDigits(s[1..], k - 1, 16 * value + HexDigit(s[0]))
  }

  /** What a short escape stands for; 0 if it is none. */
  function ShortEscape(c: byte): byte {
    if c == QUOTE || c == BACKSLASH || c == 0x2f then c
    else if c == 0x62 then 0x08 else if c == 0x66 then 0x0c else if c == 0x6e then 0x0a
    else if c == 0x72 then 0x0d else if c == 0x74 then 0x09
    else 0
  }

  /** One character of a string, escaped or not. */
  function Character(s: Text): (r: Scan<nat>)
    requires s != []
    ensures r.Scanned? ==> |r.rest| < |s|
  {
    if s[0] < 0x20 then Fail
    else if s[0] != BACKSLASH then Scanned(s[0], s[1..])
    else if |s| == 1 then Fail
    else if s[1] == 0x75 then HexDigits(s[2..], 4, 0)
    else if ShortEscape(s[1]) != 0 then Scanned(ShortEscape(s[1]), s[2..])
    else Fail
  }

  /** The rest of a name of which `length` characters have been stored. */
  function NameBody(s: Text, length: nat): (r: Scan<Text>)
    requires length < NAME_BYTES
    ensures r.Scanned? ==> |r.rest| < |s| && length + |r.value| < NAME_BYTES
    decreases |s|
  {
    if s == [] then Fail
    else if s[0] == QUOTE then Scanned([], s[1..])
    else
      var c := Character(s);
      if c.Fail? || c.value == 0 || c.value >= 0x80 || length + 1 >= NAME_BYTES then Fail
      else
        var tail := NameBody(c.rest, length + 1);
        if tail.Fail? then Fail else Scanned([c.value] + tail.value, tail.rest)
  }

  function Name(s: Text): (r: Scan<Text>)
    ensures r.Scanned? ==> |r.rest| < |s| && |r.value| < NAME_BYTES
  {
    var t := Token(s, QUOTE);
    if t.Fail? then Fail else NameBody(t.rest, 0)
  }

  /** The digits of a number whose value so far is `value`, as long as it stays in range. */
  function Digits(s: Text, value: nat): (r: Scan<nat>)
    requires value <= MAX_LENGTH
    ensures r.Scanned? ==> |r.rest| <= |s| && r.value <= MAX_LENGTH
  {
    if s == [] || !IsDigit(s[0]) then Scanned(value, s)
    else
      var next := 10 * value + s[0] - 0x30;
      if next > MAX_LENGTH then Fail else Digits(s[1..], next)
  }

  /** A number must not run into a fraction or an exponent. */
  predicate EndsInteger(s: Text) {
    s == [] || (s[0] != 0x2e && s[0] != 0x65 && s[0] != 0x45)
  }

  function Length(s: Text): (r: Scan<u32>)
    ensures r.Scanned? ==> |r.rest| < |s| && r.value <= MAX_LENGTH
  {
    var t := SkipSpace(s);
    var negative := t != [] && t[0] == MINUS;
    var u := if negative then t[1..] else t;
    if u == [] || !IsDigit(u[0]) then Fail
    else if u[0] == 0x30 then
      if |u| > 1 && IsDigit(u[1]) then Fail
      else if EndsInteger(u[1..]) then Scanned(0, u[1..]) else Fail
    else
      var d := Digits(u[1..], u[0] - 0x30);
      if d.Fail? || negative || !EndsInteger(d.rest) then Fail else Scanned(d.value, d.rest)
  }

  /** n more lengths, separated by commas; the first is preceded by one unless it is the very first. */
  function LengthItems(s: Text, n: nat): (r: Scan<seq<u32>>)
    requires n <= 6
    ensures r.Scanned? ==> |r.rest| <= |s| && |r.value| == n && forall i :: 0 <= i < n ==> r.value[i] <= MAX_LENGTH
    decreases n
  {
    if n == 0 then Scanned([], s)
    else
      var c := if n < 6 then Token(s, COMMA) else Scanned((), s);
      if c.Fail? then Fail
      else
        var v := Length(c.rest);
        if v.Fail? then Fail
        else
          var tail := LengthItems(v.rest, n - 1);
          if tail.Fail? then Fail else Scanned([v.value] + tail.value, tail.rest)
  }

  function LengthArray(s: Text): (r: Scan<Lengths>)
    ensures r.Scanned? ==> |r.rest| < |s| && ValidLengths(r.value)
  {
    var t := Token(s, OPEN_BRACKET);
    if t.Fail? then Fail
    else
      var items := LengthItems(t.rest, 6);
      if items.Fail? then Fail
      else
        var e := Token(items.rest, CLOSE_BRACKET);
        if e.Fail? then Fail else Scanned(items.value, e.rest)
  }

  /** The members seen so far; an absent profile is zero. */
  datatype Partial = Partial(typed: bool, sized: bool, config: Config)

  /** One member: its name, the colon and its value. */
  function Member(s: Text, p: Partial): (r: Scan<Partial>)
    ensures r.Scanned? ==> |r.rest| < |s|
  {
    var name := Name(s);
    if name.Fail? then Fail
    else
      var colon := Token(name.rest, COLON);
      if colon.Fail? then Fail
      else if name.value == PIXEL_TYPE then
        var profile := Name(colon.rest);
        if p.typed || profile.Fail? || ProfileOf(profile.value) == 0 then Fail
        else Scanned(p.(typed := true, config := p.config.(profile := ProfileOf(profile.value))), profile.rest)
      else if name.value == STRING_LENGTHS then
        var lengths := LengthArray(colon.rest);
        if p.sized || lengths.Fail? then Fail
        else Scanned(p.(sized := true, config := p.config.(lengths := lengths.value)), lengths.rest)
      else Fail
  }

  predicate Closes(s: Text) { s != [] && s[0] == CLOSE_BRACE }

  /** The members up to and including the closing brace. */
  function Members(s: Text, p: Partial): (r: Scan<Partial>)
    decreases |s|
  {
    var t := SkipSpace(s);
    if Closes(t) then Scanned(p, t[1..])
    else
      var m := Member(t, p);
      if m.Fail? then Fail
      else
        var u := SkipSpace(m.rest);
        if Closes(u) then Scanned(m.value, u[1..])
        else
          var c := Token(u, COMMA);
          if c.Fail? || SkipSpace(c.rest) == [] || Closes(SkipSpace(c.rest)) then Fail
          else Members(SkipSpace(c.rest), m.value)
  }

  const NOTHING := Partial(false, false, Config(0, [0, 0, 0, 0, 0, 0]))

  /** dld_parse_config. */
  function Parse(s: Text): Scan<Config> {
    var t := Token(s, OPEN_BRACE);
    if t.Fail? then Fail
    else
      var m := Members(t.rest, NOTHING);
      if m.Fail? || SkipSpace(m.rest) != [] || !m.value.typed || !m.value.sized then Fail
      else Scanned(m.value.config, [])
  }

  // ---------------------------------------------------------------- syntax trees and their printer

  /** One character of a JSON string as it can be spelled. */
  datatype Glyph = Raw(c: byte) | Short(e: byte) | Unicode(digits: Text)

  predicate ValidGlyph(g: Glyph) {
    match g
    case Raw(c) => 0x20 <= c < 0x80 && c != QUOTE && c != BACKSLASH
    case Short(e) => ShortEscape(e) != 0
    case Unicode(d) => |d| == 4 && (forall i :: 0 <= i < 4 ==> HexDigit(d[i]) >= 0) && 0 < HexValue(d) < 0x80
  }

  function HexValue(d: Text): int {
    if d == [] then 0 else 16 * HexValue(d[..|d| - 1]) + HexDigit(d[|d| - 1])
  }

  function GlyphValue(g: Glyph): (v: byte)
    requires ValidGlyph(g)
    ensures 0 < v < 0x80
  {
    match g
    case Raw(c) => c
    case Short(e) => ShortEscape(e)
    case Unicode(d) => HexValue(d)
  }

  function PrintGlyph(g: Glyph): Text {
    match g
    case Raw(c) => [c]
    case Short(e) => [BACKSLASH, e]
    case Unicode(d) => [BACKSLASH, 0x75] + d
  }

  predicate ValidGlyphs(gs: seq<Glyph>) {
    forall i :: 0 <= i < |gs| ==> ValidGlyph(gs[i])
  }

  /** The characters and the closing quote. This and the printers below put their text in front of s. */
  function PrintGlyphs(gs: seq<Glyph>, s: Text): Text {
    if gs == [] then [QUOTE] + s else PrintGlyph(gs[0]) + PrintGlyphs(gs[1..], s)
  }

  function Spelled(gs: seq<Glyph>): (v: Text)
    requires ValidGlyphs(gs)
    ensures |v| == |gs|
  {
    if gs == [] then [] else [GlyphValue(gs[0])] + Spelled(gs[1..])
  }

  predicate Spaces(s: Text) {
    forall i :: 0 <= i < |s| ==> IsSpace(s[i])
  }

  /** A string, with the white space before it. */
  datatype Quoted = Quoted(before: Text, glyphs: seq<Glyph>)

  predicate ValidQuoted(q: Quoted) { Spaces(q.before) && ValidGlyphs(q.glyphs) }
  function PrintQuoted(q: Quoted, s: Text): Text { q.before + ([QUOTE] + PrintGlyphs(q.glyphs, s)) }

  /** A number: an optional minus sign and decimal digits. */
  datatype Number = Number(negative: bool, digits: Text)

  function DecimalValue(d: Text): int {
    if d == [] then 0 else 10 * DecimalValue(d[..|d| - 1]) + d[|d| - 1] - 0x30
  }

  /** An integer of the schema: no superfluous zero, at most 300, and negative only as -0. */
  predicate ValidNumber(n: Number) {
    && n.digits != [] && (forall i :: 0 <= i < |n.digits| ==> IsDigit(n.digits[i]))
    && (|n.digits| > 1 ==> n.digits[0] != 0x30)
    && DecimalValue(n.digits) <= MAX_LENGTH
    && (n.negative ==> DecimalValue(n.digits) == 0)
  }

  function PrintNumber(n: Number, s: Text): Text { if n.negative then [MINUS] + (n.digits + s) else n.digits + s }

  /** An array item with the white space around it. */
  datatype Item = Item(before: Text, number: Number, after: Text)

  predicate ValidItem(i: Item) { Spaces(i.before) && ValidNumber(i.number) && Spaces(i.after) }
  predicate ValidItems(items: seq<Item>) {
    forall i :: 0 <= i < |items| ==> ValidItem(items[i])
  }

  /** Items separated by commas, and the closing bracket. */
  function PrintItems(items: seq<Item>, s: Text): Text
    requires items != []
  {
    items[0].before + PrintNumber(items[0].number, items[0].after +
      if |items| == 1 then [CLOSE_BRACKET] + s else [COMMA] + PrintItems(items[1..], s))
  }

  function ItemValues(items: seq<Item>): (v: seq<u32>)
    requires ValidItems(items)
    ensures |v| == |items| && forall i :: 0 <= i < |v| ==> v[i] <= MAX_LENGTH
  {
    if items == [] then []
    else
      DecimalNonnegative(items[0].number.digits);
      [DecimalValue(items[0].number.digits)] + ItemValues(items[1..])
  }

  lemma DecimalNonnegative(d: Text)
    requires forall i :: 0 <= i < |d| ==> IsDigit(d[i])
    ensures DecimalValue(d) >= 0
  {
  }

  datatype Pair =
    | TypePair(key: Quoted, colon: Text, profile: Quoted, after: Text)
    | LengthsPair(key: Quoted, colon: Text, bracket: Text, items: seq<Item>, after: Text)

  predicate ValidPair(p: Pair) {
    && ValidQuoted(p.key) && Spaces(p.colon) && Spaces(p.after)
    && match p
       case TypePair(key, _, profile, _) =>
         Spelled(key.glyphs) == PIXEL_TYPE && ValidQuoted(profile) && ProfileOf(Spelled(profile.glyphs)) != 0
       case LengthsPair(key, _, bracket, items, _) =>
         Spelled(key.glyphs) == STRING_LENGTHS && Spaces(bracket) && |items| == 6 && ValidItems(items)
  }

  function PrintPair(p: Pair, s: Text): Text
    requires ValidPair(p)
  {
    PrintQuoted(p.key, p.colon + ([COLON] +
      match p
      case TypePair(_, _, profile, after) => PrintQuoted(profile, after + s)
      case LengthsPair(_, _, bracket, items, after) => bracket + ([OPEN_BRACKET] + PrintItems(items, after + s))))
  }

  /** A configuration: an object with exactly the two members, in either order. */
  datatype Document = Document(before: Text, first: Pair, second: Pair, after: Text)

  predicate ValidDocument(d: Document) {
    && Spaces(d.before) && Spaces(d.after) && ValidPair(d.first) && ValidPair(d.second)
    && d.first.TypePair? != d.second.TypePair?
  }

  function PrintDocument(d: Document): Text
    requires ValidDocument(d)
  {
    d.before + ([OPEN_BRACE] + PrintPair(d.first, [COMMA] + PrintPair(d.second, [CLOSE_BRACE] + d.after)))
  }

  function Meaning(d: Document): Config
    requires ValidDocument(d)
  {
    var t, l := if d.first.TypePair? then d.first else d.second, if d.first.TypePair? then d.second else d.first;
    Config(ProfileOf(Spelled(t.profile.glyphs)), ItemValues(l.items))
  }

  // ---------------------------------------------------------------- every printed document is accepted

  predicate NoSpaceFirst(s: Text) { s == [] || !IsSpace(s[0]) }

  lemma {:induction false} SkipsSpaces(w: Text, s: Text)
    requires Spaces(w) && NoSpaceFirst(s)
    ensures SkipSpace(w + s) == s
  {
    if w == [] {
      assert w + s == s;
    } else {
      assert (w + s)[1..] == w[1..] + s;
      SkipsSpaces(w[1..], s);
    }
  }

  lemma TokenPrinted(w: Text, c: byte, s: Text)
    requires Spaces(w) && !IsSpace(c)
    ensures Token(w + ([c] + s), c) == Scanned((), s)
  {
    SkipsSpaces(w, [c] + s);
  }

  lemma {:induction false} HexPrinted(p: Text, d: Text, s: Text)
    requires HexValue(p) >= 0 && forall i :: 0 <= i < |d| ==> HexDigit(d[i]) >= 0
    ensures HexDigits(d + s, |d|, HexValue(p)) == Scanned(HexValue(p + d), s)
    decreases |d|
  {
    if d == [] {
      assert d + s == s && p + d == p;
    } else {
      var q := p + [d[0]];
      assert q[..|q| - 1] == p;
      assert HexValue(q) == 16 * HexValue(p) + HexDigit(d[0]);
      assert (d + s)[1..] == d[1..] + s;
      assert q + d[1..] == p + d;
      HexPrinted(q, d[1..], s);
    }
  }

  lemma GlyphPrinted(g: Glyph, s: Text)
    requires ValidGlyph(g)
    ensures Character(PrintGlyph(g) + s) == Scanned(GlyphValue(g), s)
    ensures PrintGlyph(g)[0] != QUOTE
  {
    var t := PrintGlyph(g) + s;
    match g
    case Raw(c) => assert t[1..] == s;
    case Short(e) => assert t[2..] == s;
    case Unicode(d) =>
      assert t[2..] == d + s;
      assert [] + d == d;
      HexPrinted([], d, s);
  }

  lemma {:induction false} NameBodyPrinted(gs: seq<Glyph>, s: Text, length: nat)
    requires ValidGlyphs(gs) && length + |gs| < NAME_BYTES
    ensures NameBody(PrintGlyphs(gs, s), length) == Scanned(Spelled(gs), s)
    decreases |gs|
  {
    if gs != [] {
      GlyphPrinted(gs[0], PrintGlyphs(gs[1..], s));
      NameBodyPrinted(gs[1..], s, length + 1);
    }
  }

  lemma NamePrinted(q: Quoted, s: Text)
    requires ValidQuoted(q) && |q.glyphs| < NAME_BYTES
    ensures Name(PrintQuoted(q, s)) == Scanned(Spelled(q.glyphs), s)
  {
    TokenPrinted(q.before, QUOTE, PrintGlyphs(q.glyphs, s));
    NameBodyPrinted(q.glyphs, s, 0);
  }

  predicate NumberEnds(s: Text) {
    s == [] || (!IsDigit(s[0]) && EndsInteger(s))
  }

  lemma DecimalNext(p: Text, c: byte)
    ensures DecimalValue(p + [c]) == 10 * DecimalValue(p) + c - 0x30
  {
    assert (p + [c])[..|p|] == p;
  }

  lemma HexNext(p: Text, c: byte)
    ensures HexValue(p + [c]) == 16 * HexValue(p) + HexDigit(c)
  {
    assert (p + [c])[..|p|] == p;
  }

  lemma {:induction false} DecimalGrows(p: Text, d: Text)
    requires DecimalValue(p) >= 0 && forall i :: 0 <= i < |d| ==> IsDigit(d[i])
    ensures DecimalValue(p + d) >= DecimalValue(p)
    decreases |d|
  {
    if d == [] {
      assert p + d == p;
    } else {
      assert (p + d)[..|p + d| - 1] == p + d[..|d| - 1];
      DecimalGrows(p, d[..|d| - 1]);
    }
  }

  lemma {:induction false} DigitsPrinted(p: Text, d: Text, s: Text)
    requires 0 <= DecimalValue(p) <= MAX_LENGTH && DecimalValue(p + d) <= MAX_LENGTH
    requires (forall i :: 0 <= i < |d| ==> IsDigit(d[i])) && NumberEnds(s)
    ensures Digits(d + s, DecimalValue(p)) == Scanned(DecimalValue(p + d), s)
    decreases |d|
  {
    hide DecimalValue;
    if d == [] {
      assert d + s == s && p + d == p;
    } else {
      var q := p + [d[0]];
      DecimalNext(p, d[0]);
      assert q + d[1..] == p + d;
      DecimalGrows(q, d[1..]);
      assert (d + s)[1..] == d[1..] + s;
      DigitsPrinted(q, d[1..], s);
      DigitsStep(d + s, DecimalValue(p));
    }
  }

  lemma DigitsStep(s: Text, value: nat)
    requires s != [] && IsDigit(s[0]) && value <= MAX_LENGTH && 10 * value + s[0] - 0x30 <= MAX_LENGTH
    ensures Digits(s, value) == Digits(s[1..], 10 * value + s[0] - 0x30)
  {
  }

  lemma DecimalFirst(c: byte)
    ensures DecimalValue([c]) == c - 0x30
  {
    assert [c][..0] == [];
  }

  /** A number by its first digit, after white space and sign. */
  lemma LengthUnfold(s: Text, u: Text, negative: bool)
    requires negative == (SkipSpace(s) != [] && SkipSpace(s)[0] == MINUS)
    requires u == if negative then SkipSpace(s)[1..] else SkipSpace(s)
    requires u != [] && IsDigit(u[0])
    ensures u[0] == 0x30 ==>
              Length(s) == if (|u| > 1 && IsDigit(u[1])) || !EndsInteger(u[1..]) then Fail else Scanned(0, u[1..])
    ensures u[0] != 0x30 ==>
              var d := Digits(u[1..], u[0] - 0x30);
              Length(s) == if d.Fail? || negative || !EndsInteger(d.rest) then Fail else Scanned(d.value, d.rest)
  {
    hide SkipSpace, Digits, EndsInteger;
  }

  lemma SignPrinted(n: Number, s: Text)
    requires ValidNumber(n)
    ensures var t, u := PrintNumber(n, s), n.digits + s;
            && t != [] && !IsSpace(t[0]) && n.negative == (t[0] == MINUS) && u == if n.negative then t[1..] else t
  {
    hide DecimalValue;
  }

  lemma LengthPrinted(w: Text, n: Number, s: Text)
    requires Spaces(w) && ValidNumber(n) && NumberEnds(s)
    ensures Length(w + PrintNumber(n, s)) == Scanned(DecimalValue(n.digits), s)
  {
    assert n.negative ==> DecimalValue(n.digits) == 0;
    hide SkipSpace, Digits, DecimalValue, EndsInteger, Length, PrintNumber, Spaces, IsSpace, IsDigit, ValidNumber, NumberEnds;
    SignPrinted(n, s);
    SpaceThenNumber(w, PrintNumber(n, s));
    UnsignedPrinted(n, s);
    LengthUnfold(w + PrintNumber(n, s), n.digits + s, n.negative);
  }

  lemma SpaceThenNumber(w: Text, t: Text)
    requires Spaces(w) && t != [] && !IsSpace(t[0])
    ensures SkipSpace(w + t) == t
  {
    SkipsSpaces(w, t);
  }

  /** The number after its white space and sign. */
  lemma UnsignedPrinted(n: Number, s: Text)
    requires ValidNumber(n) && NumberEnds(s)
    ensures var d, u := n.digits, n.digits + s;
            && IsDigit(u[0]) && EndsInteger(s)
            && (u[0] == 0x30 ==> u[1..] == s && DecimalValue(d) == 0 && (|u| > 1 ==> !IsDigit(u[1])))
            && (u[0] != 0x30 ==> Digits(u[1..], u[0] - 0x30) == Scanned(DecimalValue(d), s) && DecimalValue(d) > 0)
  {
    var d := n.digits;
    var u := d + s;
    DecimalFirst(d[0]);
    assert d == [d[0]] + d[1..];
    assert u[1..] == d[1..] + s;
    if d[0] == 0x30 {
      assert d == [d[0]];
      assert u[1..] == s;
    } else {
      DecimalGrows([d[0]], d[1..]);
      DigitsPrinted([d[0]], d[1..], s);
    }
  }

  /** What follows an array item after its white space: the rest of the array. */
  function ItemsTail(items: seq<Item>, s: Text): Text {
    if items == [] then [CLOSE_BRACKET] + s else [COMMA] + PrintItems(items, s)
  }

  lemma TailEndsNumber(w: Text, items: seq<Item>, s: Text)
    requires Spaces(w)
    ensures NumberEnds(w + ItemsTail(items, s))
  {
    var t := w + ItemsTail(items, s);
    assert t[0] == if w != [] then w[0] else ItemsTail(items, s)[0];
  }

  lemma NextItem(s: Text, n: nat, t: Text)
    requires 0 < n < 6 && Token(s, COMMA) == Scanned((), t) && Length(t).Scanned?
    requires LengthItems(Length(t).rest, n - 1).Scanned?
    ensures var tail := LengthItems(Length(t).rest, n - 1);
            LengthItems(s, n) == Scanned([Length(t).value] + tail.value, tail.rest)
  {
    hide Token, Length;
  }

  lemma {:induction false} ItemsPrinted(items: seq<Item>, w: Text, s: Text)
    requires ValidItems(items) && |items| < 6 && Spaces(w)
    ensures ItemsRead(items, w + ItemsTail(items, s), s)
    decreases |items|
  {
    hide Token, Length, DecimalValue, PrintItems, LengthItems, Spaces, ValidItem, NumberEnds, SkipSpace, ItemsTail;
    TailToken(items, w, s);
    if items == [] {
      NoItems(w + ItemsTail(items, s), s);
    } else {
      assert ValidItem(items[0]) && Spaces(items[0].after) by { AfterItem(items); }
      FirstItemPrinted(items, s);
      ItemsPrinted(items[1..], items[0].after, s);
      NextItem(w + ItemsTail(items, s), |items|, PrintItems(items, s));
    }
  }

  /** The items and the bracket after them are read off `text`, leaving s. */
  predicate ItemsRead(items: seq<Item>, text: Text, s: Text)
    requires ValidItems(items) && |items| < 6
  {
    var r := LengthItems(text, |items|);
    r.Scanned? && r.value == ItemValues(items) && Token(r.rest, CLOSE_BRACKET) == Scanned((), s)
  }

  lemma NoItems(text: Text, s: Text)
    requires Token(text, CLOSE_BRACKET) == Scanned((), s)
    ensures ItemsRead([], text, s)
  {
  }

  lemma AfterItem(items: seq<Item>)
    requires ValidItems(items) && items != []
    ensures ValidItem(items[0]) && Spaces(items[0].after) && ValidItems(items[1..])
  {
  }

  lemma TailToken(items: seq<Item>, w: Text, s: Text)
    requires Spaces(w)
    ensures Token(w + ItemsTail(items, s), if items == [] then CLOSE_BRACKET else COMMA)
            == Scanned((), if items == [] then s else PrintItems(items, s))
  {
    TokenPrinted(w, if items == [] then CLOSE_BRACKET else COMMA, if items == [] then s else PrintItems(items, s));
  }

  lemma FirstItemPrinted(items: seq<Item>, s: Text)
    requires ValidItems(items) && items != []
    ensures Length(PrintItems(items, s)) == Scanned(DecimalValue(items[0].number.digits), items[0].after + ItemsTail(items[1..], s))
  {
    var i := items[0];
    TailEndsNumber(i.after, items[1..], s);
    LengthPrinted(i.before, i.number, i.after + ItemsTail(items[1..], s));
    hide Length, PrintNumber, DecimalValue;
  }

  lemma LengthArrayPrinted(bracket: Text, items: seq<Item>, s: Text)
    requires Spaces(bracket) && |items| == 6 && ValidItems(items)
    ensures LengthArray(bracket + ([OPEN_BRACKET] + PrintItems(items, s))) == Scanned(ItemValues(items), s)
  {
    hide *;
    AfterItem(items);
    OpenBracketPrinted(bracket, PrintItems(items, s));
    FirstItemPrinted(items, s);
    ItemsPrinted(items[1..], items[0].after, s);
    ArrayUnfold(bracket + ([OPEN_BRACKET] + PrintItems(items, s)), items, s);
  }

  lemma OpenBracketPrinted(w: Text, s: Text)
    requires Spaces(w)
    ensures Token(w + ([OPEN_BRACKET] + s), OPEN_BRACKET) == Scanned((), s)
  {
    TokenPrinted(w, OPEN_BRACKET, s);
  }

  lemma ArrayUnfold(text: Text, items: seq<Item>, s: Text)
    requires |items| == 6 && ValidItems(items) && Token(text, OPEN_BRACKET) == Scanned((), PrintItems(items, s))
    requires Length(PrintItems(items, s)) == Scanned(DecimalValue(items[0].number.digits), items[0].after + ItemsTail(items[1..], s))
    requires ItemsRead(items[1..], items[0].after + ItemsTail(items[1..], s), s)
    ensures LengthArray(text) == Scanned(ItemValues(items), s)
  {
    hide Token, Length, PrintItems, DecimalValue, ItemsTail, ValidItem;
  }

  /** The state of the reader after a pair. */
  function AfterPair(p: Pair, a: Partial): Partial
    requires ValidPair(p)
  {
    match p
    case TypePair(_, _, profile, _) =>
      a.(typed := true, config := a.config.(profile := ProfileOf(Spelled(profile.glyphs))))
    case LengthsPair(_, _, _, items, _) => a.(sized := true, config := a.config.(lengths := ItemValues(items)))
  }

  lemma NamesFit()
    ensures |PIXEL_TYPE| == 10 && |STRING_LENGTHS| == 14 && PIXEL_TYPE != STRING_LENGTHS
    ensures forall name: Text :: ProfileOf(name) != 0 ==> |name| < NAME_BYTES
  {
  }

  lemma PairPrinted(p: Pair, s: Text, a: Partial)
    requires ValidPair(p) && (if p.TypePair? then !a.typed else !a.sized)
    ensures Member(PrintPair(p, s), a) == Scanned(AfterPair(p, a), p.after + s)
  {
    NamesFit();
    var value := match p
      case TypePair(_, _, profile, after) => PrintQuoted(profile, after + s)
      case LengthsPair(_, _, bracket, items, after) => bracket + ([OPEN_BRACKET] + PrintItems(items, after + s));
    NamePrinted(p.key, p.colon + ([COLON] + value));
    TokenPrinted(p.colon, COLON, value);
    if p.TypePair? {
      NamePrinted(p.profile, p.after + s);
    } else {
      LengthArrayPrinted(p.bracket, p.items, p.after + s);
    }
    hide PrintQuoted, PrintItems, Name, Token, LengthArray, ItemValues, Spelled, ProfileOf;
  }

  /** A pair without the white space before its key. */
  function Trimmed(p: Pair): Pair {
    p.(key := p.key.(before := []))
  }

  lemma TrimmedQuote(q: Quoted, s: Text)
    requires Spaces(q.before)
    ensures var t := PrintQuoted(q.(before := []), s); t != [] && t[0] == QUOTE && SkipSpace(PrintQuoted(q, s)) == t
  {
    var t := [QUOTE] + PrintGlyphs(q.glyphs, s);
    assert [] + t == t;
    SkipsSpaces(q.before, t);
  }

  lemma TrimmedPrints(p: Pair, s: Text)
    requires ValidPair(p)
    ensures ValidPair(Trimmed(p)) && SkipSpace(PrintPair(p, s)) == PrintPair(Trimmed(p), s)
    ensures PrintPair(Trimmed(p), s) != [] && PrintPair(Trimmed(p), s)[0] == QUOTE
    ensures forall a: Partial :: AfterPair(Trimmed(p), a) == AfterPair(p, a)
  {
    var rest := p.colon + ([COLON] +
      match p
      case TypePair(_, _, profile, after) => PrintQuoted(profile, after + s)
      case LengthsPair(_, _, bracket, items, after) => bracket + ([OPEN_BRACKET] + PrintItems(items, after + s)));
    assert PrintPair(p, s) == PrintQuoted(p.key, rest);
    assert PrintPair(Trimmed(p), s) == PrintQuoted(p.key.(before := []), rest);
    TrimmedQuote(p.key, rest);
    hide PrintPair, PrintQuoted;
  }

  lemma MeaningOf(d: Document)
    requires ValidDocument(d)
    ensures AfterPair(d.second, AfterPair(d.first, NOTHING)) == Partial(true, true, Meaning(d))
  {
  }

  /** What is read is a valid configuration. */
  lemma MeaningValid(d: Document)
    requires ValidDocument(d)
    ensures ValidConfig(Meaning(d))
  {
  }

  /** Completeness: the reader accepts every printing of every configuration and returns its meaning. So it
      inverts every printer of configurations. */
  lemma ParsePrinted(d: Document)
    requires ValidDocument(d)
    ensures Parse(PrintDocument(d)) == Scanned(Meaning(d), [])
  {
    var members := PrintPair(d.first, [COMMA] + PrintPair(d.second, [CLOSE_BRACE] + d.after));
    TokenPrinted(d.before, OPEN_BRACE, members);
    MembersPrinted(d.first, d.second, d.after);
    SkipsSpaces(d.after, []);
    assert d.after + [] == d.after;
    hide PrintPair, AfterPair, Members, Token, SkipSpace, ItemValues, Spelled, ProfileOf, ValidPair;
    MeaningOf(d);
  }

  lemma NextMember(s: Text, p: Partial, v: Text)
    requires !Closes(SkipSpace(s)) && Member(SkipSpace(s), p).Scanned?
    requires var u := SkipSpace(Member(SkipSpace(s), p).rest); !Closes(u) && Token(u, COMMA) == Scanned((), v)
    requires SkipSpace(v) != [] && !Closes(SkipSpace(v))
    ensures Members(s, p) == Members(SkipSpace(v), Member(SkipSpace(s), p).value)
  {
    hide Member, SkipSpace, Token;
  }

  lemma LastMember(s: Text, p: Partial)
    requires !Closes(SkipSpace(s)) && Member(SkipSpace(s), p).Scanned?
    requires Closes(SkipSpace(Member(SkipSpace(s), p).rest))
    ensures var m := Member(SkipSpace(s), p); Members(s, p) == Scanned(m.value, SkipSpace(m.rest)[1..])
  {
    hide Member, SkipSpace, Token;
  }

  lemma CommaPrinted(s: Text)
    ensures Token([COMMA] + s, COMMA) == Scanned((), s) && SkipSpace([COMMA] + s) == [COMMA] + s
  {
    TokenPrinted([], COMMA, s);
    assert [] + ([COMMA] + s) == [COMMA] + s;
  }

  lemma MembersPrinted(first: Pair, second: Pair, s: Text)
    requires ValidPair(first) && ValidPair(second) && first.TypePair? != second.TypePair?
    ensures Members(PrintPair(first, [COMMA] + PrintPair(second, [CLOSE_BRACE] + s)), NOTHING)
            == Scanned(AfterPair(second, AfterPair(first, NOTHING)), s)
  {
    hide *;
    var p, q := Trimmed(first), Trimmed(second);
    var end := [CLOSE_BRACE] + s;
    var tail := PrintPair(second, end);
    var middle := [COMMA] + tail;
    var a := AfterPair(first, NOTHING);
    TrimmedPrints(first, middle);
    TrimmedPrints(second, end);
    ClosesOrNot(s, tail);
    PairEnds(first, middle);
    PairEnds(second, end);
    NothingYet();
    FlagsOf(first, NOTHING);
    PairPrinted(p, middle, NOTHING);
    PairPrinted(q, end, a);
    CommaPrinted(tail);
    QuoteOpens(PrintPair(p, middle));
    QuoteOpens(PrintPair(q, end));
    LastMember(PrintPair(q, end), a);
    NextMember(PrintPair(first, middle), NOTHING, tail);
  }

  lemma FlagsOf(p: Pair, a: Partial)
    requires ValidPair(p)
    ensures AfterPair(p, a).typed == (a.typed || p.TypePair?) && AfterPair(p, a).sized == (a.sized || !p.TypePair?)
  {
  }

  lemma NothingYet()
    ensures !NOTHING.typed && !NOTHING.sized
  {
  }

  /** What follows a pair is found behind its white space. */
  lemma PairEnds(p: Pair, s: Text)
    requires ValidPair(p) && s != [] && !IsSpace(s[0])
    ensures Trimmed(p).TypePair? == p.TypePair? && SkipSpace(Trimmed(p).after + s) == s
  {
    hide Spelled, ProfileOf, ValidItems;
    SkipsSpaces(p.after, s);
  }

  lemma ClosesOrNot(s: Text, t: Text)
    ensures Closes([CLOSE_BRACE] + s) && ([CLOSE_BRACE] + s)[1..] == s && !IsSpace(([CLOSE_BRACE] + s)[0])
    ensures !Closes([COMMA] + t) && !IsSpace(([COMMA] + t)[0])
  {
  }

  lemma QuoteOpens(s: Text)
    requires s != [] && s[0] == QUOTE
    ensures !Closes(s) && SkipSpace(s) == s
  {
  }

  // ---------------------------------------------------------------- everything accepted is a printed document

  lemma SpacesMore(c: byte, w: Text)
    requires IsSpace(c) && Spaces(w)
    ensures Spaces([c] + w)
  {
  }

  lemma {:induction false} SpaceRead(s: Text) returns (w: Text)
    ensures Spaces(w) && s == w + SkipSpace(s) && NoSpaceFirst(SkipSpace(s))
  {
    if s != [] && IsSpace(s[0]) {
      var v := SpaceRead(s[1..]);
      SpacesMore(s[0], v);
      w := [s[0]] + v;
      hide Spaces, NoSpaceFirst, IsSpace;
      assert s == [s[0]] + s[1..];
    } else {
      w := [];
    }
  }

  lemma TokenRead(s: Text, c: byte) returns (w: Text)
    requires Token(s, c).Scanned?
    ensures Spaces(w) && s == w + ([c] + Token(s, c).rest)
  {
    hide SkipSpace, Spaces, NoSpaceFirst;
    w := SpaceRead(s);
    var t := SkipSpace(s);
    assert t == [t[0]] + t[1..];
  }

  lemma {:induction false} HexRead(s: Text, k: nat, p: Text)
    requires HexValue(p) >= 0 && HexDigits(s, k, HexValue(p)).Scanned?
    ensures k <= |s| && (forall i :: 0 <= i < k ==> HexDigit(s[i]) >= 0)
    ensures HexDigits(s, k, HexValue(p)) == Scanned(HexValue(p + s[..k]), s[k..])
    decreases k
  {
    hide HexValue, HexDigit;
    if k == 0 {
      assert p + s[..0] == p;
    } else {
      var q := p + [s[0]];
      HexNext(p, s[0]);
      HexRead(s[1..], k - 1, q);
      assert s[1..][..k - 1] == s[1..k] && s[1..][k - 1..] == s[k..];
      assert q + s[1..k] == p + s[..k];
      forall i | 0 <= i < k ensures HexDigit(s[i]) >= 0 {
        if i > 0 { assert s[i] == s[1..][i - 1]; }
      }
    }
  }

  lemma CharacterRead(s: Text) returns (g: Glyph)
    requires s != [] && s[0] != QUOTE && Character(s).Scanned? && 0 < Character(s).value < 0x80
    ensures ValidGlyph(g) && s == PrintGlyph(g) + Character(s).rest && GlyphValue(g) == Character(s).value
  {
    if s[0] != BACKSLASH {
      g := Raw(s[0]);
      assert s == [s[0]] + s[1..];
    } else if s[1] == 0x75 {
      HexRead(s[2..], 4, []);
      var d := s[2..][..4];
      assert [] + d == d;
      g := Unicode(d);
      assert s == [s[0], s[1]] + s[2..] && s[2..] == d + s[2..][4..];
    } else {
      g := Short(s[1]);
      assert s == [s[0], s[1]] + s[2..];
    }
  }

  lemma {:induction false} NameBodyRead(s: Text, length: nat) returns (gs: seq<Glyph>)
    requires length < NAME_BYTES && NameBody(s, length).Scanned?
    ensures ValidGlyphs(gs) && s == PrintGlyphs(gs, NameBody(s, length).rest) && Spelled(gs) == NameBody(s, length).value
    decreases |s|
  {
    if s[0] == QUOTE {
      gs := [];
      assert s == [s[0]] + s[1..];
    } else {
      var c := Character(s);
      var g := CharacterRead(s);
      var tail := NameBodyRead(c.rest, length + 1);
      gs := [g] + tail;
      assert gs[1..] == tail;
    }
  }

  lemma NameRead(s: Text) returns (q: Quoted)
    requires Name(s).Scanned?
    ensures ValidQuoted(q) && s == PrintQuoted(q, Name(s).rest) && Spelled(q.glyphs) == Name(s).value
  {
    var w := TokenRead(s, QUOTE);
    var gs := NameBodyRead(Token(s, QUOTE).rest, 0);
    q := Quoted(w, gs);
  }

  lemma {:induction false} DigitsRead(s: Text, p: Text) returns (d: Text)
    requires 0 <= DecimalValue(p) <= MAX_LENGTH && Digits(s, DecimalValue(p)).Scanned?
    ensures (forall i :: 0 <= i < |d| ==> IsDigit(d[i])) && s == d + Digits(s, DecimalValue(p)).rest
    ensures Digits(s, DecimalValue(p)).value == DecimalValue(p + d)
    decreases |s|
  {
    hide DecimalValue;
    if s == [] || !IsDigit(s[0]) {
      d := [];
      assert p + d == p;
    } else {
      var q := p + [s[0]];
      DecimalNext(p, s[0]);
      var e := DigitsRead(s[1..], q);
      d := [s[0]] + e;
      assert p + d == q + e;
      assert s == [s[0]] + s[1..];
    }
  }

  lemma NumberStarts(s: Text)
    requires Length(s).Scanned?
    ensures var t := SkipSpace(s);
            var negative := t != [] && t[0] == MINUS;
            var u := if negative then t[1..] else t;
            u != [] && IsDigit(u[0])
  {
    hide SkipSpace, Digits, EndsInteger;
  }

  lemma LengthRead(s: Text) returns (w: Text, n: Number)
    requires Length(s).Scanned?
    ensures Spaces(w) && ValidNumber(n) && s == w + PrintNumber(n, Length(s).rest) && Length(s).value == DecimalValue(n.digits)
  {
    hide SkipSpace, Digits, DecimalValue, EndsInteger, Length, Spaces, NoSpaceFirst, IsDigit;
    w := SpaceRead(s);
    var t := SkipSpace(s);
    var negative := t != [] && t[0] == MINUS;
    var u := if negative then t[1..] else t;
    NumberStarts(s);
    LengthUnfold(s, u, negative);
    assert negative ==> t == [MINUS] + u;
    assert u == [u[0]] + u[1..];
    DecimalFirst(u[0]);
    if u[0] == 0x30 {
      n := Number(negative, [u[0]]);
    } else {
      n := DigitsNumber(u);
    }
  }

  lemma DigitsNumber(u: Text) returns (n: Number)
    requires u != [] && IsDigit(u[0]) && u[0] != 0x30 && Digits(u[1..], u[0] - 0x30).Scanned?
    ensures ValidNumber(n) && !n.negative
    ensures var d := Digits(u[1..], u[0] - 0x30); u == n.digits + d.rest && d.value == DecimalValue(n.digits)
  {
    hide Digits, DecimalValue;
    DecimalFirst(u[0]);
    var d := DigitsRead(u[1..], [u[0]]);
    n := Number(false, [u[0]] + d);
    assert u == [u[0]] + u[1..];
  }

  /** The last n items of an array (n < 6) and its end, as read off s after the white space w. */
  lemma {:induction false} ItemsReadBack(s: Text, n: nat, e: Text) returns (w: Text, items: seq<Item>)
    requires n < 6 && LengthItems(s, n).Scanned? && Token(LengthItems(s, n).rest, CLOSE_BRACKET) == Scanned((), e)
    ensures Spaces(w) && |items| == n && ValidItems(items) && s == w + ItemsTail(items, e)
    ensures ItemValues(items) == LengthItems(s, n).value
    decreases n, 0
  {
    hide Token, Length, DecimalValue, ValidNumber, SkipSpace, PrintNumber;
    if n == 0 {
      w := TokenRead(s, CLOSE_BRACKET);
      items := [];
    } else {
      w := TokenRead(s, COMMA);
      items := ItemReadBack(Token(s, COMMA).rest, n, e);
    }
  }

  lemma ItemReadBack(t: Text, n: nat, e: Text) returns (items: seq<Item>)
    requires 0 < n <= 6 && Length(t).Scanned? && LengthItems(Length(t).rest, n - 1).Scanned?
    requires Token(LengthItems(Length(t).rest, n - 1).rest, CLOSE_BRACKET) == Scanned((), e)
    ensures |items| == n && ValidItems(items) && t == PrintItems(items, e)
    ensures ItemValues(items) == [Length(t).value] + LengthItems(Length(t).rest, n - 1).value
    decreases n - 1, 1
  {
    hide Token, Length, ValidNumber, SkipSpace, PrintNumber, LengthItems;
    var before, number := LengthRead(t);
    var after, tail := ItemsReadBack(Length(t).rest, n - 1, e);
    items := [Item(before, number, after)] + tail;
    assert items[1..] == tail;
    ItemsTailIsTail(items, e);
  }

  lemma ItemsTailIsTail(items: seq<Item>, s: Text)
    requires items != []
    ensures PrintItems(items, s) == items[0].before + PrintNumber(items[0].number, items[0].after + ItemsTail(items[1..], s))
  {
  }

  lemma LengthArrayRead(s: Text) returns (bracket: Text, items: seq<Item>)
    requires LengthArray(s).Scanned?
    ensures Spaces(bracket) && |items| == 6 && ValidItems(items) && ItemValues(items) == LengthArray(s).value
    ensures s == bracket + ([OPEN_BRACKET] + PrintItems(items, LengthArray(s).rest))
  {
    bracket := TokenRead(s, OPEN_BRACKET);
    items := ItemReadBack(Token(s, OPEN_BRACKET).rest, 6, LengthArray(s).rest);
  }

  /** A member, with no white space after it yet. */
  lemma MemberRead(s: Text, a: Partial) returns (p: Pair)
    requires Member(s, a).Scanned?
    ensures ValidPair(p) && p.after == [] && s == PrintPair(p, Member(s, a).rest)
    ensures Member(s, a).value == AfterPair(p, a) && (if p.TypePair? then !a.typed else !a.sized)
  {
    var rest := Member(s, a).rest;
    assert [] + rest == rest;
    var key := NameRead(s);
    var colon := TokenRead(Name(s).rest, COLON);
    var value := Token(Name(s).rest, COLON).rest;
    if Name(s).value == PIXEL_TYPE {
      var profile := NameRead(value);
      p := TypePair(key, colon, profile, []);
    } else {
      var bracket, items := LengthArrayRead(value);
      p := LengthsPair(key, colon, bracket, items, []);
    }
    hide PrintQuoted, PrintItems, Name, Token, LengthArray, ItemValues, Spelled, ProfileOf, ValidQuoted, ValidItems;
  }

  lemma QuotePadded(q: Quoted, before: Text, s: Text)
    requires ValidQuoted(q) && Spaces(before)
    ensures var p := q.(before := before + q.before); ValidQuoted(p) && PrintQuoted(p, s) == before + PrintQuoted(q, s)
  {
    hide PrintGlyphs, ValidGlyphs;
  }

  /** White space around a pair belongs to it. */
  lemma Padded(p: Pair, before: Text, after: Text, s: Text) returns (q: Pair)
    requires ValidPair(p) && p.after == [] && Spaces(before) && Spaces(after)
    ensures ValidPair(q) && PrintPair(q, s) == before + PrintPair(p, after + s)
    ensures q.TypePair? == p.TypePair? && forall a: Partial :: AfterPair(q, a) == AfterPair(p, a)
  {
    hide PrintQuoted, ValidQuoted, Spaces, PrintItems, ItemValues, Spelled, ProfileOf, ValidItems;
    q := p.(key := p.key.(before := before + p.key.before), after := after);
    assert [] + (after + s) == after + s;
    QuotePadded(p.key, before, p.colon + ([COLON] +
      match p
      case TypePair(_, _, profile, _) => PrintQuoted(profile, after + s)
      case LengthsPair(_, _, bracket, items, _) => bracket + ([OPEN_BRACKET] + PrintItems(items, after + s))));
  }

  /** Soundness: everything the reader accepts is some printing of a configuration with that meaning; two
      printings of the same text mean the same, since the reader is a function. */
  lemma ParseRead(s: Text) returns (d: Document)
    requires Parse(s).Scanned?
    ensures ValidDocument(d) && PrintDocument(d) == s && Meaning(d) == Parse(s).value
  {
    hide PrintPair, ValidPair, AfterPair, Members, Token, SkipSpace;
    var before := TokenRead(s, OPEN_BRACE);
    var all := Token(s, OPEN_BRACE).rest;
    var tail := Members(all, NOTHING).rest;
    var first, second := MembersRead(all);
    var after := SpaceRead(tail);
    assert after + [] == after;
    d := Document(before, first, second, after);
    MeaningOf(d);
  }

  lemma NoSpaceBefore(u: Text, w: Text, t: Text)
    requires NoSpaceFirst(u) && Spaces(w) && t != [] && u == w + t
    ensures w == [] && u == t
  {
  }

  lemma SkipTwice(s: Text)
    ensures SkipSpace(SkipSpace(s)) == SkipSpace(s)
  {
    var w := SpaceRead(s);
    SkipsSpaces([], SkipSpace(s));
    assert [] + SkipSpace(s) == SkipSpace(s);
  }

  /** With both members seen, no further one is accepted. */
  lemma NoThird(s: Text, a: Partial)
    requires a.typed && a.sized && !Closes(SkipSpace(s))
    ensures Members(s, a).Fail?
  {
    hide SkipSpace, Name, Token, LengthArray;
    assert Member(SkipSpace(s), a).Fail?;
  }

  lemma MembersRead(s: Text) returns (first: Pair, second: Pair)
    requires Members(s, NOTHING).Scanned? && Members(s, NOTHING).value.typed && Members(s, NOTHING).value.sized
    ensures ValidPair(first) && ValidPair(second) && first.TypePair? != second.TypePair?
    ensures s == PrintPair(first, [COMMA] + PrintPair(second, [CLOSE_BRACE] + Members(s, NOTHING).rest))
    ensures Members(s, NOTHING).value == AfterPair(second, AfterPair(first, NOTHING))
  {
    hide Member, SkipSpace, Token, PrintPair, ValidPair, AfterPair, Spaces, NoSpaceFirst;
    var t := SkipSpace(s);
    var w := SpaceRead(s);
    var m := Member(t, NOTHING);
    var p := MemberRead(t, NOTHING);
    FlagsOf(p, NOTHING);
    var u := SkipSpace(m.rest);
    var v := SpaceRead(m.rest);
    var c := TokenRead(u, COMMA);
    var x := Token(u, COMMA).rest;
    NoSpaceBefore(u, c, [COMMA] + x);
    first := Padded(p, w, v, u);
    second := LastRead(x, m.value);
    FlagsOf(second, m.value);
  }

  lemma LastRead(x: Text, a: Partial) returns (q: Pair)
    requires a.typed != a.sized && !Closes(SkipSpace(x)) && Members(SkipSpace(x), a).Scanned?
    requires Members(SkipSpace(x), a).value.typed && Members(SkipSpace(x), a).value.sized
    ensures ValidPair(q) && q.TypePair? == !a.typed
    ensures x == PrintPair(q, [CLOSE_BRACE] + Members(SkipSpace(x), a).rest)
    ensures Members(SkipSpace(x), a).value == AfterPair(q, a)
  {
    hide Member, SkipSpace, Token, PrintPair, ValidPair, AfterPair, Spaces, NoSpaceFirst;
    var y := SkipSpace(x);
    SkipTwice(x);
    var w := SpaceRead(x);
    var m := Member(y, a);
    var p := MemberRead(y, a);
    FlagsOf(p, a);
    var u := SkipSpace(m.rest);
    var v := SpaceRead(m.rest);
    if !Closes(u) {
      var z := SkipSpace(Token(u, COMMA).rest);
      SkipTwice(Token(u, COMMA).rest);
      NoThird(z, m.value);
    }
    assert u == [CLOSE_BRACE] + u[1..];
    q := Padded(p, w, v, u);
  }

  /** Exactly the printings of configurations are accepted, each with its meaning. */
  lemma ParseExactly(s: Text, c: Config)
    ensures Parse(s) == Scanned(c, []) <==> exists d :: ValidDocument(d) && PrintDocument(d) == s && Meaning(d) == c
  {
    hide PrintDocument, Meaning, ValidDocument;
    if Parse(s) == Scanned(c, []) {
      var d := ParseRead(s);
    }
    if d :| ValidDocument(d) && PrintDocument(d) == s && Meaning(d) == c {
      ParsePrinted(d);
    }
  }

  // ---------------------------------------------------------------- the reader

  lemma HexStep(s: Text, k: nat, value: nat)
    requires k > 0
    ensures if s == [] || HexDigit(s[0]) < 0 then HexDigits(s, k, value).Fail?
            else HexDigits(s, k, value) == HexDigits(s[1..], k - 1, 16 * value + HexDigit(s[0]))
  {
  }

  lemma HexEnd(s: Text, value: nat)
    ensures HexDigits(s, 0, value) == Scanned(value, s)
  {
  }

  function Prefixed<T>(v: seq<T>, r: Scan<seq<T>>): Scan<seq<T>> {
    if r.Fail? then Fail else Scanned(v + r.value, r.rest)
  }

  lemma PrefixedByNothing<T>(r: Scan<seq<T>>)
    ensures Prefixed([], r) == r
  {
    if r.Scanned? { assert [] + r.value == r.value; }
  }

  lemma NameBodyStep(stored: Text, s: Text)
    requires |stored| < NAME_BYTES && s != [] && s[0] != QUOTE
    ensures var c := Character(s);
            Prefixed(stored, NameBody(s, |stored|)) ==
              if c.Fail? || c.value == 0 || c.value >= 0x80 || |stored| + 1 >= NAME_BYTES then Fail
              else Prefixed(stored + [c.value], NameBody(c.rest, |stored| + 1))
  {
    var c := Character(s);
    if !(c.Fail? || c.value == 0 || c.value >= 0x80 || |stored| + 1 >= NAME_BYTES) {
      var tail := NameBody(c.rest, |stored| + 1);
      if tail.Scanned? { assert stored + ([c.value] + tail.value) == stored + [c.value] + tail.value; }
    }
    hide Character;
  }

  lemma NameBodyEnd(stored: Text, s: Text)
    requires |stored| < NAME_BYTES && s != [] && s[0] == QUOTE
    ensures Prefixed(stored, NameBody(s, |stored|)) == Scanned(stored, s[1..])
  {
    assert stored + [] == stored;
  }

  lemma NameBodyEmpty(length: nat)
    requires length < NAME_BYTES
    ensures NameBody([], length).Fail?
  {
  }

  lemma NoMoreItems(lengths: Lengths, s: Text)
    ensures Prefixed(lengths[..6], LengthItems(s, 0)) == Scanned(lengths, s)
  {
    assert lengths[..6] + [] == lengths;
  }

  lemma ItemsStep(read: seq<u32>, s: Text)
    requires |read| < 6
    ensures var c := if read != [] then Token(s, COMMA) else Scanned((), s);
            Prefixed(read, LengthItems(s, 6 - |read|)) ==
              if c.Fail? || Length(c.rest).Fail? then Fail
              else Prefixed(read + [Length(c.rest).value], LengthItems(Length(c.rest).rest, 5 - |read|))
  {
    hide Token, Length;
    var c := if read != [] then Token(s, COMMA) else Scanned((), s);
    if c.Scanned? && Length(c.rest).Scanned? {
      var v := Length(c.rest);
      var tail := LengthItems(v.rest, 5 - |read|);
      if tail.Scanned? { assert read + ([v.value] + tail.value) == read + [v.value] + tail.value; }
    }
  }

  lemma MembersStep(s: Text, p: Partial)
    ensures var t := SkipSpace(s);
            if Closes(t) then Members(s, p) == Scanned(p, t[1..])
            else if Member(t, p).Fail? then Members(s, p).Fail?
            else
              var m := Member(t, p);
              var u := SkipSpace(m.rest);
              if Closes(u) then Members(s, p) == Scanned(m.value, u[1..])
              else if Token(u, COMMA).Fail? then Members(s, p).Fail?
              else
                var v := SkipSpace(Token(u, COMMA).rest);
                if v == [] || Closes(v) then Members(s, p).Fail? else Members(s, p) == Members(v, m.value)
  {
    hide SkipSpace, Member, Token;
  }

  class Reader {
    const text: Text
    var pos: nat

    predicate Valid()
      reads this
    {
      pos <= |text|
    }

    function Rest(): Text
      requires Valid()
      reads this
    {
      text[pos..]
    }

    constructor (t: Text)
      ensures Valid() && text == t && Rest() == t
    {
      text := t;
      pos := 0;
      new;
      assert text[0..] == t;
    }

    /** whitespace. */
    method Whitespace()
      requires Valid()
      modifies this`pos
      ensures Valid() && Rest() == SkipSpace(old(Rest())) && (pos == |text| <==> Rest() == [])
    {
      while pos < |text|
        invariant Valid() && SkipSpace(Rest()) == SkipSpace(old(Rest()))
        decreases |text| - pos
      {
        var c := text[pos];
        if c != 0x20 && c != 0x09 && c != 0x0d && c != 0x0a { break; }
        assert text[pos..][1..] == text[pos + 1..];
        pos := pos + 1;
      }
    }

    /** token. */
    method Take(wanted: byte) returns (ok: bool)
      requires Valid()
      modifies this`pos
      ensures Valid() && ok == Token(old(Rest()), wanted).Scanned?
      ensures ok ==> Rest() == Token(old(Rest()), wanted).rest
    {
      Whitespace();
      if pos == |text| || text[pos] != wanted { return false; }
      assert text[pos..][1..] == text[pos + 1..];
      pos := pos + 1;
      ok := true;
    }

    /** The four digits of a Unicode escape. */
    method FourDigits() returns (ok: bool, value: nat)
      requires Valid()
      modifies this`pos
      ensures Valid() && ok == HexDigits(old(Rest()), 4, 0).Scanned?
      ensures ok ==> Scanned(value, Rest()) == HexDigits(old(Rest()), 4, 0)
    {
      hide HexDigits, HexDigit;
      value := 0;
      for k := 0 to 4
        invariant Valid() && HexDigits(Rest(), 4 - k, value) == HexDigits(old(Rest()), 4, 0)
      {
        HexStep(Rest(), 4 - k, value);
        if pos == |text| { return false, value; }
        var h := HexDigit(text[pos]);
        assert text[pos..][1..] == text[pos + 1..];
        pos := pos + 1;
        if h < 0 { return false, value; }
        value := 16 * value + h;
      }
      HexEnd(Rest(), value);
      ok := true;
    }

    /** One character inside a string, after the check for the closing quote. */
    method NextCharacter() returns (ok: bool, c: nat)
      requires Valid() && Rest() != []
      modifies this`pos
      ensures Valid() && ok == Character(old(Rest())).Scanned?
      ensures ok ==> Scanned(c, Rest()) == Character(old(Rest()))
    {
      c := text[pos];
      pos := pos + 1;
      assert Rest() == old(Rest())[1..];
      if c < 0x20 { return false, c; }
      if c == BACKSLASH {
        if pos == |text| { return false, c; }
        var e := text[pos];
        pos := pos + 1;
        assert Rest() == old(Rest())[2..];
        if e == 0x75 {
          ok, c := FourDigits();
          return;
        }
        c := ShortEscape(e);
        if c == 0 { return false, c; }
      }
      ok := true;
    }

    /** json_name: the buffer is never overrun and ends in a zero byte. */
    method JsonName(out: array<byte>) returns (ok: bool, length: nat)
      requires Valid() && out.Length == NAME_BYTES
      modifies this`pos, out
      ensures Valid() && ok == Name(old(Rest())).Scanned?
      ensures ok ==> length < NAME_BYTES && out[length] == 0
                     && Name(old(Rest())) == Scanned(out[..length], Rest())
    {
      hide NameBody, Character;
      length := 0;
      ok := Take(QUOTE);
      if !ok { return; }
      ghost var body := NameBody(Rest(), 0);
      PrefixedByNothing(body);
      assert out[..0] == [];
      while pos < |text|
        invariant Valid() && length < NAME_BYTES
        invariant body == Prefixed(out[..length], NameBody(Rest(), length))
        decreases |text| - pos
      {
        ghost var had := out[..length];
        if text[pos] == QUOTE {
          NameBodyEnd(had, Rest());
          assert text[pos..][1..] == text[pos + 1..];
          pos := pos + 1;
          out[length] := 0;
          return true, length;
        }
        NameBodyStep(had, Rest());
        var c;
        ok, c := NextCharacter();
        if !ok || c == 0 || c >= 0x80 || length + 1 >= NAME_BYTES { return false, length; }
        out[length] := c;
        length := length + 1;
        assert out[..length] == had + [c];
      }
      ok := false;
      assert Rest() == [];
      NameBodyEmpty(length);
    }

    /** The digits of a number after its first. */
    method MoreDigits(first: u32) returns (ok: bool, value: u32)
      requires Valid() && first <= MAX_LENGTH
      modifies this`pos
      ensures Valid() && ok == Digits(old(Rest()), first).Scanned?
      ensures ok ==> Scanned(value, Rest()) == Digits(old(Rest()), first) && value >= first
    {
      value := first;
      while pos < |text| && IsDigit(text[pos])
        invariant Valid() && first <= value <= MAX_LENGTH
        invariant Digits(Rest(), value) == Digits(old(Rest()), first)
        decreases |text| - pos
      {
        assert text[pos..][1..] == text[pos + 1..];
        var next := value * 10 + (text[pos] - 0x30);
        pos := pos + 1;
        if next > MAX_LENGTH { return false, value; }
        value := next;
      }
      ok := true;
    }

    /** json_length. */
    method JsonLength() returns (ok: bool, value: u32)
      requires Valid()
      modifies this`pos
      ensures Valid() && ok == Length(old(Rest())).Scanned?
      ensures ok ==> Scanned(value, Rest()) == Length(old(Rest()))
    {
      hide SkipSpace, Digits;
      value := 0;
      var negative := false;
      Whitespace();
      ghost var t := Rest();
      if pos < |text| && text[pos] == MINUS {
        negative := true;
        pos := pos + 1;
        assert Rest() == t[1..];
      }
      ghost var u := Rest();
      if pos == |text| || !IsDigit(text[pos]) { return false, value; }
      var first := text[pos] - 0x30;
      pos := pos + 1;
      assert Rest() == u[1..];
      if first == 0 {
        if pos < |text| && IsDigit(text[pos]) { return false, value; }
      } else {
        ok, value := MoreDigits(first);
        if !ok { return; }
      }
      if negative && value != 0 { return false, value; }
      if pos < |text| && (text[pos] == 0x2e || text[pos] == 0x65 || text[pos] == 0x45) { return false, value; }
      ok := true;
    }

    /** The six lengths in brackets. */
    method JsonLengths() returns (ok: bool, lengths: Lengths)
      requires Valid()
      modifies this`pos
      ensures Valid() && ok == LengthArray(old(Rest())).Scanned?
      ensures ok ==> Scanned(lengths, Rest()) == LengthArray(old(Rest()))
    {
      hide Token, Length, LengthItems;
      lengths := [0, 0, 0, 0, 0, 0];
      ok := Take(OPEN_BRACKET);
      if !ok { return; }
      ghost var items := LengthItems(Rest(), 6);
      PrefixedByNothing(items);
      assert lengths[..0] == [];
      for i := 0 to 6
        invariant Valid() && items == Prefixed(lengths[..i], LengthItems(Rest(), 6 - i))
      {
        ghost var had := lengths[..i];
        ItemsStep(had, Rest());
        if i > 0 {
          ok := Take(COMMA);
          if !ok { return; }
        }
        var value;
        ok, value := JsonLength();
        if !ok { return; }
        lengths := lengths[i := value];
        assert lengths[..i + 1] == had + [value];
      }
      NoMoreItems(lengths, Rest());
      ok := Take(CLOSE_BRACKET);
    }

    /** One member of the object; `typed` and `sized` are the two bits of `seen`. */
    method JsonMember(a: Partial) returns (ok: bool, b: Partial)
      requires Valid()
      modifies this`pos
      ensures Valid() && ok == Member(old(Rest()), a).Scanned?
      ensures ok ==> Scanned(b, Rest()) == Member(old(Rest()), a)
    {
      hide Name, Token, LengthArray;
      b := a;
      var name := new byte[NAME_BYTES](i => 0);
      var n;
      ok, n := JsonName(name);
      if !ok { return; }
      var key := name[..n];
      ok := Take(COLON);
      if !ok { return; }
      if key == PIXEL_TYPE {
        if a.typed { return false, b; }
        ok, n := JsonName(name);
        if !ok { return; }
        var profile := ProfileOf(name[..n]);
        if profile == 0 { return false, b; }
        b := a.(typed := true, config := a.config.(profile := profile));
      } else if key == STRING_LENGTHS {
        if a.sized { return false, b; }
        var lengths;
        ok, lengths := JsonLengths();
        if !ok { return; }
        b := a.(sized := true, config := a.config.(lengths := lengths));
      } else {
        ok := false;
      }
    }

    /** Past a closing brace, if there is one. */
    method ClosingBrace() returns (closed: bool)
      requires Valid()
      modifies this`pos
      ensures Valid() && closed == Closes(old(Rest()))
      ensures Rest() == if closed then old(Rest())[1..] else old(Rest())
    {
      closed := pos < |text| && text[pos] == CLOSE_BRACE;
      if closed {
        assert text[pos..][1..] == text[pos + 1..];
        pos := pos + 1;
      }
    }

    /** The member loop of dld_parse_config, through the closing brace. */
    method JsonMembers() returns (ok: bool, parsed: Partial)
      requires Valid()
      modifies this`pos
      ensures Valid() && ok == Members(old(Rest()), NOTHING).Scanned?
      ensures ok ==> Scanned(parsed, Rest()) == Members(old(Rest()), NOTHING)
    {
      hide Member, Token, Members, SkipSpace;
      parsed := NOTHING;
      ghost var members := Members(Rest(), NOTHING);
      while true
        invariant Valid() && Members(Rest(), parsed) == members
        decreases |Rest()|
      {
        MembersStep(Rest(), parsed);
        Whitespace();
        var closed := ClosingBrace();
        if closed { return true, parsed; }
        ok, parsed := JsonMember(parsed);
        if !ok { return; }
        Whitespace();
        closed := ClosingBrace();
        if closed { return true, parsed; }
        ok := Take(COMMA);
        if !ok { return; }
        Whitespace();
        if pos == |text| || text[pos] == CLOSE_BRACE { return false, parsed; }
      }
    }
  }

  /** The caller's struct dld_config. */
  class ConfigBox {
    var value: Config

    constructor (c: Config)
      ensures value == c
    {
      value := c;
    }
  }

  lemma ParseStep(s: Text)
    ensures var t := Token(s, OPEN_BRACE);
            if t.Fail? || Members(t.rest, NOTHING).Fail? then Parse(s).Fail?
            else
              var m := Members(t.rest, NOTHING);
              Parse(s) == if SkipSpace(m.rest) != [] || !m.value.typed || !m.value.sized then Fail else Scanned(m.value.config, [])
  {
  }

  /** dld_parse_config: zero exactly for the printings of configurations, with the meaning stored; on any
      failure the caller's configuration is untouched. */
  method ParseConfig(json: Text, config: ConfigBox) returns (code: int)
    modifies config
    ensures code == 0 || code == -1
    ensures code == 0 <==> Parse(json).Scanned?
    ensures config.value == if code == 0 then Parse(json).value else old(config.value)
    ensures code == 0 ==> ValidConfig(config.value)
  {
    hide *;
    ParseStep(json);
    var r := new Reader(json);
    var ok := r.Take(OPEN_BRACE);
    if !ok { return -1; }
    var parsed;
    ok, parsed := r.JsonMembers();
    if !ok { return -1; }
    r.Whitespace();
    if r.pos != |json| { return -1; }
    if !parsed.typed || !parsed.sized { return -1; }
    config.value := parsed.config;
    code := 0;
    ghost var d := ParseRead(json);
    MeaningValid(d);
  }
}
