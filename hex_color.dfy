/**
  `Color(hex:)` of MyApp.swift: trim whitespace and newlines, drop one
  leading '#', scan a hexadecimal number into a 64-bit value that starts at
  0, and take its red, green and blue bytes. The scanner is a parameter.
 */
module HexColor {
  import opened Wrappers

  /** `CharacterSet.whitespacesAndNewlines`, on Unicode scalars. */
  predicate IsWhitespaceOrNewline(c: char)
  {
    c == ' ' || c == '\t' || c == '\n' || c == '\r' || c == '\U{000B}' || c == '\U{000C}'
    || c == '\U{0085}' || c == '\U{00A0}' || c == '\U{1680}'
    || ('\U{2000}' <= c <= '\U{200A}') || c == '\U{2028}' || c == '\U{2029}'
    || c == '\U{202F}' || c == '\U{205F}' || c == '\U{3000}'
  }

  /** Drop leading whitespace: the result is a suffix starting with a non-space, or empty. */
  function TrimStart(s: string): (r: string)
    ensures |r| <= |s| && r == s[|s| - |r|..]
    ensures forall k :: 0 <= k < |s| - |r| ==> IsWhitespaceOrNewline(s[k])
    ensures |r| > 0 ==> !IsWhitespaceOrNewline(r[0])
  {
    if |s| > 0 && IsWhitespaceOrNewline(s[0]) then TrimStart(s[1..]) else s
  }

  /** Drop trailing whitespace: the result is a prefix ending with a non-space, or empty. */
  function TrimEnd(s: string): (r: string)
    ensures |r| <= |s| && r == s[..|r|]
    ensures forall k :: |r| <= k < |s| ==> IsWhitespaceOrNewline(s[k])
    ensures |r| > 0 ==> !IsWhitespaceOrNewline(r[|r| - 1])
  {
    if |s| > 0 && IsWhitespaceOrNewline(s[|s| - 1]) then TrimEnd(s[..|s| - 1]) else s
  }

  /** `trimmingCharacters(in: .whitespacesAndNewlines)`. */
  function Trim(s: string): (r: string)
    ensures exists i, j ::
      && 0 <= i <= j <= |s| && r == s[i..j]
      && (forall k :: 0 <= k < i ==> IsWhitespaceOrNewline(s[k]))
      && (forall k :: j <= k < |s| ==> IsWhitespaceOrNewline(s[k]))
    ensures |r| > 0 ==> !IsWhitespaceOrNewline(r[0]) && !IsWhitespaceOrNewline(r[|r| - 1])
  {
    var front := TrimStart(s);
    var r := TrimEnd(front);
    var i := |s| - |front|;
    assert r == s[i..i + |r|];
    r
  }

  /** `hasPrefix("#") ? String(dropFirst()) : self`. */
  function DropHash(s: string): (r: string)
    ensures |s| > 0 && s[0] == '#' ==> r == s[1..]
    ensures !(|s| > 0 && s[0] == '#') ==> r == s
  {
    if |s| > 0 && s[0] == '#' then s[1..] else s
  }

  /** What reaches the scanner: the trimmed text, without a leading '#' when it has one. */
  function Sanitize(hex: string): (r: string)
    ensures Trim(hex) == r || Trim(hex) == ['#'] + r
    ensures Trim(hex) == ['#'] + r <==> |Trim(hex)| > 0 && Trim(hex)[0] == '#'
    ensures |r| > 0 ==> !IsWhitespaceOrNewline(r[|r| - 1])
  {
    var t := Trim(hex);
    HashSplit(t);
    DropHash(t)
  }

  /** Dropping the hash removes at most the first character, and only a '#'. */
  lemma HashSplit(t: string)
    ensures t == DropHash(t) || t == ['#'] + DropHash(t)
    ensures t == ['#'] + DropHash(t) <==> |t| > 0 && t[0] == '#'
    ensures |DropHash(t)| > 0 ==> DropHash(t)[|DropHash(t)| - 1] == t[|t| - 1]
  {
    if |t| > 0 && t[0] == '#' {
      assert t == ['#'] + t[1..];
    }
  }

  /** The channel bytes, before the division by 255. */
  datatype Rgb = Rgb(red: bv8, green: bv8, blue: bv8)

  /** `(rgb >> 16) & 0xFF`, `(rgb >> 8) & 0xFF` and `rgb & 0xFF`, each a byte. */
  function Red(rgb: bv64): (r: bv8)
    ensures r as bv64 == (rgb & 0xFF_0000) >> 16
  {
    ((rgb >> 16) & 0xFF) as bv8
  }

  function Green(rgb: bv64): (g: bv8)
    ensures g as bv64 == (rgb & 0xFF00) >> 8
  {
    ((rgb >> 8) & 0xFF) as bv8
  }

  function Blue(rgb: bv64): (b: bv8)
    ensures b as bv64 == rgb % 0x100
  {
    (rgb & 0xFF) as bv8
  }

  /** The value `scanHexInt64` leaves in `rgb`: the scanned value, or the initial 0. */
  function ScannedValue(hex: string, scan: string -> Option<bv64>): (rgb: bv64)
    ensures scan(Sanitize(hex)).None? ==> rgb == 0
    ensures scan(Sanitize(hex)).Some? ==> rgb == scan(Sanitize(hex)).value
  {
    match scan(Sanitize(hex))
    case Some(v) => v
    case None => 0
  }

  /**
    `Color(hex:)`; `scanHexInt64` is the parameter `scan`, which gives the
    scanned value or None when it reads nothing.
   */
  function ColorFromHex(hex: string, scan: string -> Option<bv64>): (c: Rgb)
    ensures (c.red as bv64 << 16) | (c.green as bv64 << 8) | c.blue as bv64 == ScannedValue(hex, scan) & 0xFF_FFFF
  {
    var rgb := ScannedValue(hex, scan);
    ChannelsRecompose(rgb);
    Rgb(Red(rgb), Green(rgb), Blue(rgb))
  }

  // ---------------------------------------------------------------------
  // Properties
  // ---------------------------------------------------------------------

  /** What the scanner cannot read gives black. */
  lemma UnreadableIsBlack(hex: string, scan: string -> Option<bv64>)
    requires scan(Sanitize(hex)).None?
    ensures ColorFromHex(hex, scan) == Rgb(0, 0, 0)
  {
  }

  /** Leading whitespace before a text that starts with a non-space is dropped, and only it. */
  lemma {:induction false} TrimStartSkips(pre: string, s: string)
    requires forall k :: 0 <= k < |pre| ==> IsWhitespaceOrNewline(pre[k])
    requires |s| > 0 && !IsWhitespaceOrNewline(s[0])
    ensures TrimStart(pre + s) == s
  {
    if |pre| > 0 {
      assert (pre + s)[1..] == pre[1..] + s;
      TrimStartSkips(pre[1..], s);
    } else {
      assert pre + s == s;
    }
  }

  /** Trailing whitespace after a text that ends with a non-space is dropped, and only it. */
  lemma {:induction false} TrimEndSkips(s: string, post: string)
    requires forall k :: 0 <= k < |post| ==> IsWhitespaceOrNewline(post[k])
    requires |s| > 0 && !IsWhitespaceOrNewline(s[|s| - 1])
    ensures TrimEnd(s + post) == s
  {
    if |post| > 0 {
      assert (s + post)[..|s + post| - 1] == s + post[..|post| - 1];
      TrimEndSkips(s, post[..|post| - 1]);
    } else {
      assert s + post == s;
    }
  }

  /** Trimming removes exactly the surrounding whitespace. */
  lemma TrimStripsSurroundingWhitespace(pre: string, core: string, post: string)
    requires forall k :: 0 <= k < |pre| ==> IsWhitespaceOrNewline(pre[k])
    requires forall k :: 0 <= k < |post| ==> IsWhitespaceOrNewline(post[k])
    requires |core| > 0 && !IsWhitespaceOrNewline(core[0]) && !IsWhitespaceOrNewline(core[|core| - 1])
    ensures Trim(pre + core + post) == core
  {
    assert pre + core + post == pre + (core + post);
    TrimStartSkips(pre, core + post);
    TrimEndSkips(core, post);
  }

  /**
    What reaches the scanner: the text between the surrounding whitespace,
    without its first character when that is '#' (a second '#' stays).
   */
  lemma SanitizeDropsSpacesAndOneHash(pre: string, core: string, post: string)
    requires forall k :: 0 <= k < |pre| ==> IsWhitespaceOrNewline(pre[k])
    requires forall k :: 0 <= k < |post| ==> IsWhitespaceOrNewline(post[k])
    requires |core| > 0 && !IsWhitespaceOrNewline(core[0]) && !IsWhitespaceOrNewline(core[|core| - 1])
    ensures core[0] == '#' ==> Sanitize(pre + core + post) == core[1..]
    ensures core[0] != '#' ==> Sanitize(pre + core + post) == core
  {
    TrimStripsSurroundingWhitespace(pre, core, post);
  }

  /** The three bytes recompose the low 24 bits: red is bits 16-23, green 8-15, blue 0-7. */
  lemma ChannelsRecompose(rgb: bv64)
    ensures (Red(rgb) as bv64 << 16) | (Green(rgb) as bv64 << 8) | Blue(rgb) as bv64 == rgb & 0xFF_FFFF
  {
  }

  /** Bits above 23 are ignored, so a leading alpha byte changes no channel. */
  lemma HighBitsIgnored(rgb: bv64, high: bv64)
    ensures var v := (high << 24) | (rgb & 0xFF_FFFF);
      Red(v) == Red(rgb) && Green(v) == Green(rgb) && Blue(v) == Blue(rgb)
  {
  }

  /** Trimming is idempotent: a trimmed text has nothing left to trim. */
  lemma {:induction false} TrimIsIdempotent(s: string)
    ensures Trim(Trim(s)) == Trim(s)
  {
    var t := Trim(s);
    assert TrimStart(t) == t;
    assert TrimEnd(t) == t;
  }
}
