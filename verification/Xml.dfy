/** XML escaping by five ordered replacements, and the entity decoding of section 4.6 of XML 1.0. */
module Xml {

  /** `value.replace(/c/g, entity)`. */
  function ReplaceAll(s: string, c: char, entity: string): string {
    if s == [] then [] else ReplaceAll(s[..|s| - 1], c, entity) + (if s[|s| - 1] == c then entity else [s[|s| - 1]])
  }

  /** `escapeXml`: ampersands first, so the entities added later keep theirs. */
  function EscapeXml(s: string): string {
    ReplaceAll(ReplaceAll(ReplaceAll(ReplaceAll(ReplaceAll(
      s, '&', "&amp;"), '<', "&lt;"), '>', "&gt;"), '\"', "&quot;"), '\'', "&apos;")
  }

  /** What each character becomes. */
  function EscapeChar(c: char): string {
    if c == '&' then "&amp;"
    else if c == '<' then "&lt;"
    else if c == '>' then "&gt;"
    else if c == '\"' then "&quot;"
    else if c == '\'' then "&apos;"
    else [c]
  }

  /** One pass, character by character. */
  function Escaped(s: string): string {
    if s == [] then [] else Escaped(s[..|s| - 1]) + EscapeChar(s[|s| - 1])
  }

  lemma {:induction false} ReplaceAppend(a: string, b: string, c: char, entity: string)
    ensures ReplaceAll(a + b, c, entity) == ReplaceAll(a, c, entity) + ReplaceAll(b, c, entity)
  {
    if b == [] {
      assert a + b == a;
    } else {
      ReplaceAppend(a, b[..|b| - 1], c, entity);
      assert (a + b)[..|a + b| - 1] == a + b[..|b| - 1];
    }
  }

  lemma {:induction false} ReplaceAbsent(s: string, c: char, entity: string)
    requires c !in s
    ensures ReplaceAll(s, c, entity) == s
  {
    if s != [] {
      ReplaceAbsent(s[..|s| - 1], c, entity);
    }
  }

  lemma {:induction false} ReplaceOne(x: char, c: char, entity: string)
    ensures ReplaceAll([x], c, entity) == if x == c then entity else [x]
  {
    assert [x][..0] == [];
  }

  /** None of the five characters. */
  predicate Plain(s: string) {
    '<' !in s && '>' !in s && '\"' !in s && '\'' !in s
  }

  /** Once the ampersands are done, a text without the other four characters stays as it is. */
  lemma {:induction false} PlainStays(s: string)
    requires Plain(s)
    ensures ReplaceAll(ReplaceAll(ReplaceAll(ReplaceAll(s, '<', "&lt;"), '>', "&gt;"), '\"', "&quot;"), '\'', "&apos;") == s
  {
    hide ReplaceAll;
    ReplaceAbsent(s, '<', "&lt;");
    ReplaceAbsent(s, '>', "&gt;");
    ReplaceAbsent(s, '\"', "&quot;");
    ReplaceAbsent(s, '\'', "&apos;");
  }

  lemma EscapeAmpersand()
    ensures EscapeXml(['&']) == "&amp;"
  {
    hide ReplaceAll;
    ReplaceOne('&', '&', "&amp;");
    PlainStays("&amp;");
  }

  lemma EscapeLess()
    ensures EscapeXml(['<']) == "&lt;"
  {
    hide ReplaceAll;
    ReplaceOne('<', '&', "&amp;");
    ReplaceOne('<', '<', "&lt;");
    ReplaceAbsent("&lt;", '>', "&gt;");
    ReplaceAbsent("&lt;", '\"', "&quot;");
    ReplaceAbsent("&lt;", '\'', "&apos;");
  }

  lemma EscapeGreater()
    ensures EscapeXml(['>']) == "&gt;"
  {
    hide ReplaceAll;
    ReplaceOne('>', '&', "&amp;");
    ReplaceOne('>', '<', "&lt;");
    ReplaceOne('>', '>', "&gt;");
    ReplaceAbsent("&gt;", '\"', "&quot;");
    ReplaceAbsent("&gt;", '\'', "&apos;");
  }

  lemma EscapeQuote()
    ensures EscapeXml(['\"']) == "&quot;"
  {
    hide ReplaceAll;
    ReplaceOne('\"', '&', "&amp;");
    ReplaceOne('\"', '<', "&lt;");
    ReplaceOne('\"', '>', "&gt;");
    ReplaceOne('\"', '\"', "&quot;");
    ReplaceAbsent("&quot;", '\'', "&apos;");
  }

  lemma EscapeApostrophe()
    ensures EscapeXml(['\'']) == "&apos;"
  {
    hide ReplaceAll;
    ReplaceOne('\'', '&', "&amp;");
    ReplaceOne('\'', '<', "&lt;");
    ReplaceOne('\'', '>', "&gt;");
    ReplaceOne('\'', '\"', "&quot;");
    ReplaceOne('\'', '\'', "&apos;");
  }

  lemma EscapeOther(x: char)
    requires EscapeChar(x) == [x]
    ensures EscapeXml([x]) == [x]
  {
    hide ReplaceAll;
    ReplaceOne(x, '&', "&amp;");
    PlainStays([x]);
  }

  /** The later replacements leave the entities of the earlier ones alone. */
  lemma EscapeOne(x: char)
    ensures EscapeXml([x]) == EscapeChar(x)
  {
    hide EscapeXml;
    if x == '&' {
      EscapeAmpersand();
    } else if x == '<' {
      EscapeLess();
    } else if x == '>' {
      EscapeGreater();
    } else if x == '\"' {
      EscapeQuote();
    } else if x == '\'' {
      EscapeApostrophe();
    } else {
      EscapeOther(x);
    }
  }

  lemma EscapeAppend(a: string, b: string)
    ensures EscapeXml(a + b) == EscapeXml(a) + EscapeXml(b)
  {
    hide ReplaceAll;
    var a1, b1 := ReplaceAll(a, '&', "&amp;"), ReplaceAll(b, '&', "&amp;");
    var a2, b2 := ReplaceAll(a1, '<', "&lt;"), ReplaceAll(b1, '<', "&lt;");
    var a3, b3 := ReplaceAll(a2, '>', "&gt;"), ReplaceAll(b2, '>', "&gt;");
    var a4, b4 := ReplaceAll(a3, '\"', "&quot;"), ReplaceAll(b3, '\"', "&quot;");
    ReplaceAppend(a, b, '&', "&amp;");
    ReplaceAppend(a1, b1, '<', "&lt;");
    ReplaceAppend(a2, b2, '>', "&gt;");
    ReplaceAppend(a3, b3, '\"', "&quot;");
    ReplaceAppend(a4, b4, '\'', "&apos;");
  }

  lemma EscapeNothing()
    ensures EscapeXml([]) == []
  {
    PlainStays([]);
  }

  /** The five ordered replacements are one per-character map. */
  lemma {:induction false} FivePassesAreOne(s: string)
    ensures EscapeXml(s) == Escaped(s)
  {
    hide EscapeXml, EscapeChar;
    if s == [] {
      EscapeNothing();
    } else {
      var front, last := s[..|s| - 1], s[|s| - 1];
      FivePassesAreOne(front);
      EscapeAppend(front, [last]);
      EscapeOne(last);
      assert front + [last] == s;
    }
  }

  // ---------------------------------------------------------------- decoding

  predicate Begins4(s: string, b: char, c: char) {
    |s| >= 4 && s[0] == '&' && s[1] == b && s[2] == c && s[3] == ';'
  }

  predicate BeginsAmp(s: string) {
    |s| >= 5 && s[0] == '&' && s[1] == 'a' && s[2] == 'm' && s[3] == 'p' && s[4] == ';'
  }

  predicate Begins6(s: string, b: char, c: char, d: char, e: char) {
    |s| >= 6 && s[0] == '&' && s[1] == b && s[2] == c && s[3] == d && s[4] == e && s[5] == ';'
  }

  /** The predefined entity a text begins with: its character and its length; otherwise the first character. */
  function FirstChar(s: string): (r: (char, nat))
    requires s != []
    ensures 0 < r.1 <= |s|
  {
    if BeginsAmp(s) then ('&', 5)
    else if Begins4(s, 'l', 't') then ('<', 4)
    else if Begins4(s, 'g', 't') then ('>', 4)
    else if Begins6(s, 'q', 'u', 'o', 't') then ('\"', 6)
    else if Begins6(s, 'a', 'p', 'o', 's') then ('\'', 6)
    else (s[0], 1)
  }

  /** Replace the predefined entities, left to right. */
  function Decode(s: string): string
    decreases |s|
  {
    if s == [] then [] else [FirstChar(s).0] + Decode(s[FirstChar(s).1..])
  }

  lemma EntityFirst(c: char, rest: string)
    ensures EscapeChar(c) + rest != [] && FirstChar(EscapeChar(c) + rest) == (c, |EscapeChar(c)|)
  {
  }

  lemma {:induction false} DecodeChar(c: char, rest: string)
    ensures Decode(EscapeChar(c) + rest) == [c] + Decode(rest)
  {
    hide EscapeChar, FirstChar;
    EntityFirst(c, rest);
    var s := EscapeChar(c) + rest;
    assert s[|EscapeChar(c)|..] == rest;
  }

  lemma {:induction false} EscapedFront(c: char, s: string)
    ensures Escaped([c] + s) == EscapeChar(c) + Escaped(s)
  {
    hide EscapeChar;
    if s == [] {
      assert [c] + s == [c] && [c][..0] == [];
    } else {
      EscapedFront(c, s[..|s| - 1]);
      assert ([c] + s)[..|s|] == [c] + s[..|s| - 1];
    }
  }

  lemma {:induction false} DecodeEscaped(s: string)
    ensures Decode(Escaped(s)) == s
  {
    if s != [] {
      DecodeEscaped(s[1..]);
      EscapedFront(s[0], s[1..]);
      assert [s[0]] + s[1..] == s;
      DecodeChar(s[0], Escaped(s[1..]));
    }
  }

  /** Decoding undoes escaping, for every text. */
  lemma DecodingUndoesEscaping(s: string)
    ensures Decode(EscapeXml(s)) == s
  {
    FivePassesAreOne(s);
    DecodeEscaped(s);
  }

  lemma EntityHasNo(x: char, c: char)
    requires c == '<' || c == '>' || c == '\"' || c == '\''
    ensures c !in EscapeChar(x)
  {
  }

  lemma {:induction false} EscapedHasNo(s: string, c: char)
    requires c == '<' || c == '>' || c == '\"' || c == '\''
    ensures c !in Escaped(s)
  {
    hide EscapeChar;
    if s != [] {
      EntityHasNo(s[|s| - 1], c);
      EscapedHasNo(s[..|s| - 1], c);
    }
  }

  /** Escaped text holds no markup character. */
  lemma EscapedIsPlain(s: string, c: char)
    requires c == '<' || c == '>' || c == '\"' || c == '\''
    ensures c !in EscapeXml(s)
  {
    FivePassesAreOne(s);
    EscapedHasNo(s, c);
  }
}
