/** White space as Go's `strings.TrimSpace` and `bytes.TrimSpace` see it, on UTF-8 bytes. */
module Space {
  /** Length of the white-space character a byte string starts with, in UTF-8; 0 when it starts with none. */
  function BlankAt(s: string): nat
    ensures BlankAt(s) <= |s|
  {
    if s == "" then 0
    else if s[0] in "\t\n\r " || s[0] == 11 as char || s[0] == 12 as char then 1
    else if |s| >= 2 && s[0] == 0xC2 as char && (s[1] == 0x85 as char || s[1] == 0xA0 as char) then 2
    else if |s| >= 3 && WideBlank(s[0], s[1], s[2]) then 3
    else 0
  }

  /** The three-byte blanks: U+1680, U+2000 to U+200A, U+2028, U+2029, U+202F, U+205F and U+3000. */
  predicate WideBlank(a: char, b: char, c: char) {
    || (a == 0xE1 as char && b == 0x9A as char && c == 0x80 as char)
    || (a == 0xE2 as char && b == 0x80 as char
        && (0x80 as char <= c <= 0x8A as char || c == 0xA8 as char || c == 0xA9 as char || c == 0xAF as char))
    || (a == 0xE2 as char && b == 0x81 as char && c == 0x9F as char)
    || (a == 0xE3 as char && b == 0x80 as char && c == 0x80 as char)
  }

  function TrimLeft(s: string): string
    ensures |TrimLeft(s)| <= |s|
  {
    if BlankAt(s) == 0 then s else TrimLeft(s[BlankAt(s)..])
  }

  /** Length of the white-space character a byte string ends with. */
  function BlankEnd(s: string): nat
    ensures BlankEnd(s) <= |s|
  {
    if |s| >= 1 && BlankAt(s[|s| - 1..]) == 1 then 1
    else if |s| >= 2 && BlankAt(s[|s| - 2..]) == 2 then 2
    else if |s| >= 3 && BlankAt(s[|s| - 3..]) == 3 then 3
    else 0
  }

  function TrimRight(s: string): string {
    if BlankEnd(s) == 0 then s else TrimRight(s[..|s| - BlankEnd(s)])
  }

  function TrimSpace(s: string): string {
    TrimRight(TrimLeft(s))
  }

  predicate Trimmed(s: string) {
    TrimSpace(s) == s
  }

  lemma {:induction false} TrimLeftSuffix(s: string)
    ensures |TrimLeft(s)| <= |s| && (|TrimLeft(s)| == |s| ==> TrimLeft(s) == s)
  {
  }

  lemma {:induction false} TrimRightShorter(s: string)
    ensures |TrimRight(s)| <= |s| && (|TrimRight(s)| == |s| ==> BlankEnd(s) == 0)
  {
    if BlankEnd(s) != 0 {
      TrimRightShorter(s[..|s| - BlankEnd(s)]);
    }
  }

  lemma BlankStays(s: string, more: string)
    requires BlankAt(s) != 0
    ensures BlankAt(s + more) == BlankAt(s)
  {
    var t := s + more;
    assert t[0] == s[0];
    assert |s| >= 2 ==> t[1] == s[1];
    assert |s| >= 3 ==> t[2] == s[2];
  }

  lemma NoBlankEnds(s: string)
    ensures Trimmed(s) <==> BlankAt(s) == 0 && BlankEnd(s) == 0
  {
    TrimRightShorter(TrimLeft(s));
    TrimLeftSuffix(s);
  }

  lemma TrimRightPrefix(s: string)
    ensures TrimRight(s) <= s && BlankEnd(TrimRight(s)) == 0
  {
    if BlankEnd(s) != 0 {
      TrimRightPrefix(s[..|s| - BlankEnd(s)]);
    }
  }

  lemma TrimLeftClean(s: string)
    ensures BlankAt(TrimLeft(s)) == 0
  {
    if BlankAt(s) != 0 {
      TrimLeftClean(s[BlankAt(s)..]);
    }
  }

  lemma {:induction false} TrimRightStart(s: string)
    requires s != "" && BlankAt(s) == 0
    ensures TrimRight(s) != "" && TrimRight(s)[0] == s[0]
  {
    hide BlankAt;
    var n := BlankEnd(s);
    if n != 0 {
      var front, end := s[..|s| - n], s[|s| - n..];
      assert s == front + end && "" + end == end;
      EndIsBlank(s);
      if front != "" {
        if BlankAt(front) != 0 {
          BlankStays(front, end);
        }
        TrimRightStart(front);
      }
    }
  }

  lemma EndIsBlank(s: string)
    requires BlankEnd(s) != 0
    ensures BlankAt(s[|s| - BlankEnd(s)..]) != 0
  {
    hide BlankAt;
  }

  /** Trimming on both sides leaves the same first byte as trimming in front. */
  lemma TrimSpaceStart(s: string)
    ensures TrimSpace(s) == "" <==> TrimLeft(s) == ""
    ensures TrimLeft(s) != "" ==> TrimSpace(s)[0] == TrimLeft(s)[0]
  {
    hide BlankAt, BlankEnd;
    TrimLeftClean(s);
    if TrimLeft(s) != "" {
      hide TrimLeft;
      TrimRightStart(TrimLeft(s));
    }
  }

  /** A text between two printed ASCII characters is left as it is. */
  lemma PlainStays(s: string)
    requires s != "" && '!' <= s[0] <= '~' && '!' <= s[|s| - 1] <= '~'
    ensures TrimSpace(s) == s
  {
    PlainEnds(s);
    hide BlankAt, BlankEnd, TrimSpace;
    NoBlankEnds(s);
  }

  lemma PlainEnds(s: string)
    requires s != "" && '!' <= s[0] <= '~' && '!' <= s[|s| - 1] <= '~'
    ensures BlankAt(s) == 0 && BlankEnd(s) == 0
  {
    PlainStart(s);
    hide BlankAt;
    NoBlankSuffix(s, 1);
    NoBlankSuffix(s, 2);
    NoBlankSuffix(s, 3);
  }

  lemma PlainStart(s: string)
    requires s != "" && '!' <= s[0] <= '~'
    ensures BlankAt(s) == 0
  {
  }

  lemma NoBlankSuffix(s: string, n: nat)
    requires s != "" && '!' <= s[|s| - 1] <= '~' && 1 <= n
    ensures n <= |s| ==> BlankAt(s[|s| - n..]) != n
  {
    hide BlankAt;
    if n <= |s| {
      NotWhollyBlank(s[|s| - n..]);
    }
  }

  /** A blank character does not end in a printed one. */
  lemma NotWhollyBlank(t: string)
    requires t != "" && '!' <= t[|t| - 1] <= '~'
    ensures BlankAt(t) != |t|
  {
    hide WideBlank;
    if |t| == 3 {
      NotWide(t[0], t[1], t[2]);
    }
  }

  lemma NotWide(a: char, b: char, c: char)
    requires '!' <= c <= '~'
    ensures !WideBlank(a, b, c)
  {
  }

  predicate AsciiBlank(c: char) {
    c in "\t\n\r " || c == 11 as char || c == 12 as char
  }

  lemma {:induction false} BlanksGoLeft(blanks: string, s: string)
    requires (forall c | c in blanks :: AsciiBlank(c)) && BlankAt(s) == 0
    ensures TrimLeft(blanks + s) == s
  {
    if blanks == "" {
      assert blanks + s == s;
    } else {
      assert (blanks + s)[0] == blanks[0] && blanks[0] in blanks;
      assert BlankAt(blanks + s) == 1;
      assert (blanks + s)[1..] == blanks[1..] + s;
      BlanksGoLeft(blanks[1..], s);
    }
  }

  lemma {:induction false} BlanksGoRight(s: string, blanks: string)
    requires (forall c | c in blanks :: AsciiBlank(c)) && BlankEnd(s) == 0
    ensures TrimRight(s + blanks) == s
  {
    if blanks == "" {
      assert s + blanks == s;
    } else {
      hide BlankEnd, AsciiBlank, TrimRight;
      var text, front := s + blanks, blanks[..|blanks| - 1];
      assert text[|text| - 1] == blanks[|blanks| - 1] && blanks[|blanks| - 1] in blanks;
      EndsInBlank(text);
      TrimRightOnce(text);
      assert text[..|text| - 1] == s + front;
      BlanksGoRight(s, front);
    }
  }

  lemma TrimRightOnce(text: string)
    requires BlankEnd(text) == 1
    ensures TrimRight(text) == TrimRight(text[..|text| - 1])
  {
  }

  lemma EndsInBlank(text: string)
    requires text != "" && AsciiBlank(text[|text| - 1])
    ensures BlankEnd(text) == 1
  {
    assert text[|text| - 1..] == [text[|text| - 1]];
  }

  /** Blanks around a trimmed text are removed, and nothing else is. */
  lemma BlanksGo(before: string, s: string, after: string)
    requires (forall c | c in before + after :: AsciiBlank(c)) && Trimmed(s) && s != ""
    ensures TrimSpace(before + s + after) == s
  {
    NoBlankEnds(s);
    assert forall c | c in before :: c in before + after;
    assert forall c | c in after :: c in before + after;
    NotBlankBefore(s, after);
    assert before + s + after == before + (s + after);
    BlanksGoLeft(before, s + after);
    BlanksGoRight(s, after);
  }

  lemma NotBlankBefore(s: string, blanks: string)
    requires s != "" && BlankAt(s) == 0 && forall c | c in blanks :: AsciiBlank(c)
    ensures BlankAt(s + blanks) == 0
  {
    var t := s + blanks;
    assert t[0] == s[0];
    assert |t| >= 2 ==> t[1] == (if |s| >= 2 then s[1] else blanks[1 - |s|]);
    assert |t| >= 3 ==> t[2] == (if |s| >= 3 then s[2] else blanks[2 - |s|]);
    assert forall k | 0 <= k < |blanks| :: blanks[k] in blanks;
  }

  /** Trimming leaves a trimmed text. */
  lemma TrimTwice(s: string)
    ensures Trimmed(TrimSpace(s))
  {
    hide BlankAt, BlankEnd, TrimLeft, TrimRight, Trimmed;
    var left := TrimLeft(s);
    var trimmed := TrimRight(left);
    TrimLeftClean(s);
    TrimRightPrefix(left);
    var rest := left[|trimmed|..];
    assert trimmed + rest == left;
    if BlankAt(trimmed) != 0 {
      BlankStays(trimmed, rest);
    }
    NoBlankEnds(trimmed);
  }

  lemma JoinedStart(namespace: string, name: string)
    requires namespace != "" && BlankAt(namespace) == 0
    ensures BlankAt(namespace + "." + name) == 0
  {
    var key := namespace + "." + name;
    assert key[0] == namespace[0];
    assert |namespace| == 1 ==> key[1] == '.';
    assert |namespace| >= 2 ==> key[1] == namespace[1];
    assert |namespace| == 2 ==> key[2] == '.';
    assert |namespace| >= 3 ==> key[2] == namespace[2];
  }

  lemma JoinedEnd(namespace: string, name: string)
    requires name != "" && BlankEnd(name) == 0
    ensures BlankEnd(namespace + "." + name) == 0
  {
    var key := namespace + "." + name;
    assert key[|key| - 1..] == name[|name| - 1..];
    if |name| >= 2 {
      assert key[|key| - 2..] == name[|name| - 2..];
    } else {
      assert key[|key| - 2..][0] == '.';
    }
    if |name| >= 3 {
      assert key[|key| - 3..] == name[|name| - 3..];
    } else if |key| >= 3 {
      assert |name| == 2 ==> key[|key| - 3..][0] == '.';
      assert |name| == 1 ==> key[|key| - 3..][1] == '.';
    }
  }

  // ---------- which characters are blank ----------

  /** The UTF-8 form of a character of the basic plane, byte by byte. */
  function Utf8(c: nat): string
    requires c < 0x1_0000
  {
    if c < 0x80 then [c as char]
    else if c < 0x800 then [(0xC0 + c / 64) as char, (0x80 + c % 64) as char]
    else [(0xE0 + c / 4096) as char, (0x80 + c / 64 % 64) as char, (0x80 + c % 64) as char]
  }

  /** The white-space characters: tab to carriage return, space, next line, and the spaces and separators of
      Unicode. */
  predicate IsSpace(c: nat) {
    || 9 <= c <= 13 || c == 0x20 || c == 0x85 || c == 0xA0 || c == 0x1680 || 0x2000 <= c <= 0x200A
    || c == 0x2028 || c == 0x2029 || c == 0x202F || c == 0x205F || c == 0x3000
  }

  /** A text begins with white space exactly when its first character is white space, and that is as long as
      its UTF-8 form. */
  lemma BlankIsSpace(c: nat, rest: string)
    requires c < 0x1_0000
    ensures BlankAt(Utf8(c) + rest) == if IsSpace(c) then |Utf8(c)| else 0
  {
    var text := Utf8(c) + rest;
    assert text[0] == Utf8(c)[0];
    if c < 0x80 {
      OneByte(c, text);
    } else if c < 0x800 {
      assert text[1] == Utf8(c)[1];
      TwoBytes(c, text);
    } else {
      assert text[1] == Utf8(c)[1] && text[2] == Utf8(c)[2];
      ThreeBytes(c, text);
    }
  }

  lemma OneByte(c: nat, text: string)
    requires c < 0x80 && text != "" && text[0] == c as char
    ensures BlankAt(text) == if IsSpace(c) then 1 else 0
  {
  }

  lemma TwoBytes(c: nat, text: string)
    requires 0x80 <= c < 0x800 && |text| >= 2 && text[0] == (0xC0 + c / 64) as char && text[1] == (0x80 + c % 64) as char
    ensures BlankAt(text) == if IsSpace(c) then 2 else 0
  {
    assert c == 64 * (c / 64) + c % 64;
  }

  lemma ThreeBytes(c: nat, text: string)
    requires 0x800 <= c < 0x1_0000 && |text| >= 3 && text[0] == (0xE0 + c / 4096) as char
    requires text[1] == (0x80 + c / 64 % 64) as char && text[2] == (0x80 + c % 64) as char
    ensures BlankAt(text) == if IsSpace(c) then 3 else 0
  {
    var high, middle, low := c / 4096, c / 64 % 64, c % 64;
    assert c == 4096 * high + 64 * middle + low;
  }
}
