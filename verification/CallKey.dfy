/**
 The text a tool call's key is hashed from: the JSON-RPC id in ASCII-escaped JSON, a NUL, and the
 provider's tool-use id. Strings hold Unicode scalar values.
 */
module CallKey {
  import opened Prelude
  import opened Decimals

  const NUL: char := '\0'

  function HexDigit(d: nat): (c: char)
    requires d < 16
    ensures HexValue(c) == d && '0' <= c <= 'f'
  {
    if d < 10 then '0' + d as char else 'a' + (d - 10) as char
  }

  function HexValue(c: char): nat {
    if '0' <= c <= '9' then (c - '0') as int else if 'a' <= c <= 'f' then (c - 'a') as int + 10 else 0
  }

  function Hex4(n: nat): (s: string)
    requires n < 0x10000
    ensures |s| == 4
    ensures n == ((HexValue(s[0]) * 16 + HexValue(s[1])) * 16 + HexValue(s[2])) * 16 + HexValue(s[3])
    ensures forall i :: 0 <= i < 4 ==> '0' <= s[i] <= 'f'
  {
    var a := n / 16;
    var b := a / 16;
    [HexDigit(b / 16), HexDigit(b % 16), HexDigit(a % 16), HexDigit(n % 16)]
  }

  predicate IsPlain(c: char) {
    ' ' <= c <= '~' && c != '"' && c != '\\'
  }

  /** The letter after the backslash of a short escape. */
  function ShortEscape(c: char): Option<char> {
    if c == '"' then Some('"')
    else if c == '\\' then Some('\\')
    else if c == '\n' then Some('n')
    else if c == '\r' then Some('r')
    else if c == '\t' then Some('t')
    else if c == '\U{C}' then Some('f')
    else if c == '\U{8}' then Some('b')
    else None
  }

  /** The UTF-16 surrogate pair of a scalar above the basic plane. */
  function High(n: nat): nat
    requires 0x10000 <= n < 0x110000
  {
    0xD800 + (n - 0x10000) / 0x400
  }

  function Low(n: nat): nat
    requires 0x10000 <= n < 0x110000
  {
    0xDC00 + (n - 0x10000) % 0x400
  }

  function Escape(c: char): (s: string)
    ensures s != ""
    ensures forall i :: 0 <= i < |s| ==> ' ' <= s[i] <= '~'
  {
    if IsPlain(c) then [c]
    else
      match ShortEscape(c)
      case Some(letter) => ['\\', letter]
      case None =>
        var n := c as int;
        if n < 0x10000 then "\\u" + Hex4(n) else "\\u" + Hex4(High(n)) + ("\\u" + Hex4(Low(n)))
  }

  function EscapeAll(s: string): (r: string)
    ensures forall i :: 0 <= i < |r| ==> ' ' <= r[i] <= '~'
  {
    if s == "" then "" else Escape(s[0]) + EscapeAll(s[1..])
  }

  predicate IsIdent(v: Json) {
    v.Str? || v.Int?
  }

  /** `json.dumps` of a string or an integer. */
  function Dumps(ident: Json): (s: string)
    requires IsIdent(ident)
    ensures NUL !in s
  {
    if ident.Str? then "\"" + EscapeAll(ident.s) + "\""
    else if ident.n < 0 then
      var digits := Numeral(-ident.n);
      assert forall i :: 0 <= i < |digits| ==> IsDigit(digits[i]);
      "-" + digits
    else
      var digits := Numeral(ident.n);
      assert forall i :: 0 <= i < |digits| ==> IsDigit(digits[i]);
      digits
  }

  function Preimage(mcpId: string, toolUseId: string): string {
    mcpId + [NUL] + toolUseId
  }

  // ---- injectivity ----

  lemma FirstNul(a: string, x: string)
    requires NUL !in a
    ensures |a| < |Preimage(a, x)| && Preimage(a, x)[|a|] == NUL
    ensures forall i :: 0 <= i < |a| ==> Preimage(a, x)[i] != NUL
  {
    forall i | 0 <= i < |a| ensures Preimage(a, x)[i] != NUL {
      assert Preimage(a, x)[i] == a[i];
    }
  }

  /** The first NUL ends the JSON part, so both parts can be read back. */
  lemma PreimageIsInjective(a: string, b: string, x: string, y: string)
    requires NUL !in a && NUL !in b
    requires Preimage(a, x) == Preimage(b, y)
    ensures a == b && x == y
  {
    FirstNul(a, x);
    FirstNul(b, y);
    var s := Preimage(a, x);
    assert a == s[..|a|] && b == s[..|b|];
    assert x == s[|a| + 1..] && y == s[|b| + 1..];
  }

  datatype Kind = Plain | Short | Wide | Paired

  function KindOf(c: char): Kind {
    if IsPlain(c) then Plain
    else if ShortEscape(c).Some? then Short
    else if c as int < 0x10000 then Wide
    else Paired
  }

  /** Which kind of escape a text starts with can be read off its first characters. */
  function ReadKind(s: string): Kind
    requires s != ""
  {
    if s[0] != '\\' || |s| < 2 then Plain
    else if s[1] != 'u' || |s| < 6 then Short
    else if 0xD800 <= Read4(s, 2) < 0xDC00 then Paired
    else Wide
  }

  function Read4(s: string, i: nat): nat
    requires i + 4 <= |s|
  {
    ((HexValue(s[i]) * 16 + HexValue(s[i + 1])) * 16 + HexValue(s[i + 2])) * 16 + HexValue(s[i + 3])
  }

  lemma Wider(head: string, s: string)
    requires |head| == 6 && head <= s
    ensures Read4(s, 2) == Read4(head, 2)
  {
  }

  lemma ReadHex(n: nat)
    requires n < 0x10000
    ensures Read4("\\u" + Hex4(n), 2) == n
  {
    var h := Hex4(n);
    var s := "\\u" + h;
    assert s[2] == h[0] && s[3] == h[1] && s[4] == h[2] && s[5] == h[3];
  }

  lemma KindIsReadable(c: char, rest: string)
    ensures ReadKind(Escape(c) + rest) == KindOf(c)
  {
    hide Hex4, Read4;
    var s := Escape(c) + rest;
    var n := c as int;
    match KindOf(c) {
      case Plain => assert s[0] == c;
      case Short => assert s[0] == '\\' && s[1] == ShortEscape(c).value;
      case Wide =>
        var head := "\\u" + Hex4(n);
        assert head <= s && s[0] == head[0] && s[1] == head[1];
        ReadHex(n);
        Wider(head, s);
      case Paired =>
        var head := "\\u" + Hex4(High(n));
        assert s == head + ("\\u" + Hex4(Low(n)) + rest);
        assert head <= s && s[0] == head[0] && s[1] == head[1];
        ReadHex(High(n));
        Wider(head, s);
    }
  }

  lemma WideIsReadable(c: char, rest: string)
    requires KindOf(c) == Wide
    ensures |Escape(c)| == 6 && Read4(Escape(c) + rest, 2) == c as int
  {
    hide Hex4, Read4;
    ReadHex(c as int);
    Wider(Escape(c), Escape(c) + rest);
  }

  lemma PairIsReadable(c: char, rest: string)
    requires KindOf(c) == Paired
    ensures |Escape(c)| == 12
    ensures Read4((Escape(c) + rest), 2) == High(c as int)
    ensures Read4((Escape(c) + rest)[6..], 2) == Low(c as int)
  {
    hide Hex4, Read4;
    var n := c as int;
    var s := Escape(c) + rest;
    var first, second := "\\u" + Hex4(High(n)), "\\u" + Hex4(Low(n));
    assert s == first + (second + rest) && s[6..] == second + rest;
    ReadHex(High(n));
    ReadHex(Low(n));
    Wider(first, s);
    Wider(second, s[6..]);
  }

  lemma ShortEscapeIsInjective(a: char, b: char)
    requires ShortEscape(a).Some? && ShortEscape(a) == ShortEscape(b)
    ensures a == b
  {
  }

  /** No escape is a prefix of another, so the first character can always be read back. */
  lemma EscapeIsPrefixFree(a: char, b: char, x: string, y: string)
    requires Escape(a) + x == Escape(b) + y
    ensures a == b && x == y
  {
    hide ReadKind, Read4, Hex4, Escape;
    KindIsReadable(a, x);
    KindIsReadable(b, y);
    SameKindSameChar(a, b, x, y);
    assert x == (Escape(a) + x)[|Escape(a)|..] && y == (Escape(b) + y)[|Escape(b)|..];
  }

  lemma SameKindSameChar(a: char, b: char, x: string, y: string)
    requires Escape(a) + x == Escape(b) + y && KindOf(a) == KindOf(b)
    ensures a == b
  {
    hide Read4, Hex4;
    match KindOf(a) {
      case Plain => assert (Escape(a) + x)[0] == a && (Escape(b) + y)[0] == b;
      case Short =>
        assert (Escape(a) + x)[1] == ShortEscape(a).value && (Escape(b) + y)[1] == ShortEscape(b).value;
        ShortEscapeIsInjective(a, b);
      case Wide =>
        WideIsReadable(a, x);
        WideIsReadable(b, y);
      case Paired =>
        PairIsReadable(a, x);
        PairIsReadable(b, y);
        PairIsInjective(a as int, b as int);
    }
  }

  lemma PairIsInjective(m: nat, n: nat)
    requires 0x10000 <= m < 0x110000 && 0x10000 <= n < 0x110000
    requires High(m) == High(n) && Low(m) == Low(n)
    ensures m == n
  {
    assert m - 0x10000 == (m - 0x10000) / 0x400 * 0x400 + (m - 0x10000) % 0x400;
    assert n - 0x10000 == (n - 0x10000) / 0x400 * 0x400 + (n - 0x10000) % 0x400;
  }

  lemma EscapeAllIsEmpty(s: string)
    ensures EscapeAll(s) == "" <==> s == ""
  {
    hide Escape;
  }

  lemma {:induction false} EscapeAllIsInjective(s: string, t: string)
    requires EscapeAll(s) == EscapeAll(t)
    ensures s == t
    decreases |s|
  {
    hide Escape;
    EscapeAllIsEmpty(s);
    EscapeAllIsEmpty(t);
    if s != "" && t != "" {
      EscapeIsPrefixFree(s[0], t[0], EscapeAll(s[1..]), EscapeAll(t[1..]));
      EscapeAllIsInjective(s[1..], t[1..]);
      assert s == [s[0]] + s[1..] && t == [t[0]] + t[1..];
    }
  }

  lemma FirstMark(a: Json)
    requires IsIdent(a)
    ensures Dumps(a) != "" && (Dumps(a)[0] == '"' <==> a.Str?)
  {
    hide EscapeAll;
    if a.Int? && a.n >= 0 {
      assert IsDigit(Numeral(a.n)[0]);
    }
  }

  lemma Quoted(s: string)
    ensures |Dumps(Str(s))| >= 2 && Dumps(Str(s))[1..|Dumps(Str(s))| - 1] == EscapeAll(s)
  {
    hide EscapeAll;
  }

  /** Different ids are written differently: a string never reads as a number. */
  lemma DumpsIsInjective(a: Json, b: Json)
    requires IsIdent(a) && IsIdent(b) && Dumps(a) == Dumps(b)
    ensures a == b
  {
    hide EscapeAll, Dumps;
    FirstMark(a);
    FirstMark(b);
    if a.Str? && b.Str? {
      Quoted(a.s);
      Quoted(b.s);
      EscapeAllIsInjective(a.s, b.s);
    } else if a.Int? && b.Int? {
      SameNumber(a.n, b.n);
    }
  }

  lemma SameNumber(m: int, n: int)
    requires Dumps(Int(m)) == Dumps(Int(n))
    ensures m == n
  {
    var s := Dumps(Int(m));
    var x, y := Numeral(if m < 0 then -m else m), Numeral(if n < 0 then -n else n);
    assert IsDigit(x[0]) && IsDigit(y[0]);
    assert (m < 0 <==> s[0] == '-') && (n < 0 <==> s[0] == '-');
    if m < 0 {
      assert x == s[1..] && y == s[1..];
    }
  }

  /** Two calls share a key's text only when they share the JSON-RPC id and the tool-use id. */
  lemma KeyTextIsInjective(a: Json, b: Json, x: string, y: string)
    requires IsIdent(a) && IsIdent(b)
    requires Preimage(Dumps(a), x) == Preimage(Dumps(b), y)
    ensures a == b && x == y
  {
    hide Dumps, Preimage;
    PreimageIsInjective(Dumps(a), Dumps(b), x, y);
    DumpsIsInjective(a, b);
  }
}
