/** Percent-encoding of path text (section 2.1 of RFC 3986), for any choice of the characters that are
    written plainly. Strings are sequences of octets. */
module PercentCoding {
  import opened Wrappers

  predicate Octets(s: string) {
    forall i :: 0 <= i < |s| ==> s[i] as int < 256
  }

  function HexDigit(n: int): char
    requires 0 <= n < 16
  {
    "0123456789ABCDEF"[n]
  }

  function HexValue(c: char): Option<nat> {
    if '0' <= c <= '9' then Some((c - '0') as nat)
    else if 'A' <= c <= 'F' then Some(10 + (c - 'A') as nat)
    else if 'a' <= c <= 'f' then Some(10 + (c - 'a') as nat)
    else None
  }

  function EscapeOne(c: char): string {
    ['%', HexDigit(c as int / 16 % 16), HexDigit(c as int % 16)]
  }

  function Written(plain: char -> bool, c: char): string {
    if plain(c) then [c] else EscapeOne(c)
  }

  /** Writes every character outside `plain` as an escape. */
  function Escape(plain: char -> bool, s: string): string {
    if s == "" then ""
    else Written(plain, s[0]) + Escape(plain, s[1..])
  }

  /** The octet of a well-formed escape at the front of `s`. */
  function Escaped(s: string): Option<char> {
    if |s| >= 3 && s[0] == '%' then
      match (HexValue(s[1]), HexValue(s[2]))
      case (Some(hi), Some(lo)) => Some((hi * 16 + lo) as char)
      case _ => None
    else None
  }

  /** `url.PathUnescape`: fails on a malformed escape. */
  function Unescape(s: string): Option<string> {
    if s == "" then Some("")
    else if s[0] == '%' then
      match Escaped(s)
      case None => None
      case Some(c) =>
        match Unescape(s[3..])
        case None => None
        case Some(rest) => Some([c] + rest)
    else
      match Unescape(s[1..])
      case None => None
      case Some(rest) => Some([s[0]] + rest)
  }

  /** `uri.NormalizeEscapedPath` (section 6.2.2 of RFC 3986): escapes of plain characters are decoded,
      the others get upper-case digits; fails on a malformed escape. */
  function Normalize(plain: char -> bool, s: string): Option<string> {
    if s == "" then Some("")
    else if s[0] == '%' then
      match Escaped(s)
      case None => None
      case Some(c) =>
        match Normalize(plain, s[3..])
        case None => None
        case Some(rest) => Some(Written(plain, c) + rest)
    else
      match Normalize(plain, s[1..])
      case None => None
      case Some(rest) => Some([s[0]] + rest)
  }

  /** A set of plainly written characters that keeps escapes and slashes readable. */
  ghost predicate Sound(plain: char -> bool) {
    !plain('%') && !plain('/')
  }

  lemma EscapeOneDecodes(c: char, rest: string)
    requires c as int < 256
    ensures Escaped(EscapeOne(c) + rest) == Some(c)
    ensures (EscapeOne(c) + rest)[3..] == rest
    ensures '/' !in EscapeOne(c)
  {
    var hi, lo := c as int / 16, c as int % 16;
    HexRoundTrip(hi);
    HexRoundTrip(lo);
    assert hi * 16 + lo == c as int && hi % 16 == hi;
    var s := EscapeOne(c) + rest;
    assert s[1] == HexDigit(hi) && s[2] == HexDigit(lo);
  }

  lemma HexRoundTrip(n: int)
    requires 0 <= n < 16
    ensures HexValue(HexDigit(n)) == Some(n) && HexDigit(n) != '/' && HexDigit(n) != '%'
  {
  }

  /** A digit in either case. */
  predicate WritesDigit(c: char, d: int) {
    0 <= d < 16 && (c == "0123456789ABCDEF"[d] || c == "0123456789abcdef"[d])
  }

  lemma DigitRead(c: char, d: int)
    requires WritesDigit(c, d)
    ensures HexValue(c) == Some(d)
  {
    if d < 10 {
      assert c == "0123456789"[d];
    } else {
      assert c == "ABCDEF"[d - 10] || c == "abcdef"[d - 10];
    }
  }

  lemma DigitOnly(c: char)
    ensures HexValue(c).Some? <==> '0' <= c <= '9' || 'A' <= c <= 'F' || 'a' <= c <= 'f'
  {
  }

  lemma OctetWritten(hi: int, lo: int)
    requires 0 <= hi < 16 && 0 <= lo < 16
    ensures EscapeOne((16 * hi + lo) as char) == ['%', "0123456789ABCDEF"[hi], "0123456789ABCDEF"[lo]]
  {
    var c := (16 * hi + lo) as char;
    assert c as int / 16 == hi && c as int % 16 == lo && hi % 16 == hi;
  }

  lemma OctetRead(hi: int, lo: int, h: char, l: char, rest: string)
    requires WritesDigit(h, hi) && WritesDigit(l, lo)
    ensures Escaped(['%', h, l] + rest) == Some((16 * hi + lo) as char)
    ensures (['%', h, l] + rest)[3..] == rest
  {
    DigitRead(h, hi);
    DigitRead(l, lo);
    var s := ['%', h, l] + rest;
    assert s[1] == h && s[2] == l;
  }

  /** Every octet, escaped in digits of either case, is decoded to itself, and normalising writes it plainly or
      in upper-case digits. */
  lemma EscapeIs(plain: char -> bool, hi: int, lo: int, h: char, l: char, rest: string)
    requires WritesDigit(h, hi) && WritesDigit(l, lo)
    ensures var s, c := ['%', h, l] + rest, (16 * hi + lo) as char;
      && (Unescape(s) == if Unescape(rest).Some? then Some([c] + Unescape(rest).value) else None)
      && (Normalize(plain, s) ==
           if Normalize(plain, rest) == None then None
           else Some((if plain(c) then [c] else ['%', "0123456789ABCDEF"[hi], "0123456789ABCDEF"[lo]]) +
                     Normalize(plain, rest).value))
  {
    OctetRead(hi, lo, h, l, rest);
    OctetWritten(hi, lo);
  }

  /** A percent sign that two digits do not follow makes both fail. */
  lemma NoEscape(plain: char -> bool, rest: string)
    ensures (|rest| < 2 || HexValue(rest[0]) == None || HexValue(rest[1]) == None) ==>
      Unescape("%" + rest) == None && Normalize(plain, "%" + rest) == None
  {
  }

  lemma {:induction false} UnescapeEscape(plain: char -> bool, s: string)
    requires !plain('%') && Octets(s)
    ensures Unescape(Escape(plain, s)) == Some(s)
  {
    if s == "" {
    } else {
      UnescapeEscape(plain, s[1..]);
      var rest := Escape(plain, s[1..]);
      assert s == [s[0]] + s[1..];
      if plain(s[0]) {
        assert ([s[0]] + rest)[1..] == rest;
      } else {
        EscapeOneDecodes(s[0], rest);
      }
    }
  }

  lemma {:induction false} EscapeIsSegment(plain: char -> bool, s: string)
    requires Sound(plain) && Octets(s)
    ensures '/' !in Escape(plain, s)
    ensures Escape(plain, s) == "" <==> s == ""
  {
    if s == "" {
    } else {
      EscapeIsSegment(plain, s[1..]);
      EscapeOneDecodes(s[0], "");
    }
  }

  lemma {:induction false} UnescapeLiteral(s: string)
    requires '%' !in s
    ensures Unescape(s) == Some(s)
  {
    if s == "" {
    } else {
      UnescapeLiteral(s[1..]);
      assert s == [s[0]] + s[1..];
    }
  }

  lemma {:induction false} UnescapeAppend(a: string, b: string)
    requires Unescape(a).Some?
    ensures Unescape(a + b) == if Unescape(b).Some? then Some(Unescape(a).value + Unescape(b).value) else None
  {
    if a == "" {
      NilConcat(b);
      if Unescape(b).Some? { NilConcat(Unescape(b).value); }
    } else if a[0] == '%' {
      assert (a + b)[3..] == a[3..] + b;
      assert Escaped(a + b) == Escaped(a);
      UnescapeAppend(a[3..], b);
      if Unescape(b).Some? { ConcatAssoc([Escaped(a).value], Unescape(a[3..]).value, Unescape(b).value); }
    } else {
      assert (a + b)[1..] == a[1..] + b;
      UnescapeAppend(a[1..], b);
      if Unescape(b).Some? { ConcatAssoc([a[0]], Unescape(a[1..]).value, Unescape(b).value); }
    }
  }

  lemma {:induction false} NormalizeLiteral(plain: char -> bool, a: string, b: string)
    requires '%' !in a
    ensures Normalize(plain, a + b) == if Normalize(plain, b).Some? then Some(a + Normalize(plain, b).value) else None
  {
    if a == "" {
      NilConcat(b);
      if Normalize(plain, b).Some? { NilConcat(Normalize(plain, b).value); }
    } else {
      assert (a + b)[1..] == a[1..] + b;
      NormalizeLiteral(plain, a[1..], b);
      assert a == [a[0]] + a[1..];
      if Normalize(plain, b).Some? { ConcatAssoc([a[0]], a[1..], Normalize(plain, b).value); }
    }
  }

  lemma NormalizeOne(plain: char -> bool, client: char -> bool, both: char -> bool, c: char, rest: string)
    requires c as int < 256 && !client('%')
    requires both(c) == (client(c) || plain(c))
    ensures Normalize(plain, Written(client, c) + rest)
         == if Normalize(plain, rest).Some? then Some(Written(both, c) + Normalize(plain, rest).value) else None
  {
    EscapeOneDecodes(c, rest);
    assert ([c] + rest)[1..] == rest;
  }

  /** Normalising encoded text re-encodes it with both sets of plain characters. */
  lemma {:induction false} NormalizeEscape(plain: char -> bool, client: char -> bool, both: char -> bool,
                                           s: string, b: string)
    requires !client('%') && Octets(s)
    requires forall c :: both(c) == (client(c) || plain(c))
    ensures Normalize(plain, Escape(client, s) + b)
         == if Normalize(plain, b).Some? then Some(Escape(both, s) + Normalize(plain, b).value) else None
  {
    if s == "" {
      NilConcat(b);
      if Normalize(plain, b).Some? { NilConcat(Normalize(plain, b).value); }
    } else {
      NormalizeEscape(plain, client, both, s[1..], b);
      NormalizeOne(plain, client, both, s[0], Escape(client, s[1..]) + b);
      ConcatAssoc(Written(client, s[0]), Escape(client, s[1..]), b);
      if Normalize(plain, b).Some? {
        ConcatAssoc(Written(both, s[0]), Escape(both, s[1..]), Normalize(plain, b).value);
      }
    }
  }

  /** What a string decodes to does not change when it is normalised. */
  lemma {:induction false} NormalizeDecodes(plain: char -> bool, s: string)
    requires !plain('%')
    ensures Normalize(plain, s).Some? <==> Unescape(s).Some?
    ensures Normalize(plain, s).Some? ==> Unescape(Normalize(plain, s).value) == Unescape(s)
  {
    if s == "" {
    } else {
      if s[0] == '%' {
        if Escaped(s).Some? {
          NormalizeDecodes(plain, s[3..]);
          if Normalize(plain, s[3..]).Some? {
            var c, rest := Escaped(s).value, Normalize(plain, s[3..]).value;
            EscapeOneDecodes(c, rest);
            assert ([c] + rest)[1..] == rest;
          }
        }
      } else {
        NormalizeDecodes(plain, s[1..]);
        if Normalize(plain, s[1..]).Some? {
          assert ([s[0]] + Normalize(plain, s[1..]).value)[1..] == Normalize(plain, s[1..]).value;
        }
      }
    }
  }

  /** A well-formed escape always shortens the text, so decoding changes it exactly when there is one. */
  lemma {:induction false} UnescapeShortens(s: string)
    requires Unescape(s).Some?
    ensures |Unescape(s).value| <= |s|
    ensures '%' in s <==> |Unescape(s).value| < |s|
    ensures '%' !in s <==> Unescape(s).value == s
  {
    if s == "" {
    } else {
      assert s == [s[0]] + s[1..];
      if s[0] == '%' {
        UnescapeShortens(s[3..]);
      } else {
        UnescapeShortens(s[1..]);
      }
    }
  }

  /** A piece of decodable text decodes if it is cut at a slash or at its ends. */
  lemma {:induction false} UnescapePiece(a: string, b: string, c: string)
    requires Unescape(a + b + c).Some?
    requires a == "" || a[|a| - 1] == '/'
    requires c == "" || c[0] == '/'
    ensures Unescape(b).Some?
  {
    if a == "" {
      assert a + b + c == b + c;
      UnescapePrefix(b, c);
    } else if a[0] == '%' {
      var s := a + b + c;
      assert Escaped(s).Some?;
      assert HexValue('/') == None;
      assert s[|a| - 1] == '/';
      assert s[3..] == a[3..] + b + c;
      UnescapePiece(a[3..], b, c);
    } else {
      assert (a + b + c)[1..] == a[1..] + b + c;
      UnescapePiece(a[1..], b, c);
    }
  }

  lemma {:induction false} UnescapePrefix(b: string, c: string)
    requires Unescape(b + c).Some?
    requires c == "" || c[0] == '/'
    ensures Unescape(b).Some?
  {
    if b == "" {
    } else {
      var s := b + c;
      if b[0] == '%' {
        assert Escaped(s).Some?;
        assert HexValue('/') == None;
        assert |b| < |s| ==> s[|b|] == '/';
        assert s[3..] == b[3..] + c;
        UnescapePrefix(b[3..], c);
      } else {
        assert s[1..] == b[1..] + c;
        UnescapePrefix(b[1..], c);
      }
    }
  }

  // ---------------------------------------------------------------- slashes

  function Slashes(s: string): nat {
    if s == "" then 0 else (if s[0] == '/' then 1 else 0) + Slashes(s[1..])
  }

  lemma {:induction false} SlashesAppend(a: string, b: string)
    ensures Slashes(a + b) == Slashes(a) + Slashes(b)
  {
    if a == "" {
      assert a + b == b;
    } else {
      assert (a + b)[1..] == a[1..] + b;
      SlashesAppend(a[1..], b);
    }
  }

  lemma {:induction false} SlashesZero(s: string)
    ensures Slashes(s) == 0 <==> '/' !in s
  {
    if s == "" {
    } else {
      SlashesZero(s[1..]);
      assert s == [s[0]] + s[1..];
    }
  }

  /** An encoding that writes slashes plainly has the slashes of its text. */
  lemma {:induction false} EscapeKeepsSlashes(plain: char -> bool, s: string)
    requires plain('/') && Octets(s)
    ensures Slashes(Escape(plain, s)) == Slashes(s)
  {
    if s == "" {
    } else {
      EscapeKeepsSlashes(plain, s[1..]);
      EscapeOneDecodes(s[0], "");
      var head := if plain(s[0]) then [s[0]] else EscapeOne(s[0]);
      SlashesAppend(head, Escape(plain, s[1..]));
      SlashesZero(EscapeOne(s[0]));
      SlashesZero(head);
      if plain(s[0]) { assert head[1..] == ""; }
    }
  }
}
