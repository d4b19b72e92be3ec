/** Organization slugs: the lower-cased name reduced to dash-joined runs of letters and digits, cut, and
    ended by a random suffix. */
module Slug {
  predicate AlphaNum(c: char) {
    'a' <= c <= 'z' || '0' <= c <= '9'
  }

  // ---------------------------------------------------------------- the rewriting

  /** `[^a-z0-9]+` replaced by one dash; `inRun` says that the character before was replaced too. */
  function Collapsed(s: string, inRun: bool): string {
    if s == "" then ""
    else if AlphaNum(s[0]) then [s[0]] + Collapsed(s[1..], false)
    else (if inRun then "" else "-") + Collapsed(s[1..], true)
  }

  function TrimStart(s: string): string {
    if s != "" && s[0] == '-' then TrimStart(s[1..]) else s
  }

  function TrimEnd(s: string): string {
    if s != "" && s[|s| - 1] == '-' then TrimEnd(s[..|s| - 1]) else s
  }

  function HexDigit(d: nat): char
    requires d < 16
  {
    if d < 10 then ('0' as int + d) as char else ('a' as int + d - 10) as char
  }

  /** `hex.EncodeToString` */
  function Hex(bytes: seq<nat>): (r: string)
    requires forall i :: 0 <= i < |bytes| ==> bytes[i] < 256
    ensures |r| == 2 * |bytes|
    ensures forall i :: 0 <= i < |r| ==> AlphaNum(r[i])
  {
    if bytes == [] then "" else [HexDigit(bytes[0] / 16), HexDigit(bytes[0] % 16)] + Hex(bytes[1..])
  }

  /** The name's part of a slug, before the suffix. */
  function Stem(lowered: string): string {
    var joined := TrimEnd(TrimStart(Collapsed(lowered, false)));
    if joined == "" then "org" else if |joined| > 30 then joined[..30] else joined
  }

  /** `slugify`: `lowered` is the lower-cased name, of any characters, and `random` the four random bytes. */
  method Slugify(lowered: string, random: seq<nat>) returns (slug: string)
    requires |random| == 4 && forall i :: 0 <= i < 4 ==> random[i] < 256
    ensures slug == Stem(lowered) + "-" + Hex(random)
  {
    var s := Collapsed(lowered, false);
    s := TrimEnd(TrimStart(s));
    if |s| > 30 {
      s := s[..30];
    }
    if s == "" {
      s := "org";
    }
    return s + "-" + Hex(random);
  }

  // ---------------------------------------------------------------- what it is

  /** The maximal runs of letters and digits; `word` is the run being read. */
  function Words(s: string, word: string): seq<string> {
    if s == "" then if word == "" then [] else [word]
    else if AlphaNum(s[0]) then Words(s[1..], word + [s[0]])
    else (if word == "" then [] else [word]) + Words(s[1..], "")
  }

  function Joined(words: seq<string>): string {
    if words == [] then ""
    else if |words| == 1 then words[0]
    else words[0] + "-" + Joined(words[1..])
  }

  predicate IsWord(w: string) {
    w != "" && forall i :: 0 <= i < |w| ==> AlphaNum(w[i])
  }

  predicate AreWords(ws: seq<string>) {
    forall i :: 0 <= i < |ws| ==> IsWord(ws[i])
  }

  lemma {:induction false} WordsAreWords(s: string, word: string)
    requires forall i :: 0 <= i < |word| ==> AlphaNum(word[i])
    ensures AreWords(Words(s, word))
    decreases |s|
  {
    if s == "" {
    } else {
      if AlphaNum(s[0]) { WordsAreWords(s[1..], word + [s[0]]); } else { WordsAreWords(s[1..], ""); }
    }
  }

  /** Words joined by dashes have letters and digits at both ends and between dashes. */
  lemma {:induction false} JoinedShape(ws: seq<string>)
    requires AreWords(ws) && ws != []
    ensures var j := Joined(ws);
      && j != "" && AlphaNum(j[0]) && AlphaNum(j[|j| - 1])
      && (forall i :: 0 <= i < |j| ==> AlphaNum(j[i]) || j[i] == '-')
      && (forall i :: 0 <= i < |j| - 1 ==> j[i] != '-' || j[i + 1] != '-')
  {
    assert IsWord(ws[0]);
    if |ws| <= 1 {
    } else {
      JoinedShape(ws[1..]);
      var j, w, rest := Joined(ws), ws[0], Joined(ws[1..]);
      assert j == w + "-" + rest;
      forall i | 0 <= i < |j| - 1 ensures j[i] != '-' || j[i + 1] != '-' {
        if i < |w| {
          assert j[i] == w[i];
        } else if i == |w| {
          assert j[i + 1] == rest[0];
        } else {
          assert j[i] == rest[i - |w| - 1] && j[i + 1] == rest[i - |w|];
        }
      }
    }
  }

  predicate EndsInGap(s: string) {
    s != "" && !AlphaNum(s[|s| - 1])
  }

  function DashIf(b: bool): string { if b then "-" else "" }

  /** Joined words, with a dash at the front and at the end for what was replaced there. */
  function Framed(ws: seq<string>, lead: bool, gap: bool): string {
    if ws == [] then DashIf(lead) else DashIf(lead) + Joined(ws) + DashIf(gap)
  }

  lemma GapAfterWord(word: string, later: seq<string>, gap: bool)
    ensures word + ("-" + Framed(later, false, gap)) == Framed([word] + later, false, later == [] || gap)
  {
    assert ([word] + later)[1..] == later;
    if later == [] {
      assert Joined([word] + later) == word;
      Gaps(word, "", "");
    } else {
      Gaps(word, Joined(later), DashIf(gap));
    }
  }

  lemma PushChar(a: string, c: char, b: string)
    ensures a + ([c] + b) == a + [c] + b
  {
  }

  lemma Gaps(word: string, j: string, end: string)
    ensures word + ("-" + ("" + j + end)) == "" + (word + "-" + j) + end
    ensures word + ("-" + "") == "" + word + "-"
  {
  }

  lemma GapAgain(later: seq<string>, lead: bool, gap: bool)
    ensures DashIf(lead) + Framed(later, false, gap) == Framed(later, lead, gap)
  {
  }

  /** The words at a character that is not in any. */
  lemma CollapsedGap(s: string, word: string, inRun: bool)
    requires s != "" && !AlphaNum(s[0]) && (inRun ==> word == "")
    requires Collapsed(s[1..], true) == Framed(Words(s[1..], ""), false, EndsInGap(s[1..]))
    ensures word + Collapsed(s, inRun) == Framed(Words(s, word), word == "" && !inRun, EndsInGap(s))
  {
    var rest := s[1..];
    var later, after := Words(rest, ""), Collapsed(rest, true);
    if later == [] { NoWordsGap(rest); } else { assert rest != ""; }
    assert later == [] || EndsInGap(s) == EndsInGap(rest);
    if word != "" {
      GapAfterWord(word, later, EndsInGap(rest));
    } else {
      assert [] + later == later;
      GapAgain(later, !inRun, EndsInGap(rest));
      assert word + Collapsed(s, inRun) == DashIf(!inRun) + after;
    }
  }

  /** The words at a character that is in one. */
  lemma CollapsedChar(s: string, word: string, inRun: bool)
    requires s != "" && AlphaNum(s[0])
    requires word + [s[0]] + Collapsed(s[1..], false) == Framed(Words(s[1..], word + [s[0]]), false, EndsInGap(s[1..]))
    ensures word + Collapsed(s, inRun) == Framed(Words(s, word), false, EndsInGap(s))
  {
    PushChar(word, s[0], Collapsed(s[1..], false));
    NoWords(s[1..], word + [s[0]]);
    if s[1..] == "" { assert s[|s| - 1] == s[0]; } else { assert s[|s| - 1] == s[1..][|s| - 2]; }
  }

  /** A collapsed text is its words, framed; `word` is the run just before the text. */
  lemma {:induction false} CollapsedWords(s: string, word: string, inRun: bool)
    requires forall i :: 0 <= i < |word| ==> AlphaNum(word[i])
    requires inRun ==> word == ""
    ensures word + Collapsed(s, inRun) ==
      Framed(Words(s, word), word == "" && s != "" && !AlphaNum(s[0]) && !inRun, EndsInGap(s))
    decreases |s|
  {
    if s == "" {
    } else {
      var rest := s[1..];
      if AlphaNum(s[0]) {
        CollapsedWords(rest, word + [s[0]], false);
        CollapsedChar(s, word, inRun);
      } else {
        CollapsedWords(rest, "", true);
        assert "" + Collapsed(rest, true) == Collapsed(rest, true);
        CollapsedGap(s, word, inRun);
      }
    }
  }

  lemma {:induction false} NoWordsGap(s: string)
    requires Words(s, "") == []
    ensures s != "" ==> EndsInGap(s)
    decreases |s|
  {
    if s == "" {
    } else {
      if AlphaNum(s[0]) { NoWords(s[1..], "" + [s[0]]); } else { NoWordsGap(s[1..]); }
    }
  }

  lemma NoWords(s: string, word: string)
    ensures word != "" ==> Words(s, word) != []
    decreases |s|
  {
    if s == "" || !AlphaNum(s[0]) {
    } else {
      NoWords(s[1..], word + [s[0]]);
    }
  }

  lemma TrimStartDash(lead: bool, s: string)
    requires s != "" && s[0] != '-'
    ensures TrimStart(DashIf(lead) + s) == s
  {
    if lead { assert (DashIf(lead) + s)[1..] == s; } else { assert DashIf(lead) + s == s; }
  }

  lemma TrimEndDash(s: string, gap: bool)
    requires s != "" && s[|s| - 1] != '-'
    ensures TrimEnd(s + DashIf(gap)) == s
  {
    if gap { assert (s + "-")[..|s|] == s; } else { assert s + DashIf(gap) == s; }
  }

  /** The collapsed and trimmed name is its runs of letters and digits, joined by single dashes. */
  lemma TrimmedIsWords(lowered: string)
    ensures TrimEnd(TrimStart(Collapsed(lowered, false))) == Joined(Words(lowered, ""))
    ensures AreWords(Words(lowered, ""))
  {
    var ws := Words(lowered, "");
    WordsAreWords(lowered, "");
    CollapsedWords(lowered, "", false);
    assert "" + Collapsed(lowered, false) == Collapsed(lowered, false);
    var lead, gap := lowered != "" && !AlphaNum(lowered[0]), EndsInGap(lowered);
    if ws != [] {
      JoinedShape(ws);
      var j := Joined(ws);
      assert Framed(ws, lead, gap) == DashIf(lead) + (j + DashIf(gap));
      TrimStartDash(lead, j + DashIf(gap));
      TrimEndDash(j, gap);
    } else if lead {
      assert "-"[1..] == "";
    }
  }

  /** The name's part of a slug: its joined runs, cut at 30 characters, or "org" if it has none. */
  lemma StemIsCutWords(lowered: string)
    ensures var j := Joined(Words(lowered, ""));
      Stem(lowered) == if j == "" then "org" else if |j| > 30 then j[..30] else j
  {
    TrimmedIsWords(lowered);
  }

  /** A name of lower-case letters and digits only is its own part of the slug, up to 30 characters. */
  lemma PlainNameKept(lowered: string)
    requires lowered != "" && forall i :: 0 <= i < |lowered| ==> 'a' <= lowered[i] <= 'z' || '0' <= lowered[i] <= '9'
    ensures Stem(lowered) == if |lowered| > 30 then lowered[..30] else lowered
  {
    StemIsCutWords(lowered);
    OneWord(lowered, "");
    assert "" + lowered == lowered;
  }

  lemma {:induction false} OneWord(s: string, word: string)
    requires word + s != "" && forall i :: 0 <= i < |s| ==> 'a' <= s[i] <= 'z' || '0' <= s[i] <= '9'
    ensures Words(s, word) == [word + s]
    decreases |s|
  {
    if s == "" {
      assert word + s == word;
    } else {
      assert word + [s[0]] + s[1..] == word + s;
      OneWord(s[1..], word + [s[0]]);
    }
  }

  /** Where a slug has two dashes in a row. */
  predicate DoubleDash(s: string, i: nat) {
    i + 1 < |s| && s[i] == '-' && s[i + 1] == '-'
  }

  lemma CutShape(j: string, n: nat)
    requires 1 <= n <= |j|
    requires forall i :: 0 <= i < |j| ==> AlphaNum(j[i]) || j[i] == '-'
    requires forall i :: 0 <= i < |j| - 1 ==> j[i] != '-' || j[i + 1] != '-'
    ensures forall i :: 0 <= i < n ==> AlphaNum(j[..n][i]) || j[..n][i] == '-'
    ensures forall i :: !DoubleDash(j[..n], i)
  {
    var cut := j[..n];
    forall i: nat ensures !DoubleDash(cut, i) {
      if i + 1 < n { assert cut[i] == j[i] && cut[i + 1] == j[i + 1]; }
    }
  }

  lemma StemShape(lowered: string)
    ensures 1 <= |Stem(lowered)| <= 30 && AlphaNum(Stem(lowered)[0])
    ensures forall i :: 0 <= i < |Stem(lowered)| ==> AlphaNum(Stem(lowered)[i]) || Stem(lowered)[i] == '-'
    ensures forall i :: !DoubleDash(Stem(lowered), i)
    ensures var j := Joined(Words(lowered, ""));
      var stem := Stem(lowered);
      stem[|stem| - 1] == '-' <==> |j| > 30 && j[29] == '-'
  {
    StemIsCutWords(lowered);
    TrimmedIsWords(lowered);
    var ws := Words(lowered, "");
    if ws != [] {
      JoinedShape(ws);
      var j, stem := Joined(ws), Stem(lowered);
      CutShape(j, |stem|);
      assert stem == j[..|stem|];
    }
  }

  /** Where text without two dashes in a row, a dash and text without dashes meet. */
  lemma DashesAtSuffix(stem: string, hex: string, i: nat)
    requires stem != "" && hex != "" && forall k :: 0 <= k < |hex| ==> hex[k] != '-'
    requires !DoubleDash(stem, i)
    ensures DoubleDash(stem + "-" + hex, i) <==> (stem[|stem| - 1] == '-' && i == |stem| - 1)
  {
    var slug := stem + "-" + hex;
    if i + 1 < |slug| {
      if i + 1 < |stem| {
        assert slug[i] == stem[i] && slug[i + 1] == stem[i + 1];
      } else if i < |stem| {
        assert slug[i] == stem[i] && slug[i + 1] == '-';
      } else if i == |stem| {
        assert slug[i + 1] == hex[0];
      } else {
        assert slug[i] == hex[i - |stem| - 1];
      }
    }
  }

  /** For every name a slug has 10 to 39 characters, all of them letters, digits and dashes, starts with a
      letter or a digit, and has two dashes in a row only where a name that was cut after a dash meets the
      suffix. */
  lemma SlugShape(lowered: string, random: seq<nat>)
    requires |random| == 4 && forall i :: 0 <= i < 4 ==> random[i] < 256
    ensures var slug := Stem(lowered) + "-" + Hex(random);
      && 10 <= |slug| <= 39 && slug[0] != '-'
      && (forall i :: 0 <= i < |slug| ==> 'a' <= slug[i] <= 'z' || '0' <= slug[i] <= '9' || slug[i] == '-')
      && (forall i :: DoubleDash(slug, i) <==>
            var j := Joined(Words(lowered, "")); |j| > 30 && j[29] == '-' && i == 29)
  {
    StemShape(lowered);
    var stem, hex := Stem(lowered), Hex(random);
    var slug := stem + "-" + hex;
    assert |hex| == 8;
    forall i: nat ensures DoubleDash(slug, i) <==> (stem[|stem| - 1] == '-' && i == |stem| - 1) {
      DashesAtSuffix(stem, hex, i);
    }
    StemIsCutWords(lowered);
  }

  /** Two digits for each byte, the higher one first. */
  lemma {:induction false} HexIs(bytes: seq<nat>, i: nat)
    requires i < |bytes| && forall k :: 0 <= k < |bytes| ==> bytes[k] < 256
    ensures Hex(bytes)[2 * i] == "0123456789abcdef"[bytes[i] / 16]
    ensures Hex(bytes)[2 * i + 1] == "0123456789abcdef"[bytes[i] % 16]
  {
    HexDigitIs(bytes[0] / 16);
    HexDigitIs(bytes[0] % 16);
    if i > 0 {
      HexIs(bytes[1..], i - 1);
      assert Hex(bytes)[2..] == Hex(bytes[1..]);
    }
  }

  lemma HexDigitIs(d: nat)
    requires d < 16
    ensures HexDigit(d) == "0123456789abcdef"[d]
  {
  }

  lemma {:induction false} HexInjective(a: seq<nat>, b: seq<nat>)
    requires |a| == |b| && forall i :: 0 <= i < |a| ==> a[i] < 256 && b[i] < 256
    ensures Hex(a) == Hex(b) ==> a == b
  {
    if a == [] || Hex(a) != Hex(b) {
    } else {
      assert Hex(a)[0] == Hex(b)[0] && Hex(a)[1] == Hex(b)[1];
      assert Hex(a)[2..] == Hex(a[1..]) && Hex(b)[2..] == Hex(b[1..]);
      HexInjective(a[1..], b[1..]);
      assert a == [a[0]] + a[1..] && b == [b[0]] + b[1..];
    }
  }

  /** Two slugs collide only if their random bytes do, whatever the names. */
  lemma SlugsCollideOnlyAtRandom(name: string, other: string, a: seq<nat>, b: seq<nat>)
    requires |a| == |b| == 4 && forall i :: 0 <= i < 4 ==> a[i] < 256 && b[i] < 256
    ensures Stem(name) + "-" + Hex(a) == Stem(other) + "-" + Hex(b) <==> Stem(name) == Stem(other) && a == b
  {
    var s, t := Stem(name) + "-" + Hex(a), Stem(other) + "-" + Hex(b);
    if s == t {
      assert s[|s| - 8..] == Hex(a) && t[|t| - 8..] == Hex(b);
      HexInjective(a, b);
      assert s[..|s| - 9] == Stem(name) && t[..|t| - 9] == Stem(other);
    }
  }
}
