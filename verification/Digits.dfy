/** Decimal digits, filled into a fixed buffer from its end. */
module Digits {
  import opened Wrappers

  function DigitChar(d: nat): (c: char)
    requires d < 10
    ensures '0' <= c <= '9' && (c as int - '0' as int) == d
  {
    ('0' as int + d) as char
  }

  /** The digits of a positive number; nothing for zero. */
  function Significant(n: nat): string {
    if n == 0 then "" else Significant(n / 10) + [DigitChar(n % 10)]
  }

  function Itoa(n: nat): string {
    if n == 0 then "0" else Significant(n)
  }

  function Pow10(k: nat): (p: nat)
    ensures p >= 1
  {
    if k == 0 then 1 else 10 * Pow10(k - 1)
  }

  predicate Fits(n: nat, digits: nat) {
    n < Pow10(digits)
  }

  lemma MaxIntFits(n: nat)
    requires n < 0x8000_0000_0000_0000
    ensures Fits(n, 19)
  {
    assert Pow10(9) == 1_000_000_000;
    assert Pow10(18) == 1_000_000_000_000_000_000;
  }

  lemma RoomLeft(n: nat, k: nat)
    requires n > 0 && Fits(n, k)
    ensures k >= 1 && Fits(n / 10, k - 1)
  {
  }

  /** One turn of the loop. */
  lemma NextDigit(n: nat, k: nat, tail: string)
    requires n > 0 && Fits(n, k)
    ensures k >= 1 && Fits(n / 10, k - 1)
    ensures Significant(n) + tail == Significant(n / 10) + ([DigitChar(n % 10)] + tail)
  {
    RoomLeft(n, k);
    ConcatAssoc(Significant(n / 10), [DigitChar(n % 10)], tail);
  }

  /** `itoa` for every non-negative 64-bit `int`: the 20 bytes are always enough. */
  method ItoaInBuffer(n0: nat) returns (r: string)
    requires n0 < 0x8000_0000_0000_0000
    ensures r == Itoa(n0)
  {
    if n0 == 0 {
      return "0";
    }
    var n: nat := n0;
    var buf := new char[20];
    var i := buf.Length;
    MaxIntFits(n);
    ConcatNil(Significant(n));
    ghost var tail := "";
    while n > 0
      invariant 1 <= i <= 20 && Fits(n, i - 1) && buf[i..] == tail
      invariant Significant(n0) == Significant(n) + tail
    {
      NextDigit(n, i - 1, tail);
      tail := [DigitChar(n % 10)] + tail;
      i := i - 1;
      buf[i] := DigitChar(n % 10);
      n := n / 10;
    }
    NilConcat(tail);
    return buf[i..];
  }

  /** Reads decimal digits; `None` for no digit or another character. */
  function Atoi(s: string): Option<nat> {
    if s == "" then None
    else
      var c := s[|s| - 1];
      if !('0' <= c <= '9') then None
      else
        var d := c as int - '0' as int;
        if |s| == 1 then Some(d)
        else match Atoi(s[..|s| - 1])
          case None => None
          case Some(n) => Some(10 * n + d)
  }

  lemma AtoiOneMore(front: string, d: nat)
    requires d < 10 && front != "" && Atoi(front).Some?
    ensures Atoi(front + [DigitChar(d)]) == Some(10 * Atoi(front).value + d)
  {
    var s := front + [DigitChar(d)];
    assert s[|s| - 1] == DigitChar(d) && s[..|s| - 1] == front;
  }

  lemma AtoiOne(d: nat)
    requires d < 10
    ensures Atoi([DigitChar(d)]) == Some(d)
  {
  }

  lemma {:induction false} SignificantReads(n: nat)
    requires n > 0
    ensures Significant(n) != "" && Atoi(Significant(n)) == Some(n)
  {
    if n < 10 {
      AtoiOne(n);
      assert Significant(n) == [DigitChar(n)];
    } else {
      SignificantReads(n / 10);
      AtoiOneMore(Significant(n / 10), n % 10);
    }
  }

  lemma {:induction false} SignificantDigits(n: nat)
    requires n > 0
    ensures Significant(n) != "" && Significant(n)[0] != '0'
    ensures forall c :: c in Significant(n) ==> '0' <= c <= '9'
  {
    var front, last := Significant(n / 10), DigitChar(n % 10);
    if n < 10 {
      assert Significant(n) == [last];
    } else {
      SignificantDigits(n / 10);
      assert Significant(n) == front + [last] && Significant(n)[0] == front[0];
    }
  }

  /** What is written reads back, has only digits, and has no leading zero. */
  lemma ItoaReads(n: nat)
    ensures Itoa(n) != "" && Atoi(Itoa(n)) == Some(n)
    ensures Itoa(n)[0] == '0' <==> n == 0
    ensures forall c :: c in Itoa(n) ==> '0' <= c <= '9'
  {
    if n > 0 {
      SignificantReads(n);
      SignificantDigits(n);
    }
  }
}
