/**
 * WriteInt and ReadInt: integers kept in a stream as twelve characters each, and the
 * small parser that reads them back.
 */
module PersistInt {
  import opened Wrappers
  import opened Words

  datatype HResult = S_OK | E_READ | VFW_E_INVALID_FILE_FORMAT

  // ---- Decimal notation ----

  function DigitChar(d: nat): (c: char)
    requires d < 10
    ensures IsDigit(c) && DigitValue(c) == d
  {
    ['0', '1', '2', '3', '4', '5', '6', '7', '8', '9'][d]
  }

  predicate IsDigit(c: char) { '0' <= c <= '9' }

  function DigitValue(c: char): (d: nat)
    requires IsDigit(c)
    ensures d < 10
  {
    (c - '0') as nat
  }

  /** The last `width` decimal digits of v, padded with zeros. */
  function Digits(v: nat, width: nat): (s: string)
    ensures |s| == width && AllDigits(s)
    decreases width
  {
    if width == 0 then "" else Digits(v / 10, width - 1) + [DigitChar(v % 10)]
  }

  predicate AllDigits(s: string) { forall i :: 0 <= i < |s| ==> IsDigit(s[i]) }

  function Value(s: string): nat
    requires AllDigits(s)
  {
    if s == "" then 0 else 10 * Value(s[..|s| - 1]) + DigitValue(s[|s| - 1])
  }

  function Pow10(k: nat): nat { if k == 0 then 1 else 10 * Pow10(k - 1) }

  lemma {:induction false} DigitsValue(v: nat, width: nat)
    requires v < Pow10(width)
    ensures Value(Digits(v, width)) == v
    decreases width
  {
    if width == 0 {
    } else {
      var s := Digits(v, width);
      assert s[..|s| - 1] == Digits(v / 10, width - 1);
      DigitsValue(v / 10, width - 1);
    }
  }

  /** The conversion "%011d ": a sign if negative, zeros up to eleven characters, and a space. */
  function Formatted(n: int32): (s: string)
    ensures |s| == 12
  {
    (if n < 0 then "-" + Digits(Abs(n), 10) else Digits(n, 11)) + " "
  }

  // ---- What the parser accepts ----

  predicate IsBlank(c: char) { c == ' ' || c == '\t' || c == '\r' || c == '\n' || c == '\0' }

  /** How many digits a text begins with. */
  function DigitRun(s: string): (k: nat)
    ensures k <= |s| && AllDigits(s[..k]) && (k < |s| ==> !IsDigit(s[k]))
  {
    if s == "" || !IsDigit(s[0]) then 0
    else
      var k := DigitRun(s[1..]);
      assert forall i :: 0 <= i < k + 1 ==> s[i] == if i == 0 then s[0] else s[1..][i - 1];
      k + 1
  }

  datatype Parsed = Parsed(hr: HResult, value: int32, rest: string)

  /** The number after the sign: digits up to a blank, modulo 2^32. */
  function ParseUnsigned(s: string, negative: bool): Parsed {
    var k := DigitRun(s);
    if k == |s| then Parsed(E_READ, 0, "")
    else if !IsBlank(s[k]) then Parsed(VFW_E_INVALID_FILE_FORMAT, 0, s[k + 1..])
    else Parsed(S_OK, ToS32(Signed(negative, Value(s[..k]))), s[k + 1..])
  }

  function Parse(s: string): Parsed {
    if s == "" then Parsed(E_READ, 0, "")
    else if s[0] == '-' then ParseUnsigned(s[1..], true)
    else ParseUnsigned(s, false)
  }

  // ---- The stream ----

  class IStream {
    var text: string   // what is left to read

    constructor (text: string)
      ensures this.text == text
    {
      this.text := text;
    }

    /** One character; reading past the end fails. */
    method Read(wch: char) returns (hr: HResult, c: char)
      modifies this
      ensures if old(text) == "" then hr == E_READ && c == wch && text == "" else hr == S_OK && old(text) == [c] + text
    {
      if text == "" {
        return E_READ, wch;
      }
      hr, c, text := S_OK, text[0], text[1..];
    }

    /** The digits from the last back, padded with zeros, and the space. */
    method FormatDigits(value: nat, width: nat) returns (buff: string)
      ensures buff == Digits(value, width) + " "
    {
      hide Digits;
      buff := " ";
      var v, i := value, 0;
      while i < width
        invariant 0 <= i <= width && Digits(value, width) + " " == Digits(v, width - i) + buff
      {
        DigitMoves(v, width - i, buff);
        buff := [DigitChar(v % 10)] + buff;
        v, i := v / 10, i + 1;
      }
      NoDigitsLeft(v, buff);
    }

    /** Digits, and in front of them the sign; what is written reads back as n. */
    method WriteInt(n: int32)
      modifies this
      ensures text == old(text) + Formatted(n)
      ensures text[|old(text)|..] == Formatted(n) && Parse(text[|old(text)|..]) == Parsed(S_OK, n, "")
    {
      hide Digits, Formatted, Parse;
      var buff := FormatDigits(Abs(n), if n < 0 then 10 else 11);
      FormattedIs(n);
      if n < 0 {
        buff := "-" + buff;
      }
      ReadUndoesWrite(n, "");
      assert Formatted(n) + "" == Formatted(n);
      text := text + buff;
    }

    /** The parser's loop, from the first character after the sign. */
    method ReadDigits(first: char) returns (n: uint32, hr: HResult)
      modifies this
      ensures var s := [first] + old(text);
        var k := DigitRun(s);
        if k == |s| then hr == E_READ && text == ""
        else text == s[k + 1..] && (hr == S_OK <==> IsBlank(s[k])) && hr != E_READ && (hr == S_OK ==> n == ToU32(Value(s[..k])))
    {
      hide ToU32, Value, IsDigit;
      var wch := first;
      ghost var s := [first] + text;
      ghost var k := 0;
      n, hr := 0, S_OK;
      NoDigits(s);
      while IsDigit(wch)
        invariant k < |s| && s[k] == wch && s[k + 1..] == text && AllDigits(s[..k])
        invariant n == ToU32(Value(s[..k])) && hr == S_OK
        decreases |text|
      {
        OneMore(s, k);
        n := ToU32(10 * n + DigitValue(wch));
        k := k + 1;
        hr, wch := Read(wch);
        if hr != S_OK {
          RunIs(s, k);
          return;
        }
      }
      RunIs(s, k);
      if !IsBlank(wch) {
        hr := VFW_E_INVALID_FILE_FORMAT;
      }
    }

    method ReadInt() returns (r: int32, hr: HResult)
      modifies this
      ensures Parsed(hr, r, text) == Parse(old(text))
    {
      hide ToS32, ToU32, DigitRun, Value, AllDigits, IsDigit, IsBlank;
      ghost var s := text;
      var negative := false;
      var wch: char := '0';
      hr, wch := Read(wch);
      if hr != S_OK {
        return 0, hr;
      }
      if wch == '-' {
        negative := true;
        hr, wch := Read(wch);
        if hr != S_OK {
          EmptyRun();
          assert s[1..] == "";
          return 0, hr;
        }
        assert s[1..] == [wch] + text;
      }
      s := [wch] + text;
      var n;
      n, hr := ReadDigits(wch);
      if hr != S_OK {
        return 0, hr;
      }
      SignedResult(Value(s[..DigitRun(s)]), negative);
      if n == 0x8000_0000 && negative {
        r := ToS32(n);
      } else {
        r := Signed(negative, ToS32(n));
      }
    }
  }

  lemma DigitMoves(v: nat, width: nat, rest: string)
    requires width > 0
    ensures Digits(v, width) + rest == Digits(v / 10, width - 1) + ([DigitChar(v % 10)] + rest)
  {
  }

  lemma NoDigitsLeft(v: nat, rest: string)
    ensures Digits(v, 0) + rest == rest
  {
  }

  lemma FormattedIs(n: int32)
    ensures Formatted(n) == if n < 0 then "-" + (Digits(Abs(n), 10) + " ") else Digits(Abs(n), 11) + " "
  {
  }

  lemma EmptyRun()
    ensures DigitRun("") == 0
  {
  }

  lemma NoDigits(s: string)
    ensures AllDigits(s[..0]) && ToU32(Value(s[..0])) == 0
  {
  }

  lemma OneMore(s: string, k: nat)
    requires k < |s| && AllDigits(s[..k]) && IsDigit(s[k])
    ensures AllDigits(s[..k + 1]) && ToU32(Value(s[..k + 1])) == ToU32(10 * ToU32(Value(s[..k])) + DigitValue(s[k]))
  {
    assert s[..k + 1][..k] == s[..k];
    AccumulateWraps(Value(s[..k]), DigitValue(s[k]));
  }

  lemma AccumulateWraps(v: nat, d: nat)
    ensures ToU32(10 * ToU32(v) + d) == ToU32(10 * v + d)
  {
    DivModDefinition(v, B32);
    DivModDefinition(10 * ToU32(v) + d, B32);
    var q := v / B32;
    assert 10 * v + d == (10 * q + (10 * ToU32(v) + d) / B32) * B32 + ToU32(10 * ToU32(v) + d);
    DivUnique(10 * v + d, B32, 10 * q + (10 * ToU32(v) + d) / B32, ToU32(10 * ToU32(v) + d));
  }

  /** Multiplying by the sign is exact except at the least int, which has no positive counterpart. */
  lemma SignedResult(v: nat, negative: bool)
    ensures var n := ToU32(v);
      if negative && n == 0x8000_0000 then ToS32(n) == ToS32(Signed(negative, v))
      else Signed(negative, ToS32(n)) == ToS32(Signed(negative, v))
  {
  }

  lemma RunIs(s: string, k: nat)
    requires k <= |s| && AllDigits(s[..k]) && (k < |s| ==> !IsDigit(s[k]))
    ensures DigitRun(s) == k
  {
    var j := DigitRun(s);
    forall i | 0 <= i < k
      ensures IsDigit(s[i])
    {
      assert s[..k][i] == s[i];
    }
    forall i | 0 <= i < j
      ensures IsDigit(s[i])
    {
      assert s[..j][i] == s[i];
    }
  }

  // ---- Round trips ----

  lemma ParseDigits(digits: string, rest: string, negative: bool)
    requires AllDigits(digits)
    ensures ParseUnsigned(digits + " " + rest, negative) ==
            Parsed(S_OK, ToS32(Signed(negative, Value(digits))), rest)
  {
    var s, k := digits + " " + rest, |digits|;
    assert s[..k] == digits && s[k + 1..] == rest;
    RunIs(s, k);
  }

  /** ReadInt undoes WriteInt for every 32-bit integer, the least one included, and reads exactly what was written. */
  lemma {:induction false} ReadUndoesWrite(n: int32, rest: string)
    ensures Parse(Formatted(n) + rest) == Parsed(S_OK, n, rest)
  {
    hide Digits, ParseUnsigned, ToS32, Value, DigitRun, IsDigit;
    assert Pow10(10) == 10_000_000_000 && Pow10(11) == 100_000_000_000;
    FitsItself(n);
    if n < 0 {
      DigitsValue(Abs(n), 10);
      ParseDigits(Digits(Abs(n), 10), rest, true);
      assert (Formatted(n) + rest)[1..] == Digits(Abs(n), 10) + " " + rest;
    } else {
      DigitsValue(n, 11);
      ParseDigits(Digits(n, 11), rest, false);
      NotASign(Digits(n, 11)[0]);
    }
  }

  /**
   * Reading any text, seen as a sign or none, digits, and what follows them. A blank there ends the
   * number, and is consumed with it; anything else is a format error, consumed too; and a text
   * that ends there is a read error. On an error the value is 0.
   */
  lemma {:induction false} ReadAnyText(negative: bool, digits: string, after: string)
    requires AllDigits(digits) && (after != "" ==> !IsDigit(after[0]))
    requires !negative && digits == "" && after != "" ==> after[0] != '-'
    ensures Parse((if negative then "-" else "") + digits + after) ==
            if after == "" then Parsed(E_READ, 0, "")
            else if after[0] in [' ', '\t', '\r', '\n', '\0'] then
              Parsed(S_OK, ToS32(if negative then -1 * Value(digits) else Value(digits)), after[1..])
            else Parsed(VFW_E_INVALID_FILE_FORMAT, 0, after[1..])
  {
    hide ToS32, Value;
    var s := digits + after;
    var text := (if negative then "-" else "") + digits + after;
    assert negative ==> text[1..] == s;
    assert !negative ==> text == s;
    RunIs(s, |digits|);
    assert s[..|digits|] == digits;
    assert after != "" ==> s[|digits|] == after[0] && s[|digits| + 1..] == after[1..];
  }

  lemma NotASign(c: char)
    ensures IsDigit(c) ==> c != '-'
  {
  }

  lemma FitsItself(n: int32)
    ensures ToS32(n) == n
  {
  }

  /** An unsigned value written through a cast comes back through the opposite cast. */
  lemma {:induction false} UnsignedSurvives(u: uint32, rest: string)
    ensures Parse(Formatted(ToS32(u)) + rest).hr == S_OK && ToU32(Parse(Formatted(ToS32(u)) + rest).value) == u
  {
    ReadUndoesWrite(ToS32(u), rest);
    DivUnique(u, B32, 0, u);
    if u >= 0x8000_0000 {
      DivUnique(u - B32, B32, -1, u);
    }
  }

  function WriteAll(ns: seq<int32>): string {
    if ns == [] then "" else Formatted(ns[0]) + WriteAll(ns[1..])
  }

  /** The integers `count` reads give, if all succeed, and what is left. */
  function ReadAll(s: string, count: nat): Option<(seq<int32>, string)>
    decreases count
  {
    if count == 0 then Some(([], s))
    else
      var p := Parse(s);
      if p.hr != S_OK then None
      else
        match ReadAll(p.rest, count - 1)
        case None => None
        case Some((ns, rest)) => Some(([p.value] + ns, rest))
  }

  /** Any sequence of integers is read back as written, twelve characters each, leaving what follows untouched. */
  lemma {:induction false} SequenceRoundTrip(ns: seq<int32>, rest: string)
    ensures ReadAll(WriteAll(ns) + rest, |ns|) == Some((ns, rest))
    ensures |WriteAll(ns)| == 12 * |ns|
    decreases |ns|
  {
    hide Formatted, Parse;
    if ns == [] {
      assert WriteAll(ns) + rest == rest;
    } else {
      assert WriteAll(ns) + rest == Formatted(ns[0]) + (WriteAll(ns[1..]) + rest);
      ReadUndoesWrite(ns[0], WriteAll(ns[1..]) + rest);
      SequenceRoundTrip(ns[1..], rest);
      assert ns == [ns[0]] + ns[1..];
    }
  }

  /** So two sequences written to equal text are equal. */
  lemma {:induction false} WritingIsInjective(a: seq<int32>, b: seq<int32>)
    requires WriteAll(a) == WriteAll(b)
    ensures a == b
  {
    SequenceRoundTrip(a, "");
    SequenceRoundTrip(b, "");
    assert WriteAll(a) + "" == WriteAll(b) + "";
  }
}
