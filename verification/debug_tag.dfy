/**
 * The debug tag of a snapshot (`GetDebugNumberSet`): the text
 * ` (#<source context id>.<local function id>), #<function number>`, in which
 * the source context id, an unsigned 32-bit value, is printed as a signed
 * 32-bit one and the other two as unsigned ones.
 */
module DebugTag {
  import opened JitTimeSnapshot

  const Two32: int := 0x1_0000_0000
  const Two31: int := 0x8000_0000

  predicate IsDigit(c: char)
  {
    '0' as int <= c as int <= '9' as int
  }

  /** The character of decimal digit `n`. */
  function Digit(n: nat): (c: char)
    requires n < 10
    ensures IsDigit(c) && c as int - '0' as int == n
  {
    ('0' as int + n) as char
  }

  /** The decimal text of `n`, without leading zeros. */
  function Decimal(n: nat): (s: string)
    ensures |s| >= 1 && forall i :: 0 <= i < |s| ==> IsDigit(s[i])
    decreases n
  {
    if n < 10 then [Digit(n)] else Decimal(n / 10) + [Digit(n % 10)]
  }

  /** The value of a text of decimal digits. */
  function DecimalValue(s: string): nat
    requires forall i :: 0 <= i < |s| ==> IsDigit(s[i])
  {
    if s == [] then 0
    else
      assert IsDigit(s[|s| - 1]);
      DecimalValue(s[..|s| - 1]) * 10 + (s[|s| - 1] as int - '0' as int)
  }

  /** Reading the decimal text of `n` gives back `n`. */
  lemma {:induction false} DecimalRoundTrip(n: nat)
    ensures DecimalValue(Decimal(n)) == n
    decreases n
  {
    if n >= 10 {
      var s := Decimal(n);
      assert s[..|s| - 1] == Decimal(n / 10);
      DecimalRoundTrip(n / 10);
    }
  }

  /** A value below `10^k` has at most `k` decimal digits. */
  lemma {:induction false} DecimalLength(n: nat, k: nat)
    requires 1 <= k && n < Pow10(k)
    ensures |Decimal(n)| <= k
    decreases k
  {
    if n >= 10 {
      assert k >= 2;
      DecimalLength(n / 10, k - 1);
    }
  }

  function Pow10(k: nat): (p: nat)
    ensures p >= 1
  {
    if k == 0 then 1 else 10 * Pow10(k - 1)
  }

  /** The signed 32-bit reading of an unsigned 32-bit value. */
  function AsInt32(u: nat): (v: int)
    requires u < Two32
    ensures -Two31 <= v < Two31
    ensures (v - u) % Two32 == 0
  {
    if u < Two31 then u else u - Two32
  }

  /** Signed decimal text: a minus sign before the magnitude of a negative value. */
  function SignedDecimal(v: int): (s: string)
    ensures |s| >= 1
  {
    if v < 0 then "-" + Decimal(-v) else Decimal(v)
  }

  /** The debug tag of a node with a body whose three numbers are 32-bit values. Its fixed text
      is 8 characters and each number adds at least one digit, so it is longer than 8; it holds
      at most 11 + 10 + 10 characters of numbers. */
  function GetDebugNumberSet(d: JitTimeData): (r: string)
    requires d.bodyData.Some?
    requires d.bodyData.value.sourceContextId < Two32 && d.localFuncId < Two32 && d.bodyData.value.functionNumber < Two32
    ensures 8 < |r| <= 8 + 11 + 10 + 10
  {
    var sourceContext := SignedDecimal(AsInt32(d.bodyData.value.sourceContextId));
    var localId := Decimal(d.localFuncId);
    var number := Decimal(d.bodyData.value.functionNumber);
    DecimalLength(if AsInt32(d.bodyData.value.sourceContextId) < 0 then -AsInt32(d.bodyData.value.sourceContextId)
                  else AsInt32(d.bodyData.value.sourceContextId), 10);
    DecimalLength(d.localFuncId, 10);
    DecimalLength(d.bodyData.value.functionNumber, 10);
    " (#" + sourceContext + "." + localId + "), #" + number
  }

  /** The tag of a node with source context 3, local id 12 and function number 99. */
  lemma DebugNumberSetExample(d: JitTimeData)
    requires d.bodyData.Some?
    requires d.bodyData.value.sourceContextId == 3 && d.localFuncId == 12 && d.bodyData.value.functionNumber == 99
    ensures GetDebugNumberSet(d) == " (#3.12), #99"
  {
    assert Decimal(12) == "12";
    assert Decimal(99) == "99";
  }

  /** A source context id at or above `2^31` prints as a negative number. */
  lemma DebugNumberSetNegativeContext(d: JitTimeData)
    requires d.bodyData.Some?
    requires d.bodyData.value.sourceContextId == 0xFFFF_FFFF && d.localFuncId == 0 && d.bodyData.value.functionNumber == 7
    ensures GetDebugNumberSet(d) == " (#-1.0), #7"
  {
  }
}
