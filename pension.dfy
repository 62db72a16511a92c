/** The pension-lottery draw, `generatePensionNumbers` (script.js:52-56):
    a group 1..5 and a six-digit zero-padded serial, written "<group>조 <serial>". */
module Pension {
  import opened Text
  import opened Random

  const GroupSuffix := "조 "
  const SerialWidth := 6

  /** The shape of a pension number: one group digit 1..5, "조", a space,
      and six ASCII digits. */
  predicate IsPensionNumber(s: string) {
    |s| == 3 + SerialWidth && '1' <= s[0] <= '5' && s[1..3] == GroupSuffix && AllDigits(s[3..])
  }

  /** `String(serial).padStart(6, '0')` is six digits that read back as the serial. */
  lemma PaddedSerial(serial: int)
    requires 0 <= serial <= 999999
    ensures var padded := PadStart(NatToString(serial), SerialWidth, '0');
      |padded| == SerialWidth && AllDigits(padded) && ParseDecimal(padded) == serial
  {
    var digits := NatToString(serial);
    assert Pow10(SerialWidth) == 1000000;
    NatToStringLength(serial, SerialWidth);
    ParseNatToString(serial);
    assert PadStart(digits, SerialWidth, '0') == Repeat('0', SerialWidth - |digits|) + digits;
    ParseLeadingZeros(SerialWidth - |digits|, digits);
  }

  /** The template literal `${group}조 ${serial}` with the serial padded by
      `padStart(6, '0')`. The text reads back as the group and the serial. */
  function PensionNumber(group: int, serial: int): (s: string)
    requires 1 <= group <= 5 && 0 <= serial <= 999999
    ensures IsPensionNumber(s)
    ensures DigitValue(s[0]) == group
    ensures ParseDecimal(s[3..]) == serial
  {
    var padded := PadStart(NatToString(serial), SerialWidth, '0');
    PaddedSerial(serial);
    var s := NatToString(group) + GroupSuffix + padded;
    assert s[3..] == padded;
    s
  }

  /** Two different draws never print the same. */
  lemma PensionNumberInjective(g1: int, v1: int, g2: int, v2: int)
    requires 1 <= g1 <= 5 && 0 <= v1 <= 999999
    requires 1 <= g2 <= 5 && 0 <= v2 <= 999999
    ensures PensionNumber(g1, v1) == PensionNumber(g2, v2) <==> g1 == g2 && v1 == v2
  {
  }

  /** `generatePensionNumbers()`, with its two `Math.random()` calls supplied. */
  function GeneratePensionNumbers(rGroup: real, rSerial: real): (s: string)
    requires IsUnit(rGroup) && IsUnit(rSerial)
    ensures IsPensionNumber(s)
  {
    PensionNumber(PensionGroup(rGroup), PensionSerial(rSerial))
  }

  /** The random value that draws `group`. */
  lemma GroupReachable(group: int)
    requires 1 <= group <= 5
    ensures IsUnit((group - 1) as real / 5.0) && PensionGroup((group - 1) as real / 5.0) == group
  {
    UniformIntReaches(group - 1, 5);
  }

  /** The random value that draws `serial`. */
  lemma SerialReachable(serial: int)
    requires 0 <= serial <= 999999
    ensures IsUnit(serial as real / 1000000.0) && PensionSerial(serial as real / 1000000.0) == serial
  {
    UniformIntReaches(serial, 1000000);
  }

  /** Every pension number is a possible draw. */
  lemma EveryPensionNumberReachable(group: int, serial: int)
    requires 1 <= group <= 5 && 0 <= serial <= 999999
    ensures IsUnit((group - 1) as real / 5.0) && IsUnit(serial as real / 1000000.0)
    ensures GeneratePensionNumbers((group - 1) as real / 5.0, serial as real / 1000000.0)
      == PensionNumber(group, serial)
  {
    GroupReachable(group);
    SerialReachable(serial);
  }
}
