/**
  The timestamp token: an ISO-8601 date and time truncated to whole seconds,
  `YYYY-MM-DDTHH:MM:SS`, and its reading back.
 */
module Timestamps {
  import opened Optional

  /** A UTC instant broken into calendar fields, as the clock reports it. */
  datatype Timestamp = Timestamp(year: int, month: int, day: int, hour: int, minute: int, second: int, millis: int)

  /** Field ranges of an instant whose ISO form has a four-digit year. */
  predicate Valid(t: Timestamp)
  {
    && 0 <= t.year <= 9999
    && 1 <= t.month <= 12
    && 1 <= t.day <= 31
    && 0 <= t.hour <= 23
    && 0 <= t.minute <= 59
    && 0 <= t.second <= 59
    && 0 <= t.millis <= 999
  }

  /** The instant with its sub-second part dropped. */
  function Truncated(t: Timestamp): Timestamp
  {
    t.(millis := 0)
  }

  predicate IsDigit(c: char)
  {
    '0' <= c <= '9'
  }

  function DigitChar(d: int): (c: char)
    requires 0 <= d <= 9
    ensures IsDigit(c)
  {
    ('0' as int + d) as char
  }

  function DigitValue(c: char): (d: int)
    requires IsDigit(c)
    ensures 0 <= d <= 9
  {
    c as int - '0' as int
  }

  /** Two decimal digits, zero-padded. */
  function Pad2(n: int): string
    requires 0 <= n <= 99
  {
    [DigitChar(n / 10), DigitChar(n % 10)]
  }

  /** Four decimal digits, zero-padded. */
  function Pad4(n: int): string
    requires 0 <= n <= 9999
  {
    Pad2(n / 100) + Pad2(n % 100)
  }

  /** The separator the ISO shape demands at position `i`, or `None` where a digit belongs. */
  function SeparatorAt(i: int): Option<char>
  {
    if i == 4 || i == 7 then Some('-')
    else if i == 10 then Some('T')
    else if i == 13 || i == 16 then Some(':')
    else None
  }

  predicate FitsAt(i: int, c: char)
  {
    match SeparatorAt(i)
    case Some(sep) => c == sep
    case None => IsDigit(c)
  }

  /** Nineteen characters shaped `dddd-dd-ddTdd:dd:dd`. */
  predicate IsoShape(s: string)
  {
    |s| == 19 && forall i :: 0 <= i < |s| ==> FitsAt(i, s[i])
  }

  /** The ISO-8601 text of an instant, truncated to whole seconds. */
  function Iso19(t: Timestamp): (s: string)
    requires Valid(t)
    ensures IsoShape(s)
  {
    Pad4(t.year) + ("-" + (Pad2(t.month) + ("-" + (Pad2(t.day) + ("T"
    + (Pad2(t.hour) + (":" + (Pad2(t.minute) + (":" + Pad2(t.second))))))))))
  }

  predicate AllDigits(s: string)
  {
    forall i :: 0 <= i < |s| ==> IsDigit(s[i])
  }

  /** The decimal value of a string of digits. */
  function Number(s: string): (n: nat)
    requires AllDigits(s)
  {
    if s == [] then 0 else Number(s[..|s| - 1]) * 10 + DigitValue(s[|s| - 1])
  }

  /** Reading an ISO timestamp back; anything not of that shape, or out of range, yields nothing. */
  function ParseIso19(s: string): (r: Option<Timestamp>)
    ensures r.Some? ==> IsoShape(s) && Valid(r.value) && r.value.millis == 0
  {
    if !IsoShape(s) then None
    else
      assert forall i :: 0 <= i < 19 && SeparatorAt(i).None? ==> IsDigit(s[i]) by {
        forall i | 0 <= i < 19 && SeparatorAt(i).None? ensures IsDigit(s[i]) { assert FitsAt(i, s[i]); }
      }
      var t := Timestamp(Number(s[0..4]), Number(s[5..7]), Number(s[8..10]),
                         Number(s[11..13]), Number(s[14..16]), Number(s[17..19]), 0);
      if Valid(t) then Some(t) else None
  }

  lemma NumberPad2(n: int)
    requires 0 <= n <= 99
    ensures AllDigits(Pad2(n)) && Number(Pad2(n)) == n
  {
    var p := Pad2(n);
    assert p[..1] == [p[0]];
    assert Number(p[..1]) == DigitValue(p[0]);
  }

  /** Appending two digits shifts the value by two decimal places. */
  lemma NumberAppend2(p: string, q: string)
    requires AllDigits(p) && AllDigits(q) && |q| == 2
    ensures AllDigits(p + q) && Number(p + q) == Number(p) * 100 + Number(q)
  {
    var s := p + q;
    assert s[..|s| - 1] == p + [q[0]];
    assert (p + [q[0]])[..|p|] == p;
    assert q[..|q| - 1] == [q[0]];
    assert [q[0]][..0] == [];
    assert Number([q[0]]) == DigitValue(q[0]);
    assert Number(q) == DigitValue(q[0]) * 10 + DigitValue(q[1]);
    assert Number(p + [q[0]]) == Number(p) * 10 + DigitValue(q[0]);
    assert Number(s) == Number(p + [q[0]]) * 10 + DigitValue(q[1]);
  }

  lemma NumberPad4(n: int)
    requires 0 <= n <= 9999
    ensures AllDigits(Pad4(n)) && Number(Pad4(n)) == n
  {
    NumberPad2(n / 100);
    NumberPad2(n % 100);
    NumberAppend2(Pad2(n / 100), Pad2(n % 100));
  }

  lemma Pad2Number(s: string)
    requires |s| == 2 && AllDigits(s)
    ensures Number(s) <= 99 && Pad2(Number(s)) == s
  {
    assert s[..|s| - 1] == s[..1];
    assert s[..1][..0] == [];
    assert Number(s[..1]) == DigitValue(s[0]);
    assert Number(s) == DigitValue(s[0]) * 10 + DigitValue(s[1]);
  }

  lemma Pad4Number(s: string)
    requires |s| == 4 && AllDigits(s)
    ensures Number(s) <= 9999 && Pad4(Number(s)) == s
  {
    var hi, lo := s[..2], s[2..];
    assert s == hi + lo;
    Pad2Number(hi);
    Pad2Number(lo);
    NumberAppend2(hi, lo);
    var n := Number(s);
    assert n / 100 == Number(hi) && n % 100 == Number(lo);
  }

  /** Reading back the rendered text recovers the instant, truncated to whole seconds. */
  lemma ParseIso19RoundTrip(t: Timestamp)
    requires Valid(t)
    ensures ParseIso19(Iso19(t)) == Some(Truncated(t))
  {
    var s := Iso19(t);
    assert s[0..4] == Pad4(t.year);
    assert s[5..7] == Pad2(t.month);
    assert s[8..10] == Pad2(t.day);
    assert s[11..13] == Pad2(t.hour);
    assert s[14..16] == Pad2(t.minute);
    assert s[17..19] == Pad2(t.second);
    NumberPad4(t.year);
    NumberPad2(t.month);
    NumberPad2(t.day);
    NumberPad2(t.hour);
    NumberPad2(t.minute);
    NumberPad2(t.second);
  }

  /** A nineteen-character string is its six digit groups joined by the characters between them. */
  lemma IsoPieces(s: string)
    requires |s| == 19
    ensures s == s[0..4] + ([s[4]] + (s[5..7] + ([s[7]] + (s[8..10] + ([s[10]]
                 + (s[11..13] + ([s[13]] + (s[14..16] + ([s[16]] + s[17..19])))))))))
  {
    assert s[16..] == [s[16]] + s[17..19];
    assert s[14..] == s[14..16] + s[16..];
    assert s[13..] == [s[13]] + s[14..];
    assert s[11..] == s[11..13] + s[13..];
    assert s[10..] == [s[10]] + s[11..];
    assert s[8..] == s[8..10] + s[10..];
    assert s[7..] == [s[7]] + s[8..];
    assert s[5..] == s[5..7] + s[7..];
    assert s[4..] == [s[4]] + s[5..];
    assert s == s[0..4] + s[4..];
  }

  /** Whatever parses is exactly the rendering of what it parses to. */
  lemma ParseIso19Sound(s: string)
    requires ParseIso19(s).Some?
    ensures Iso19(ParseIso19(s).value) == s
  {
    var t := ParseIso19(s).value;
    forall i | 0 <= i < 19 && SeparatorAt(i).None? ensures IsDigit(s[i]) { assert FitsAt(i, s[i]); }
    Pad4Number(s[0..4]);
    Pad2Number(s[5..7]);
    Pad2Number(s[8..10]);
    Pad2Number(s[11..13]);
    Pad2Number(s[14..16]);
    Pad2Number(s[17..19]);
    assert FitsAt(4, s[4]) && FitsAt(7, s[7]) && FitsAt(10, s[10]) && FitsAt(13, s[13]) && FitsAt(16, s[16]);
    assert [s[4]] == "-" && [s[7]] == "-" && [s[10]] == "T" && [s[13]] == ":" && [s[16]] == ":";
    IsoPieces(s);
  }
}
