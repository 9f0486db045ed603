/**
 * The text that `update_config` appends to the configuration file:
 * `last_read_message_id: N`, where `N` is Python's decimal rendering of an
 * integer (`f"{n}"`). Parsing is given as the partner of rendering, so that
 * what is appended is shown to carry the checkpoint exactly.
 */
module Text {
  import opened Wrappers

  predicate IsDigit(c: char) { '0' <= c <= '9' }

  predicate AllDigits(s: string) { forall i :: 0 <= i < |s| ==> IsDigit(s[i]) }

  function DigitChar(d: nat): (c: char)
    requires d < 10
    ensures IsDigit(c) && c as int - '0' as int == d
  {
    (d + '0' as int) as char
  }

  function DigitValue(c: char): nat
    requires IsDigit(c)
  {
    c as int - '0' as int
  }

  /** Decimal digits of `n`, most significant first, without leading zeros. */
  function Digits(n: nat): (s: string)
    ensures |s| >= 1 && AllDigits(s)
    ensures |s| > 1 ==> s[0] != '0'
    ensures n < 10 <==> |s| == 1
    decreases n
  {
    if n < 10 then [DigitChar(n)] else Digits(n / 10) + [DigitChar(n % 10)]
  }

  function ParseDigits(s: string): nat
    requires AllDigits(s)
  {
    if s == [] then 0 else 10 * ParseDigits(s[..|s| - 1]) + DigitValue(s[|s| - 1])
  }

  lemma {:induction false} ParseDigitsOfDigits(n: nat)
    ensures ParseDigits(Digits(n)) == n
    decreases n
  {
    if n >= 10 {
      var s := Digits(n);
      assert s[..|s| - 1] == Digits(n / 10);
      ParseDigitsOfDigits(n / 10);
    }
  }

  /** Python's `str(n)` for an integer `n`. */
  function IntText(n: int): (s: string)
    ensures |s| >= 1 && forall i :: 0 <= i < |s| ==> s[i] == '-' || IsDigit(s[i])
  {
    if n < 0 then "-" + Digits(-n) else Digits(n)
  }

  function ParseInt(s: string): Option<int>
  {
    if |s| >= 2 && s[0] == '-' && AllDigits(s[1..]) then
      var magnitude: int := ParseDigits(s[1..]);
      Some(-magnitude)
    else if |s| >= 1 && AllDigits(s) then Some(ParseDigits(s))
    else None
  }

  /** Rendering an integer and parsing it back gives the integer. */
  lemma IntTextRoundTrip(n: int)
    ensures ParseInt(IntText(n)) == Some(n)
  {
    if n < 0 {
      MinusDigitsRoundTrip(-n);
    } else {
      var s := Digits(n);
      assert IsDigit(s[0]);
      ParseDigitsOfDigits(n);
    }
  }

  lemma MinusDigitsRoundTrip(m: nat)
    ensures ParseInt("-" + Digits(m)) == Some(-(m as int))
  {
    var s := "-" + Digits(m);
    assert s[1..] == Digits(m);
    ParseDigitsOfDigits(m);
  }

  /** Rendering is injective: distinct checkpoints give distinct text. */
  lemma IntTextInjective(m: int, n: int)
    requires IntText(m) == IntText(n)
    ensures m == n
  {
    IntTextRoundTrip(m);
    IntTextRoundTrip(n);
  }

  const CheckpointKey: string := "last_read_message_id: "

  /** The text one save appends (message_forwarder.py:48); it carries no line break. */
  function CheckpointRecord(n: int): (s: string)
    ensures |s| > |CheckpointKey| && s[..|CheckpointKey|] == CheckpointKey
    ensures forall i :: 0 <= i < |s| ==> s[i] != '\n'
  {
    var key, digits := CheckpointKey, IntText(n);
    assert forall i :: 0 <= i < |key| ==> key[i] != '\n';
    assert forall i :: |key| <= i < |key + digits| ==> (key + digits)[i] == digits[i - |key|];
    key + digits
  }

  function ParseCheckpointRecord(s: string): Option<int>
  {
    if |s| >= |CheckpointKey| && s[..|CheckpointKey|] == CheckpointKey
    then ParseInt(s[|CheckpointKey|..])
    else None
  }

  /** A saved record reads back as the checkpoint it was written for. */
  lemma CheckpointRecordRoundTrip(n: int)
    ensures ParseCheckpointRecord(CheckpointRecord(n)) == Some(n)
  {
    assert CheckpointRecord(n)[|CheckpointKey|..] == IntText(n);
    IntTextRoundTrip(n);
  }
}
