/** The decimal options of the command line (`RuntimeConfig`). */
module RuntimeConfigs {
  import opened Text

  predicate AllDigits(s: string) {
    forall i :: 0 <= i < |s| ==> IsDigit(s[i])
  }

  /** The texts a bounded option accepts. */
  predicate Denotes(value: string, maximum: nat) {
    value != "" && AllDigits(value) && DecimalValue(value) <= maximum
  }

  lemma {:induction false} MoreDigitsAreLarger(value: string, i: nat)
    requires AllDigits(value) && i <= |value|
    ensures DecimalValue(value[..i]) <= DecimalValue(value)
    decreases |value| - i
  {
    if i < |value| {
      var longer := value[..i + 1];
      assert longer[..|longer| - 1] == value[..i];
      assert DecimalValue(value[..i]) <= DecimalValue(longer);
      MoreDigitsAreLarger(value, i + 1);
    } else {
      assert value[..i] == value;
    }
  }

  lemma NoDigits()
    ensures DecimalValue("") == 0
  {}

  lemma NextDigit(value: string, i: nat)
    requires i < |value| && AllDigits(value[..i + 1])
    ensures DecimalValue(value[..i + 1]) == 10 * DecimalValue(value[..i]) + (value[i] as int - '0' as int)
  {
    assert value[..i + 1][..i] == value[..i];
  }

  lemma Unwrapped(n: nat, modulus: nat)
    requires n < modulus
    ensures n % modulus == n
  {}

  lemma PrefixTooLarge(value: string, i: nat, maximum: nat)
    requires i <= |value| && AllDigits(value[..i]) && DecimalValue(value[..i]) > maximum
    ensures !Denotes(value, maximum)
  {
    if AllDigits(value) {
      MoreDigitsAreLarger(value, i);
    }
  }

  /** The test made before multiplying is exact: it fails just when the longer number passes the maximum. */
  lemma ExactTest(parsed: nat, digit: nat, maximum: nat)
    requires digit < 10
    ensures parsed > maximum / 10 || (parsed == maximum / 10 && digit > maximum % 10) <==> 10 * parsed + digit > maximum
  {}

  /** `parseUnsignedDecimal` for a machine type of `modulus` values: accepted exactly when the text denotes
      a number within the maximum, and then the number itself, so the arithmetic never wraps. */
  method ParseUnsigned(value: string, maximum: nat, modulus: nat) returns (r: Option<nat>)
    requires maximum < modulus
    ensures r.Some? <==> Denotes(value, maximum)
    ensures r.Some? ==> r.value == DecimalValue(value)
  {
    hide DecimalValue;
    if value == "" {
      return None;
    }
    var parsed: nat := 0;
    assert value[..0] == "";
    NoDigits();
    for i := 0 to |value|
      invariant AllDigits(value[..i]) && parsed == DecimalValue(value[..i]) <= maximum
    {
      if value[i] < '0' || value[i] > '9' {
        return None;
      }
      var digit := value[i] as int - '0' as int;
      NextDigit(value, i);
      ExactTest(parsed, digit, maximum);
      if parsed > maximum / 10 || (parsed == maximum / 10 && digit > maximum % 10) {
        PrefixTooLarge(value, i + 1, maximum);
        return None;
      }
      Unwrapped(parsed * 10 + digit, modulus);
      parsed := (parsed * 10 + digit) % modulus;
    }
    assert value[..|value|] == value;
    return Some(parsed);
  }

  method ParsePort(value: string) returns (r: Option<nat>)
    ensures r.Some? <==> Denotes(value, 65535) && DecimalValue(value) != 0
    ensures r.Some? ==> r.value == DecimalValue(value)
  {
    r := ParseUnsigned(value, 65535, 65536);
    if r == Some(0) {
      return None;
    }
  }

  method ParsePositiveInt(value: string) returns (r: Option<nat>)
    ensures r.Some? <==> Denotes(value, 86400) && DecimalValue(value) != 0
    ensures r.Some? ==> r.value == DecimalValue(value)
  {
    r := ParseUnsigned(value, 86400, 0x1_0000_0000);
    if r == Some(0) {
      return None;
    }
  }
}
