/** Unsigned decimal text of 64-bit values: strconv.FormatUint and ParseUint in base 10. */
module Decimals {
  import opened Options

  const TWO64: nat := 0x1_0000_0000_0000_0000

  predicate IsDigit(c: char) {
    '0' <= c <= '9'
  }

  predicate AllDigits(s: string) {
    forall i | 0 <= i < |s| :: IsDigit(s[i])
  }

  function Digit(d: nat): (c: char)
    requires d < 10
    ensures IsDigit(c)
  {
    (d + 48) as char
  }

  function Format(n: nat): (s: string) {
    if n < 10 then [Digit(n)] else Format(n / 10) + [Digit(n % 10)]
  }

  function Value(s: string): nat
    requires AllDigits(s)
  {
    if s == "" then 0 else 10 * Value(s[..|s| - 1]) + (s[|s| - 1] as int - 48)
  }

  /** Digits only, at least one, and within 64 bits; leading zeros are accepted. */
  function ParseUint(s: string): (r: Option<nat>) {
    if s == "" || !AllDigits(s) || Value(s) >= TWO64 then None else Some(Value(s))
  }

  /** The printed form: digits without a leading zero, save "0" itself. */
  predicate Canonical(s: string) {
    s != "" && AllDigits(s) && (s[0] == '0' ==> s == "0")
  }

  lemma {:induction false} ValueOfFormat(n: nat)
    ensures Canonical(Format(n)) && Value(Format(n)) == n
    ensures n > 0 ==> Format(n)[0] != '0'
  {
    var s := Format(n);
    if n >= 10 {
      ValueOfFormat(n / 10);
      assert s[..|s| - 1] == Format(n / 10);
    }
  }

  lemma {:induction false} FormatOfValue(s: string)
    requires Canonical(s)
    ensures Format(Value(s)) == s
    ensures s != "0" ==> Value(s) > 0
    decreases |s|
  {
    var k := |s| - 1;
    var init := s[..k];
    if k == 0 {
      assert Value(init) == 0;
    } else {
      assert init[0] == s[0];
      FormatOfValue(init);
      assert s == init + [s[k]];
    }
  }

  /** Parsing a printed 64-bit value gives the value back. */
  lemma ParseOfFormat(n: nat)
    requires n < TWO64
    ensures ParseUint(Format(n)) == Some(n)
  {
    ValueOfFormat(n);
  }
}
