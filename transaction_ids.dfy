/**
 * The transaction id of an import: `parseInt(message.match(/\d+/g))` in
 * PerformanceTests/utils.js. The match list turns into the string of its runs joined by
 * commas, so `parseInt` reads the first run of ASCII digits; with no digit the list is `null`
 * and the id is NaN (`None`).
 */
module TransactionIds {
  import opened Wrappers

  /** JavaScript's `\d` without the `u` flag. */
  predicate IsDigit(c: char) {
    '0' <= c <= '9'
  }

  predicate AllDigits(s: string) {
    forall k :: 0 <= k < |s| ==> IsDigit(s[k])
  }

  predicate NoDigit(s: string) {
    forall k :: 0 <= k < |s| ==> !IsDigit(s[k])
  }

  /** Index of the first digit of `s`, or `|s|`. */
  function FirstDigit(s: string): (i: nat)
    ensures i <= |s|
    ensures NoDigit(s[..i])
    ensures i < |s| ==> IsDigit(s[i])
  {
    if s == [] || IsDigit(s[0]) then 0
    else
      var i := 1 + FirstDigit(s[1..]);
      assert s[..i] == [s[0]] + s[1..][..i - 1];
      i
  }

  /** End of the maximal digit run that starts at `i`. */
  function RunEnd(s: string, i: nat): (j: nat)
    requires i <= |s|
    ensures i <= j <= |s|
    ensures AllDigits(s[i..j])
    ensures j < |s| ==> !IsDigit(s[j])
    decreases |s| - i
  {
    if i == |s| || !IsDigit(s[i]) then i
    else
      var j := RunEnd(s, i + 1);
      assert s[i..j] == [s[i]] + s[i + 1..j];
      j
  }

  function DigitValue(c: char): nat
    requires IsDigit(c)
  {
    (c as int - '0' as int) as nat
  }

  /** The value `parseInt` gives a string of decimal digits. */
  function DecimalValue(ds: string): nat
    requires AllDigits(ds)
  {
    if ds == [] then 0
    else DecimalValue(ds[..|ds| - 1]) * 10 + DigitValue(ds[|ds| - 1])
  }

  /** The decimal rendering of `n`, without leading zeros. */
  function Decimal(n: nat): (ds: string)
    ensures |ds| >= 1 && AllDigits(ds)
  {
    var d := ['0' + (n % 10) as char];
    if n < 10 then d else Decimal(n / 10) + d
  }

  /** The first maximal run of digits in `s` is `s[i..j]`. */
  predicate FirstRun(s: string, i: nat, j: nat) {
    i < j <= |s| && NoDigit(s[..i]) && AllDigits(s[i..j]) && (j < |s| ==> !IsDigit(s[j]))
  }

  /** The id sent in every status request. */
  function TransactionId(message: string): (id: Option<nat>)
    ensures id.None? <==> NoDigit(message)
    ensures id.Some? ==> exists i: nat, j: nat :: FirstRun(message, i, j) && id.value == DecimalValue(message[i..j])
  {
    var i := FirstDigit(message);
    if i == |message| then
      assert message[..i] == message;
      None
    else
      var j := RunEnd(message, i);
      assert FirstRun(message, i, j);
      Some(DecimalValue(message[i..j]))
  }

  /** `parseInt` reads back what `Decimal` renders. */
  lemma {:induction false} DecimalRoundTrip(n: nat)
    ensures DecimalValue(Decimal(n)) == n
  {
    var ds := Decimal(n);
    if n >= 10 {
      DecimalRoundTrip(n / 10);
      assert ds[..|ds| - 1] == Decimal(n / 10);
    }
  }

  /** A message that mentions the id after a digit-free prefix yields exactly that id. */
  lemma TransactionIdOfMessage(prefix: string, n: nat, suffix: string)
    requires NoDigit(prefix)
    requires suffix == [] || !IsDigit(suffix[0])
    ensures TransactionId(prefix + Decimal(n) + suffix) == Some(n)
  {
    var s := prefix + Decimal(n) + suffix;
    var i, j := |prefix|, |prefix| + |Decimal(n)|;
    assert s[..i] == prefix;
    assert s[i..j] == Decimal(n);
    assert IsDigit(s[i]) by { assert s[i] == Decimal(n)[0]; }
    assert j < |s| ==> !IsDigit(s[j]) by { assert j < |s| ==> s[j] == suffix[0]; }
    FirstDigitAt(s, i);
    RunEndAt(s, i, j);
    DecimalRoundTrip(n);
  }

  /** `FirstDigit` is determined by its contract. */
  lemma FirstDigitAt(s: string, i: nat)
    requires i < |s| && NoDigit(s[..i]) && IsDigit(s[i])
    ensures FirstDigit(s) == i
  {
    var f := FirstDigit(s);
    forall k | 0 <= k < i ensures !IsDigit(s[k]) {
      assert s[..i][k] == s[k];
    }
    forall k | 0 <= k < f ensures !IsDigit(s[k]) {
      assert s[..f][k] == s[k];
    }
  }

  /** `RunEnd` is determined by its contract. */
  lemma RunEndAt(s: string, i: nat, j: nat)
    requires i <= j <= |s| && AllDigits(s[i..j]) && (j < |s| ==> !IsDigit(s[j]))
    ensures RunEnd(s, i) == j
  {
    var r := RunEnd(s, i);
    forall k | i <= k < j ensures IsDigit(s[k]) {
      assert s[i..j][k - i] == s[k];
    }
    forall k | i <= k < r ensures IsDigit(s[k]) {
      assert s[i..r][k - i] == s[k];
    }
  }
}
