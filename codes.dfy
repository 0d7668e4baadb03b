/**
 * The two order codes: the reference code `ORD-YYYYMMDD-XXXX` and the
 * six-character payment code, each drawn at random until it differs from
 * every code already stored.
 */
module Codes {
  import opened PyNumbers

  /** `string.ascii_uppercase + string.digits`: what each random character is drawn from. */
  const Alphabet: string := "ABCDEFGHIJKLMNOPQRSTUVWXYZ0123456789"

  const PaymentCodeLength: nat := 6
  const SuffixLength: nat := 4

  predicate IsCodeChar(c: char) {
    'A' <= c <= 'Z' || IsDigit(c)
  }

  /** `n` characters, each an upper-case letter or a digit. */
  predicate IsCode(s: string, n: nat) {
    |s| == n && forall k :: 0 <= k < |s| ==> IsCodeChar(s[k])
  }

  /** What `strftime('%Y%m%d')` produces for a four-digit year. */
  predicate IsDate8(d: string) {
    |d| == 8 && forall k :: 0 <= k < |d| ==> IsDigit(d[k])
  }

  /** The shape of a stored reference code. */
  predicate IsReferenceCode(code: string) {
    |code| == 17 && code[..4] == "ORD-" && IsDate8(code[4..12]) && code[12] == '-' && IsCode(code[13..], SuffixLength)
  }

  /** `f"ORD-{timestamp}-{random_suffix}"`; the date and the suffix can be read back from the code. */
  function ReferenceCode(date: string, suffix: string): (code: string)
    ensures |code| == |date| + |suffix| + 5
    ensures code[..4] == "ORD-" && code[4..4 + |date|] == date && code[4 + |date|] == '-' && code[5 + |date|..] == suffix
    ensures IsDate8(date) && IsCode(suffix, SuffixLength) ==> IsReferenceCode(code)
  {
    "ORD-" + date + "-" + suffix
  }

  /** One pass of the reference-code loop: the clock's date and the four random characters drawn. */
  datatype Attempt = Attempt(date: string, suffix: string)

  function AttemptCode(a: Attempt): string {
    ReferenceCode(a.date, a.suffix)
  }

  predicate WellFormedAttempts(attempts: seq<Attempt>) {
    forall k :: 0 <= k < |attempts| ==> IsDate8(attempts[k].date) && IsCode(attempts[k].suffix, SuffixLength)
  }

  predicate WellFormedDraws(draws: seq<string>) {
    forall k :: 0 <= k < |draws| ==> IsCode(draws[k], PaymentCodeLength)
  }

  /** `code` is the code of the first attempt whose code is not among `existing`. */
  predicate FirstFreeAttempt(attempts: seq<Attempt>, existing: set<string>, code: string) {
    exists k :: 0 <= k < |attempts| && code == AttemptCode(attempts[k]) && code !in existing
                && forall j :: 0 <= j < k ==> AttemptCode(attempts[j]) in existing
  }

  /** `code` is the first draw not among `existing`. */
  predicate FirstFreeDraw(draws: seq<string>, existing: set<string>, code: string) {
    exists k :: 0 <= k < |draws| && code == draws[k] && code !in existing
                && forall j :: 0 <= j < k ==> draws[j] in existing
  }

  /** With a single attempt, a free one is that attempt's code. */
  lemma FirstFreeSingleAttempt(a: Attempt, existing: set<string>, code: string)
    requires FirstFreeAttempt([a], existing, code)
    ensures code == AttemptCode(a)
  {
    var k :| 0 <= k < 1 && code == AttemptCode([a][k]) && code !in existing;
    assert [a][k] == a;
  }

  /** With a single draw, a free one is that draw. */
  lemma FirstFreeSingleDraw(d: string, existing: set<string>, code: string)
    requires FirstFreeDraw([d], existing, code)
    ensures code == d
  {
    var k :| 0 <= k < 1 && code == [d][k] && code !in existing;
    assert [d][k] == d;
  }

  /**
   * `generate_order_code()`: the loop's passes are `attempts`, in order, and it
   * returns the code of the first pass whose code is not among `existing`.
   * app.py loops until that happens, so a caller must supply such a pass.
   */
  method GenerateOrderCode(existing: set<string>, attempts: seq<Attempt>) returns (code: string)
    requires WellFormedAttempts(attempts)
    requires exists k :: 0 <= k < |attempts| && AttemptCode(attempts[k]) !in existing
    ensures IsReferenceCode(code) && code !in existing
    ensures FirstFreeAttempt(attempts, existing, code)
  {
    var i := 0;
    while true
      invariant 0 <= i < |attempts|
      invariant forall j :: 0 <= j < i ==> AttemptCode(attempts[j]) in existing
      invariant exists k :: i <= k < |attempts| && AttemptCode(attempts[k]) !in existing
      decreases |attempts| - i
    {
      code := ReferenceCode(attempts[i].date, attempts[i].suffix);
      if code !in existing {
        return;
      }
      i := i + 1;
    }
  }

  /**
   * `generate_payment_code()`: the random six-character draws are `draws`, in
   * order, and it returns the first one not among `existing`.
   */
  method GeneratePaymentCode(existing: set<string>, draws: seq<string>) returns (code: string)
    requires WellFormedDraws(draws)
    requires exists k :: 0 <= k < |draws| && draws[k] !in existing
    ensures IsCode(code, PaymentCodeLength) && code !in existing
    ensures FirstFreeDraw(draws, existing, code)
  {
    var i := 0;
    while true
      invariant 0 <= i < |draws|
      invariant forall j :: 0 <= j < i ==> draws[j] in existing
      invariant exists k :: i <= k < |draws| && draws[k] !in existing
      decreases |draws| - i
    {
      code := draws[i];
      if code !in existing {
        return;
      }
      i := i + 1;
    }
  }

  // Why the loops end: while fewer than 36^n codes of length n are in use,
  // some code of length n is free. The codes are numbered in base 36.

  function Pow36(n: nat): (p: nat)
    ensures p >= 1
  {
    if n == 0 then 1 else 36 * Pow36(n - 1)
  }

  function CodeCharOf(d: nat): (c: char)
    requires d < 36
    ensures IsCodeChar(c) && c == Alphabet[d]
  {
    if d < 26 then ('A' as int + d) as char else ('0' as int + d - 26) as char
  }

  function CodeCharValue(c: char): nat {
    if 'A' <= c <= 'Z' then c as int - 'A' as int
    else if IsDigit(c) then c as int - '0' as int + 26
    else 0
  }

  /** The code of length `n` that spells `k` in base 36 over the alphabet. */
  function CodeOf(k: nat, n: nat): (s: string)
    ensures IsCode(s, n)
  {
    if n == 0 then [] else CodeOf(k / 36, n - 1) + [CodeCharOf(k % 36)]
  }

  function CodeValue(s: string): nat {
    if s == [] then 0 else CodeValue(s[..|s| - 1]) * 36 + CodeCharValue(s[|s| - 1])
  }

  lemma {:induction false} CodeValueOfCodeOf(k: nat, n: nat)
    requires k < Pow36(n)
    ensures CodeValue(CodeOf(k, n)) == k
  {
    if n > 0 {
      var s := CodeOf(k, n);
      assert s[..|s| - 1] == CodeOf(k / 36, n - 1);
      assert k / 36 < Pow36(n - 1) by {
        assert k < 36 * Pow36(n - 1);
      }
      CodeValueOfCodeOf(k / 36, n - 1);
      assert CodeCharValue(CodeCharOf(k % 36)) == k % 36;
    }
  }

  /** The codes of length `n` numbered below `m`. */
  function Numbered(m: nat, n: nat): set<string> {
    if m == 0 then {} else Numbered(m - 1, n) + {CodeOf(m - 1, n)}
  }

  lemma {:induction false} NumberedValues(m: nat, n: nat, s: string)
    requires m <= Pow36(n) && s in Numbered(m, n)
    ensures CodeValue(s) < m
  {
    if s == CodeOf(m - 1, n) {
      CodeValueOfCodeOf(m - 1, n);
    } else {
      NumberedValues(m - 1, n, s);
    }
  }

  lemma {:induction false} NumberedSize(m: nat, n: nat)
    requires m <= Pow36(n)
    ensures |Numbered(m, n)| == m
  {
    if m > 0 {
      var prev := Numbered(m - 1, n);
      var c := CodeOf(m - 1, n);
      NumberedSize(m - 1, n);
      CodeValueOfCodeOf(m - 1, n);
      if c in prev {
        NumberedValues(m - 1, n, c);
        assert false;
      }
      assert |prev + {c}| == |prev| + 1;
    }
  }

  lemma {:induction false} SubsetSize(a: set<string>, b: set<string>)
    requires a <= b
    ensures |a| <= |b|
  {
    assert b == a + (b - a);
  }

  /** While fewer than 36^n codes are in use, some code of length `n` is free. */
  lemma {:induction false} FreeCodeExists(existing: set<string>, n: nat)
    requires |existing| < Pow36(n)
    ensures exists s :: IsCode(s, n) && s !in existing
  {
    var all := Numbered(Pow36(n), n);
    NumberedSize(Pow36(n), n);
    if all <= existing {
      SubsetSize(all, existing);
      assert false;
    }
    var s :| s in all && s !in existing;
    assert IsCode(s, n) by {
      NumberedAreCodes(Pow36(n), n, s);
    }
  }

  lemma {:induction false} NumberedAreCodes(m: nat, n: nat, s: string)
    requires s in Numbered(m, n)
    ensures IsCode(s, n)
  {
    if s != CodeOf(m - 1, n) {
      NumberedAreCodes(m - 1, n, s);
    }
  }

  /** The last four characters of the stored codes of reference-code length. */
  function Suffixes(existing: set<string>): set<string> {
    set c | c in existing && |c| == 17 :: c[13..]
  }

  lemma {:induction false} SuffixesSize(existing: set<string>)
    ensures |Suffixes(existing)| <= |existing|
    decreases |existing|
  {
    if existing != {} {
      var x :| x in existing;
      var rest := existing - {x};
      SuffixesSize(rest);
      var last: set<string> := if |x| == 17 then {x[13..]} else {};
      assert Suffixes(existing) <= Suffixes(rest) + last;
      SubsetSize(Suffixes(existing), Suffixes(rest) + last);
    }
  }

  /** The stored codes of reference-code length that carry `date` after the prefix. */
  function OnDate(existing: set<string>, date: string): set<string> {
    set c | c in existing && |c| == 17 && c[4..12] == date
  }

  /**
   * On any date, while fewer than 36^4 stored reference codes carry that
   * date, some suffix gives a reference code not in use, so the loop of
   * `generate_order_code()` can end.
   */
  lemma {:induction false} FreeReferenceCodeExists(existing: set<string>, date: string)
    requires IsDate8(date) && |OnDate(existing, date)| < Pow36(SuffixLength)
    ensures exists s :: IsCode(s, SuffixLength) && ReferenceCode(date, s) !in existing
  {
    var dated := OnDate(existing, date);
    SuffixesSize(dated);
    FreeCodeExists(Suffixes(dated), SuffixLength);
    var s :| IsCode(s, SuffixLength) && s !in Suffixes(dated);
    assert ReferenceCode(date, s) !in existing;
  }
}
