/**
 * Classification of HTTP status codes. Creation calls accept exactly 201;
 * reads and updates accept any code whose decimal text starts with `2`
 * (`str(response.status_code).startswith('2')`).
 */
module Status {
  import opened Text

  const Created := 201
  const Conflict := 409

  function DigitChar(d: nat): char
    requires d < 10
  {
    ('0' as int + d) as char
  }

  /** The decimal digits of `n`, most significant first, without leading zeros. */
  function Digits(n: nat): (s: string)
    ensures |s| >= 1
  {
    if n < 10 then [DigitChar(n)] else Digits(n / 10) + [DigitChar(n % 10)]
  }

  /** `str(n)` for a Python `int`. */
  function Str(n: int): string {
    if n < 0 then "-" + Digits(-n) else Digits(n)
  }

  /** The leading decimal digit of `n`. */
  function LeadingDigit(n: nat): (d: nat)
    ensures d < 10
    ensures n > 0 ==> d > 0
  {
    if n < 10 then n else LeadingDigit(n / 10)
  }

  function Pow10(k: nat): (p: nat)
    ensures p >= 1
  {
    if k == 0 then 1 else 10 * Pow10(k - 1)
  }

  /** `str(code).startswith('2')`: the test of `get_registration`, `update_registration` and `validate_authorization`. */
  predicate IsSuccess(code: int) {
    StartsWith(Str(code), "2")
  }

  /** `code == 201`: the test of `register`, `new_authorization` and `issue_certificate`. */
  predicate IsCreated(code: int) {
    code == Created
  }

  /** The first character of the decimal text is the leading digit. */
  lemma {:induction false} FirstDigit(n: nat)
    ensures Digits(n)[0] == DigitChar(LeadingDigit(n))
  {
    if n >= 10 {
      FirstDigit(n / 10);
    }
  }

  /** A code succeeds exactly when it is non-negative and its leading digit is 2. */
  lemma SuccessIsLeadingTwo(code: int)
    ensures IsSuccess(code) <==> code >= 0 && LeadingDigit(code) == 2
  {
    if code >= 0 {
      FirstDigit(code);
      assert Str(code)[..1] == [Str(code)[0]];
    }
  }

  /** Between `10^k` and `10^(k+1)` the leading digit is the quotient by `10^k`. */
  lemma {:induction false} LeadingDigitOfRange(n: nat, k: nat)
    requires Pow10(k) <= n < Pow10(k + 1)
    ensures LeadingDigit(n) * Pow10(k) <= n < (LeadingDigit(n) + 1) * Pow10(k)
  {
    if k == 0 {
      assert n < 10;
    } else {
      var p := Pow10(k - 1);
      assert Pow10(k) == 10 * p && Pow10(k + 1) == 10 * (10 * p);
      var q := n / 10;
      assert 10 * q <= n < 10 * q + 10;
      assert p <= q < 10 * p;
      LeadingDigitOfRange(q, k - 1);
      var d := LeadingDigit(q);
      assert LeadingDigit(n) == d;
      MulBounds(d, p, q);
    }
  }

  /** `d * p <= q < (d + 1) * p` scales by ten and absorbs the last digit of `n`. */
  lemma MulBounds(d: nat, p: nat, q: nat)
    requires d * p <= q < (d + 1) * p
    ensures d * (10 * p) <= 10 * q && 10 * q + 10 <= (d + 1) * (10 * p)
  {
    assert d * (10 * p) == 10 * (d * p);
    assert (d + 1) * (10 * p) == 10 * ((d + 1) * p);
  }

  /** Among the codes with `k + 1` digits, exactly those from `2 * 10^k` to below `3 * 10^k` succeed. */
  lemma SuccessRange(code: int, k: nat)
    requires Pow10(k) <= code < Pow10(k + 1)
    ensures IsSuccess(code) <==> 2 * Pow10(k) <= code < 3 * Pow10(k)
  {
    SuccessIsLeadingTwo(code);
    LeadingDigitOfRange(code, k);
    var d := LeadingDigit(code);
    if d < 2 {
      assert (d + 1) * Pow10(k) <= 2 * Pow10(k);
    } else if d > 2 {
      assert 3 * Pow10(k) <= d * Pow10(k);
    }
  }

  /** For three-digit codes the test is exactly the 2xx class of RFC 7231 section 6.3. */
  lemma SuccessThreeDigits(code: int)
    requires 100 <= code <= 999
    ensures IsSuccess(code) <==> 200 <= code <= 299
  {
    assert Pow10(2) == 100 && Pow10(3) == 1000;
    SuccessRange(code, 2);
  }

  /** The test also lets through codes of other lengths that start with 2, and rejects negative codes such as -200. */
  lemma SuccessOtherLengths()
    ensures IsSuccess(2) && IsSuccess(20) && IsSuccess(2000)
    ensures !IsSuccess(1) && !IsSuccess(30) && !IsSuccess(-200)
  {
    SuccessIsLeadingTwo(2);
    SuccessIsLeadingTwo(20);
    SuccessIsLeadingTwo(2000);
    SuccessIsLeadingTwo(1);
    SuccessIsLeadingTwo(30);
    SuccessIsLeadingTwo(-200);
  }

  /** A creation success is also a read success; 409 is neither. */
  lemma CreatedIsSuccess(code: int)
    ensures IsCreated(code) ==> IsSuccess(code)
    ensures !IsCreated(Conflict) && !IsSuccess(Conflict)
  {
    SuccessThreeDigits(Created);
    SuccessThreeDigits(Conflict);
  }
}
