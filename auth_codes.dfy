/** The six-digit email verification code. */
module AuthCodes {

  /** The number of digits `createCode` draws. */
  const CodeLength: nat := 6

  /** What `random.nextInt(10)` can return. */
  type Digit = d: int | 0 <= d < 10

  /** The character `StringBuilder.append(int)` writes for a one-digit number. */
  function DigitChar(d: Digit): (c: char)
    ensures '0' <= c <= '9'
    ensures DigitValue(c) == d
  {
    ('0' as int + d) as char
  }

  /** The number a decimal digit character stands for. */
  function DigitValue(c: char): int
  {
    c as int - '0' as int
  }

  /** A well-formed verification code: exactly six decimal digits. */
  predicate IsAuthCode(s: string)
  {
    |s| == CodeLength && forall i :: 0 <= i < |s| ==> '0' <= s[i] <= '9'
  }

  /** The text built from the first `n` draws of a generator, `draws(i)` being the i-th `nextInt(10)`. */
  function Rendered(draws: nat -> Digit, n: nat): string
  {
    if n == 0 then [] else Rendered(draws, n - 1) + [DigitChar(draws(n - 1))]
  }

  /** The rendered text has one decimal digit per draw, and each digit reads back as its draw. */
  lemma {:induction false} RenderedDigits(draws: nat -> Digit, n: nat)
    ensures |Rendered(draws, n)| == n
    ensures forall i :: 0 <= i < n ==>
      '0' <= Rendered(draws, n)[i] <= '9' && DigitValue(Rendered(draws, n)[i]) == draws(i)
  {
    if n > 0 {
      RenderedDigits(draws, n - 1);
      var prev := Rendered(draws, n - 1);
      assert Rendered(draws, n) == prev + [DigitChar(draws(n - 1))];
      forall i | 0 <= i < n
        ensures '0' <= Rendered(draws, n)[i] <= '9' && DigitValue(Rendered(draws, n)[i]) == draws(i)
      {
        if i < n - 1 {
          assert Rendered(draws, n)[i] == prev[i];
        }
      }
    }
  }

  /** Two generators yield the same code exactly when their first `n` draws agree. */
  lemma RenderedInjective(a: nat -> Digit, b: nat -> Digit, n: nat)
    ensures Rendered(a, n) == Rendered(b, n) <==> forall i :: 0 <= i < n ==> a(i) == b(i)
  {
    RenderedDigits(a, n);
    RenderedDigits(b, n);
    if forall i :: 0 <= i < n ==> a(i) == b(i) {
      RenderedAgree(a, b, n);
    }
  }

  lemma {:induction false} RenderedAgree(a: nat -> Digit, b: nat -> Digit, n: nat)
    requires forall i :: 0 <= i < n ==> a(i) == b(i)
    ensures Rendered(a, n) == Rendered(b, n)
  {
    if n > 0 {
      RenderedAgree(a, b, n - 1);
    }
  }
}
