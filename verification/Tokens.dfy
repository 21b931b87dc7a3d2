/** Paging tokens travel as decimal strings: strconv.FormatInt on the way out,
    strconv.ParseInt with bit size 32 on the way in. */
module Tokens {
  import opened Wrappers

  predicate IsDigit(c: char) {
    '0' <= c <= '9'
  }

  function DigitChar(d: nat): char
    requires d < 10
  {
    ('0' as int + d) as char
  }

  function Digits(n: nat): string {
    if n < 10 then [DigitChar(n)] else Digits(n / 10) + [DigitChar(n % 10)]
  }

  function Format(n: int): string {
    if n < 0 then "-" + Digits(-n) else Digits(n)
  }

  /** The number a string of digits spells; None if some character is not a digit. */
  function DigitsValue(s: string): Option<nat> {
    if s == "" then Some(0) else
    var last := s[|s| - 1];
    match DigitsValue(s[..|s| - 1])
    case Some(v) => if IsDigit(last) then Some(10 * v + (last as int - '0' as int)) else None
    case None => None
  }

  function Parse(s: string): Option<int32> {
    if s == "" then None else
    var signed := s[0] == '-' || s[0] == '+';
    var body := if signed then s[1..] else s;
    if body == "" then None else
    match DigitsValue(body)
    case None => None
    case Some(v) =>
      var n: int := if s[0] == '-' then 0 - v else v;
      if -TWO_31 <= n < TWO_31 then Some(n) else None
  }

  lemma {:induction false} DigitsRoundTrip(n: nat)
    ensures Digits(n) != "" && IsDigit(Digits(n)[0])
    ensures DigitsValue(Digits(n)) == Some(n)
  {
    if n < 10 {
      assert Digits(n)[..0] == "";
      assert DigitsValue(Digits(n)[..0]) == Some(0);
    } else {
      DigitsRoundTrip(n / 10);
      assert Digits(n)[..|Digits(n)| - 1] == Digits(n / 10);
    }
  }

  /** A token handed out comes back as the same number. */
  lemma RoundTrip(n: int)
    requires -TWO_31 <= n < TWO_31
    ensures Format(n) != ""
    ensures Parse(Format(n)) == Some(n as int32)
  {
    if n < 0 {
      DigitsRoundTrip(-n);
      assert Format(n)[1..] == Digits(-n);
    } else {
      DigitsRoundTrip(n);
    }
  }

  // ---- Which tokens are numbers --------------------------------------------

  /** Some character is neither a digit nor a sign in front. */
  predicate HasStray(s: string) {
    exists i :: 0 <= i < |s| && !('0' <= s[i] <= '9') && (0 < i || (s[i] != '-' && s[i] != '+'))
  }

  lemma {:induction false} DigitsOnly(s: string)
    ensures DigitsValue(s).Some? <==> forall i :: 0 <= i < |s| ==> '0' <= s[i] <= '9'
  {
    if s != "" {
      DigitsOnly(s[..|s| - 1]);
    }
  }

  function PowerOfTen(k: nat): nat {
    if k == 0 then 1 else 10 * PowerOfTen(k - 1)
  }

  lemma {:induction false} DigitsBound(s: string)
    requires DigitsValue(s).Some?
    ensures DigitsValue(s).value < PowerOfTen(|s|)
  {
    if s != "" {
      DigitsBound(s[..|s| - 1]);
    }
  }

  lemma NineDigits(k: nat)
    requires k <= 9
    ensures PowerOfTen(k) <= 1_000_000_000
  {
    assert PowerOfTen(3) == 1_000;
    assert PowerOfTen(6) == 1_000_000;
    assert PowerOfTen(9) == 1_000_000_000;
  }

  /** A token with a stray character, an empty one and a lone sign are no numbers; up to
      nine digits always are, whether or not they start with zeros. */
  lemma NumbersExactly(s: string)
    ensures HasStray(s) || s == "" || s == "-" || s == "+" ==> Parse(s).None?
    ensures !HasStray(s) && s != "" && s != "-" && s != "+" && |s| <= 9 ==> Parse(s).Some?
  {
    if s != "" {
      var signed := s[0] == '-' || s[0] == '+';
      var body := if signed then s[1..] else s;
      DigitsOnly(body);
      if signed {
        assert forall i :: 0 <= i < |body| ==> body[i] == s[i + 1];
      }
      if |s| <= 9 && DigitsValue(body).Some? {
        DigitsBound(body);
        NineDigits(|body|);
      }
      if HasStray(s) {
        var i :| 0 <= i < |s| && !('0' <= s[i] <= '9') && (0 < i || (s[i] != '-' && s[i] != '+'));
        assert signed ==> body[i - 1] == s[i];
      }
    }
  }

  lemma {:induction false} ZeroInFront(s: string)
    ensures DigitsValue("0" + s) == DigitsValue(s)
  {
    if s == "" {
      assert ("0" + s)[..0] == "";
    } else {
      ZeroInFront(s[..|s| - 1]);
      assert ("0" + s)[..|s|] == "0" + s[..|s| - 1];
    }
  }

  /** A plus sign and leading zeros make no difference. */
  lemma SignsAndZeros(n: nat)
    requires n < TWO_31
    ensures Parse("+" + Format(n)) == Some(n as int32) && Parse("0" + Format(n)) == Some(n as int32)
  {
    DigitsRoundTrip(n);
    ZeroInFront(Format(n));
    assert ("+" + Format(n))[1..] == Format(n);
  }

  /** A number that 32 bits do not hold is refused. */
  lemma TooLarge(n: int)
    requires n < -TWO_31 || TWO_31 <= n
    ensures Parse(Format(n)).None?
  {
    if n < 0 {
      DigitsRoundTrip(-n);
      assert Format(n)[1..] == Digits(-n);
    } else {
      DigitsRoundTrip(n);
    }
  }
}
