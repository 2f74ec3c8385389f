/**
 * The settings file keys every record by `str(guild_id)`: the decimal
 * spelling of the guild id. This module writes that conversion out and
 * proves it injective, so two distinct guilds can never address the same
 * record.
 */
module GuildKey {

  predicate IsDigit(c: char) {
    '0' <= c <= '9'
  }

  function DigitChar(d: int): (c: char)
    requires 0 <= d < 10
    ensures IsDigit(c) && c as int - '0' as int == d
  {
    (('0' as int) + d) as char
  }

  /** Decimal digits of `n`, most significant first, with no leading zero. */
  function Digits(n: nat): (s: string)
    ensures |s| >= 1
    ensures |s| == 1 <==> n < 10
    ensures forall i :: 0 <= i < |s| ==> IsDigit(s[i])
    decreases n
  {
    if n < 10 then [DigitChar(n)] else Digits(n / 10) + [DigitChar(n % 10)]
  }

  /** Python's `str` on an `int`: a minus sign before the digits of a negative number. */
  function Str(n: int): (s: string)
    ensures |s| >= 1
    ensures (s[0] == '-') <==> n < 0
  {
    if n < 0 then "-" + Digits(-n) else Digits(n)
  }

  lemma {:induction false} DigitsInjective(a: nat, b: nat)
    requires Digits(a) == Digits(b)
    ensures a == b
    decreases a
  {
    var s := Digits(a);
    if a < 10 {
      assert |Digits(b)| == 1;
      assert s[0] == DigitChar(a) && s[0] == DigitChar(b);
    } else {
      assert b >= 10 by { assert |Digits(b)| != 1; }
      var n := |s|;
      assert s[n - 1] == DigitChar(a % 10) == DigitChar(b % 10);
      assert s[..n - 1] == Digits(a / 10) == Digits(b / 10);
      DigitsInjective(a / 10, b / 10);
    }
  }

  /** Distinct guild ids give distinct keys. */
  lemma StrInjective(a: int, b: int)
    requires Str(a) == Str(b)
    ensures a == b
  {
    if a < 0 {
      assert b < 0;
      assert Str(a)[1..] == Digits(-a) && Str(b)[1..] == Digits(-b);
      DigitsInjective(-a, -b);
    } else {
      assert b >= 0;
      DigitsInjective(a, b);
    }
  }

  /** The contrapositive, in the form the settings table uses. */
  lemma DistinctGuildsDistinctKeys(a: int, b: int)
    requires a != b
    ensures Str(a) != Str(b)
  {
    if Str(a) == Str(b) {
      StrInjective(a, b);
    }
  }
}
