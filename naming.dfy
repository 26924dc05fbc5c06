/** Strings the handler derives from ids and the clock: the deduplication key
    `"<guild.id>-<member.id>"`, the `%m%d` date stamp and the welcome-channel
    name, plus the `"환영-"` prefix that the delete command checks. */
module Naming {

  predicate IsDigit(c: char) {
    '0' <= c <= '9'
  }

  function DigitChar(d: nat): (c: char)
    requires d < 10
    ensures IsDigit(c) && c as int - '0' as int == d
  {
    ('0' as int + d) as char
  }

  /** Python's `str(n)` for a non-negative int: decimal, no leading zeros. */
  function Decimal(n: nat): (s: string)
    ensures 1 <= |s|
    ensures forall i :: 0 <= i < |s| ==> IsDigit(s[i])
    ensures n < 10 <==> |s| == 1
  {
    if n < 10 then [DigitChar(n)] else Decimal(n / 10) + [DigitChar(n % 10)]
  }

  lemma {:induction false} DecimalInjective(a: nat, b: nat)
    requires Decimal(a) == Decimal(b)
    ensures a == b
  {
    if a >= 10 && b >= 10 {
      var sa, sb := Decimal(a), Decimal(b);
      assert sa[|sa| - 1] == DigitChar(a % 10);
      assert sb[|sb| - 1] == DigitChar(b % 10);
      assert sa[..|sa| - 1] == Decimal(a / 10);
      assert sb[..|sb| - 1] == Decimal(b / 10);
      DecimalInjective(a / 10, b / 10);
    }
  }

  /** Length of the run of digits that starts a string. */
  function DigitRun(s: string): (n: nat)
    ensures n <= |s|
  {
    if s == [] || !IsDigit(s[0]) then 0 else 1 + DigitRun(s[1..])
  }

  lemma {:induction false} DigitRunBeforeSeparator(digits: string, rest: string)
    requires forall i :: 0 <= i < |digits| ==> IsDigit(digits[i])
    requires rest != [] && !IsDigit(rest[0])
    ensures DigitRun(digits + rest) == |digits|
  {
    if digits != [] {
      assert (digits + rest)[1..] == digits[1..] + rest;
      DigitRunBeforeSeparator(digits[1..], rest);
    } else {
      assert digits + rest == rest;
    }
  }

  /** The in-flight key `f"{guild.id}-{member.id}"`. */
  function KeyOf(guildId: nat, memberId: nat): string {
    Decimal(guildId) + "-" + Decimal(memberId)
  }

  /** Two joins share a key exactly when they are the same member of the same guild. */
  lemma {:induction false} KeyOfInjective(g1: nat, m1: nat, g2: nat, m2: nat)
    ensures KeyOf(g1, m1) == KeyOf(g2, m2) <==> g1 == g2 && m1 == m2
  {
    if KeyOf(g1, m1) == KeyOf(g2, m2) {
      var a, b := Decimal(g1), Decimal(g2);
      var k := KeyOf(g1, m1);
      DigitRunBeforeSeparator(a, "-" + Decimal(m1));
      DigitRunBeforeSeparator(b, "-" + Decimal(m2));
      assert a + ("-" + Decimal(m1)) == k == b + ("-" + Decimal(m2));
      assert a == k[..|a|] == b;
      assert Decimal(m1) == k[|a| + 1..] == Decimal(m2);
      DecimalInjective(g1, g2);
      DecimalInjective(m1, m2);
    }
  }

  type Month = m: nat | 1 <= m <= 12 witness 1
  type Day = d: nat | 1 <= d <= 31 witness 1

  /** The calendar date of a clock reading; only month and day reach a name. */
  datatype Date = Date(month: Month, day: Day)

  function TwoDigits(n: nat): (s: string)
    requires n < 100
    ensures |s| == 2 && IsDigit(s[0]) && IsDigit(s[1])
    ensures (s[0] as int - '0' as int) * 10 + (s[1] as int - '0' as int) == n
  {
    [DigitChar(n / 10), DigitChar(n % 10)]
  }

  /** `strftime('%m%d')`: zero-padded month then zero-padded day. */
  function StampMMDD(d: Date): (s: string)
    ensures |s| == 4
  {
    TwoDigits(d.month) + TwoDigits(d.day)
  }

  lemma StampInjective(d1: Date, d2: Date)
    ensures StampMMDD(d1) == StampMMDD(d2) <==> d1 == d2
  {
    if StampMMDD(d1) == StampMMDD(d2) {
      var s1, s2 := StampMMDD(d1), StampMMDD(d2);
      assert TwoDigits(d1.month) == s1[..2] == s2[..2] == TwoDigits(d2.month);
      assert TwoDigits(d1.day) == s1[2..] == s2[2..] == TwoDigits(d2.day);
    }
  }

  const WelcomePrefix: string := "환영-"

  /** `f"환영-{member.display_name}-{mmdd}"` */
  function ChannelName(displayName: string, d: Date): string {
    WelcomePrefix + displayName + "-" + StampMMDD(d)
  }

  /** `name.startswith('환영-')` */
  predicate IsWelcomeName(name: string) {
    |WelcomePrefix| <= |name| && name[..|WelcomePrefix|] == WelcomePrefix
  }

  /** Every channel name the handler computes passes the delete command's guard. */
  lemma ChannelNameIsWelcome(displayName: string, d: Date)
    ensures IsWelcomeName(ChannelName(displayName, d))
  {
    assert ChannelName(displayName, d)[..|WelcomePrefix|] == WelcomePrefix;
  }

  /** The name is a deterministic, one-to-one function of display name and date:
      two computations agree exactly when both inputs agree. */
  lemma ChannelNameInjective(n1: string, d1: Date, n2: string, d2: Date)
    ensures ChannelName(n1, d1) == ChannelName(n2, d2) <==> n1 == n2 && d1 == d2
  {
    if ChannelName(n1, d1) == ChannelName(n2, d2) {
      var c := ChannelName(n1, d1);
      var p := |WelcomePrefix|;
      assert |n1| == |n2|;
      assert StampMMDD(d1) == c[|c| - 4..] == StampMMDD(d2);
      assert n1 == c[p..p + |n1|] == n2;
      StampInjective(d1, d2);
    }
  }
}
