/** Channel names: the client-facing character set, the two reserved control
    channels every connection is put on, and decimal user ids. */
module ChannelNames {

  // gateway/hub.go:31 -- one character of the class [a-zA-Z0-9_:-]
  predicate NameChar(x: char) {
    || 'a' <= x <= 'z' || 'A' <= x <= 'Z' || '0' <= x <= '9'
    || x == '_' || x == ':' || x == '-'
  }

  predicate ValidName(ch: string) {
    1 <= |ch| <= 128 && forall i | 0 <= i < |ch| :: NameChar(ch[i])
  }

  predicate Reserved(ch: string) {
    |ch| > 0 && ch[0] == '_'
  }

  /** The ASCII codes of letters, digits, colon, hyphen and underscore. */
  predicate NameCode(n: int) {
    48 <= n <= 58 || 65 <= n <= 90 || 97 <= n <= 122 || n == 45 || n == 95
  }

  /** The well-formed names are exactly the strings of 1 to 128 letters, digits, colons, hyphens and
      underscores; those starting with an underscore are kept from clients. */
  lemma NamesAccepted(ch: string)
    ensures ValidName(ch) <==> 1 <= |ch| <= 128 && forall i | 0 <= i < |ch| :: NameCode(ch[i] as int)
    ensures ValidName(ch) && !Reserved(ch) <==>
            1 <= |ch| <= 128 && ch[0] != '_' && forall i | 0 <= i < |ch| :: NameCode(ch[i] as int)
  {
  }

  function Digit(d: nat): (x: char)
    requires d < 10
    ensures '0' <= x <= '9'
  {
    ('0' as int + d) as char
  }

  function FormatNat(n: nat): (s: string)
    ensures |s| > 0 && forall i | 0 <= i < |s| :: '0' <= s[i] <= '9'
  {
    if n < 10 then [Digit(n)] else FormatNat(n / 10) + [Digit(n % 10)]
  }

  /** Reads a run of decimal digits back. */
  function ParseNat(s: string): (n: nat)
    requires forall i | 0 <= i < |s| :: '0' <= s[i] <= '9'
  {
    if |s| == 0 then 0
    else 10 * ParseNat(s[..|s| - 1]) + (s[|s| - 1] as int - '0' as int)
  }

  lemma {:induction false} ParseFormat(n: nat)
    ensures ParseNat(FormatNat(n)) == n
  {
    if n >= 10 {
      ParseFormat(n / 10);
      assert FormatNat(n)[..|FormatNat(n)| - 1] == FormatNat(n / 10);
    } else {
      assert ParseNat([]) == 0;
      assert FormatNat(n)[..0] == [];
    }
  }

  function FormatUserID(id: int): (s: string)
    ensures |s| > 0
  {
    if id < 0 then "-" + FormatNat(-id) else FormatNat(id)
  }

  lemma FormatNatInjective(a: nat, b: nat)
    requires FormatNat(a) == FormatNat(b)
    ensures a == b
  {
    ParseFormat(a);
    ParseFormat(b);
  }

  lemma Sign(id: int)
    ensures id < 0 <==> FormatUserID(id)[0] == '-'
    ensures id < 0 ==> FormatUserID(id)[1..] == FormatNat(-id)
  {
  }

  lemma FormatUserIDInjective(a: int, b: int)
    requires FormatUserID(a) == FormatUserID(b)
    ensures a == b
  {
    Sign(a);
    Sign(b);
    if a < 0 {
      FormatNatInjective(-a, -b);
    } else {
      FormatNatInjective(a, b);
    }
  }

  /** `s` is how a natural number is written: digits, without a leading zero. */
  predicate Decimal(s: string, n: nat) {
    && |s| > 0 && (forall i | 0 <= i < |s| :: '0' <= s[i] <= '9')
    && (|s| > 1 ==> s[0] != '0') && ParseNat(s) == n
  }

  lemma {:induction false} LeadingDigit(s: string)
    requires |s| > 0 && (forall i | 0 <= i < |s| :: '0' <= s[i] <= '9') && s[0] != '0'
    ensures ParseNat(s) > 0
  {
    if |s| > 1 {
      assert s[..|s| - 1][0] == s[0];
      LeadingDigit(s[..|s| - 1]);
    } else {
      assert ParseNat(s[..0]) == 0;
    }
  }

  lemma {:induction false} FormatNatIsDecimal(n: nat)
    ensures Decimal(FormatNat(n), n)
    ensures n > 0 ==> FormatNat(n)[0] != '0'
  {
    ParseFormat(n);
    if n >= 10 {
      FormatNatIsDecimal(n / 10);
    }
  }

  /** There is only one way to write a number. */
  lemma {:induction false} DecimalIsFormat(s: string, n: nat)
    requires Decimal(s, n)
    ensures s == FormatNat(n)
  {
    var last := s[|s| - 1] as int - '0' as int;
    var front := s[..|s| - 1];
    assert s == front + [s[|s| - 1]] && s[|s| - 1] == Digit(last);
    if |s| == 1 {
      assert front == [] && n == last;
    } else {
      assert front[0] == s[0];
      LeadingDigit(front);
      DecimalIsFormat(front, ParseNat(front));
      assert n / 10 == ParseNat(front) && n % 10 == last;
    }
  }

  predicate DecimalInt(s: string, id: int) {
    if id < 0 then |s| > 0 && s[0] == '-' && Decimal(s[1..], -id) else Decimal(s, id)
  }

  lemma NaturalIsDecimal(s: string, n: nat)
    ensures s == FormatNat(n) <==> Decimal(s, n)
  {
    FormatNatIsDecimal(n);
    if Decimal(s, n) { DecimalIsFormat(s, n); }
  }

  lemma NegativeIsDecimal(s: string, n: nat)
    ensures s == "-" + FormatNat(n) <==> |s| > 0 && s[0] == '-' && Decimal(s[1..], n)
  {
    if |s| > 0 && s[0] == '-' {
      assert s == "-" + s[1..];
      NaturalIsDecimal(s[1..], n);
      assert ("-" + FormatNat(n))[1..] == FormatNat(n);
    }
  }

  /** The id in a control channel is the decimal notation of the user's id. */
  lemma UserIDIsDecimal(s: string, id: int)
    ensures s == FormatUserID(id) <==> DecimalInt(s, id)
  {
    if id < 0 { NegativeIsDecimal(s, -id); } else { NaturalIsDecimal(s, id); }
  }

  function SessionChannel(key: string): string {
    "_session:" + key
  }

  function UserChannel(id: int): string {
    "_user:" + FormatUserID(id) + ":revoke"
  }

  lemma SessionChannelInjective(key1: string, key2: string)
    requires SessionChannel(key1) == SessionChannel(key2)
    ensures key1 == key2
  {
    assert SessionChannel(key1)[9..] == key1 && SessionChannel(key2)[9..] == key2;
  }

  lemma UserChannelInjective(id1: int, id2: int)
    requires UserChannel(id1) == UserChannel(id2)
    ensures id1 == id2
  {
    var f1, f2 := FormatUserID(id1), FormatUserID(id2);
    assert |UserChannel(id1)| == 6 + |f1| + 7 && |UserChannel(id2)| == 6 + |f2| + 7;
    assert UserChannel(id1)[6..6 + |f1|] == f1 && UserChannel(id2)[6..6 + |f2|] == f2;
    FormatUserIDInjective(id1, id2);
  }

  /** A control channel addresses one session or one user, never both, and never two of either. */
  lemma ControlNames(key1: string, key2: string, id1: int, id2: int)
    ensures Reserved(SessionChannel(key1)) && Reserved(UserChannel(id1))
    ensures SessionChannel(key1) == SessionChannel(key2) <==> key1 == key2
    ensures UserChannel(id1) == UserChannel(id2) <==> id1 == id2
    ensures SessionChannel(key1) != UserChannel(id1)
  {
    assert SessionChannel(key1)[1] == 's' && UserChannel(id1)[1] == 'u';
    if SessionChannel(key1) == SessionChannel(key2) { SessionChannelInjective(key1, key2); }
    if UserChannel(id1) == UserChannel(id2) { UserChannelInjective(id1, id2); }
  }
}
