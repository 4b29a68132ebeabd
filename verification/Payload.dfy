/** The text carried by a callback payload: fields joined with an underscore, numbers in decimal. */
module Payload {
  import opened Arith
  import opened Sums

  const SEP: char := '_'
  const COMMA: char := ','

  function Join(parts: seq<string>, sep: char := SEP): string {
    if |parts| == 0 then ""
    else if |parts| == 1 then parts[0]
    else parts[0] + [sep] + Join(parts[1..], sep)
  }

  function Split(s: string, sep: char := SEP): (parts: seq<string>)
    ensures |parts| > 0
  {
    if s == "" then [""]
    else
      var rest := Split(s[1..], sep);
      if s[0] == sep then [""] + rest else [[s[0]] + rest[0]] + rest[1..]
  }

  predicate Plain(s: string, sep: char := SEP) { sep !in s }

  predicate AllPlain(parts: seq<string>, sep: char := SEP) {
    forall i :: 0 <= i < |parts| ==> Plain(parts[i], sep)
  }

  lemma {:induction false} SplitPlain(s: string, sep: char)
    requires Plain(s, sep)
    ensures Split(s, sep) == [s]
  {
    if s != "" {
      assert s[0] in s && s == [s[0]] + s[1..];
      SplitPlain(s[1..], sep);
    }
  }

  lemma {:induction false} SplitHead(s: string, t: string, sep: char)
    requires Plain(s, sep)
    ensures Split(s + [sep] + t, sep) == [s] + Split(t, sep)
  {
    var whole := s + [sep] + t;
    if s == "" {
      assert whole[1..] == t;
    } else {
      assert s[0] in s && s == [s[0]] + s[1..];
      assert whole[1..] == s[1..] + [sep] + t;
      SplitHead(s[1..], t, sep);
    }
  }

  lemma {:induction false} SplitJoinNonEmpty(parts: seq<string>, sep: char)
    requires AllPlain(parts, sep) && parts != []
    ensures Split(Join(parts, sep), sep) == parts
  {
    if |parts| == 1 {
      SplitPlain(parts[0], sep);
    } else {
      SplitJoinNonEmpty(parts[1..], sep);
      SplitHead(parts[0], Join(parts[1..], sep), sep);
    }
  }

  /** Splitting recovers exactly the non-empty lists: the empty list comes back as one empty
      field, which is why a bond payload is only split when its text is not empty. */
  lemma SplitJoin(parts: seq<string>, sep: char := SEP)
    requires AllPlain(parts, sep)
    ensures Split(Join(parts, sep), sep) == parts <==> parts != []
    ensures parts == [] ==> Join(parts, sep) == ""
  {
    if parts != [] {
      SplitJoinNonEmpty(parts, sep);
    }
  }

  /** A joined list may itself be the last field of a joined list. */
  lemma {:induction false} JoinNested(xs: seq<string>, ys: seq<string>)
    requires ys != []
    ensures Join(xs + [Join(ys)]) == Join(xs + ys)
  {
    if xs == [] {
      assert xs + [Join(ys)] == [Join(ys)] && xs + ys == ys;
    } else {
      assert (xs + [Join(ys)])[1..] == xs[1..] + [Join(ys)];
      assert (xs + ys)[1..] == xs[1..] + ys;
      JoinNested(xs[1..], ys);
    }
  }

  predicate IsDigit(c: char) { '0' <= c <= '9' }

  predicate IsNumeral(s: string) {
    |s| > 0 && forall i :: 0 <= i < |s| ==> IsDigit(s[i])
  }

  function Digit(d: nat): char
    requires d < 10
  {
    '0' + d as char
  }

  /** `to_string` on an unsigned integer. */
  function Dec(n: nat): (s: string)
    ensures IsNumeral(s)
  {
    if n < 10 then [Digit(n)] else Dec(n / 10) + [Digit(n % 10)]
  }

  function DigitValue(c: char): nat
    requires IsDigit(c)
  {
    c as int - '0' as int
  }

  function Digits(s: string): nat
    requires forall i :: 0 <= i < |s| ==> IsDigit(s[i])
  {
    if s == "" then 0
    else 10 * Digits(s[..|s| - 1]) + DigitValue(s[|s| - 1])
  }

  /** `parse` into an unsigned integer with the given greatest value: an optional plus sign,
      then at least one digit, and no overflow. */
  function ParseUint(s: string, max: nat): Option<nat> {
    var t := if |s| > 0 && s[0] == '+' then s[1..] else s;
    if IsNumeral(t) && Digits(t) <= max then Some(Digits(t)) else None
  }

  lemma {:induction false} DigitsDec(n: nat)
    ensures Digits(Dec(n)) == n
  {
    if n >= 10 {
      DigitsDec(n / 10);
      assert Dec(n)[..|Dec(n)| - 1] == Dec(n / 10);
    }
  }

  lemma ParseDec(n: nat, max: nat)
    ensures ParseUint(Dec(n), max) == if n <= max then Some(n) else None
  {
    DigitsDec(n);
  }

  lemma DecInjective(m: nat, n: nat)
    requires Dec(m) == Dec(n)
    ensures m == n
  {
    DigitsDec(m);
    DigitsDec(n);
  }

  lemma NumeralPlain(s: string)
    requires IsNumeral(s)
    ensures Plain(s)
  {
    forall i | 0 <= i < |s| ensures s[i] != SEP {
      assert IsDigit(s[i]);
    }
  }

  function Decs(indices: seq<nat>): (parts: seq<string>)
    ensures |parts| == |indices|
    ensures forall i :: 0 <= i < |indices| ==> parts[i] == Dec(indices[i])
  {
    seq(|indices|, i requires 0 <= i < |indices| => Dec(indices[i]))
  }

  lemma DecsPlain(indices: seq<nat>)
    ensures AllPlain(Decs(indices))
  {
    forall i | 0 <= i < |indices| ensures Plain(Decs(indices)[i]) {
      NumeralPlain(Dec(indices[i]));
    }
  }

  /** An account name as used in payloads: no separator in it, and not a decimal numeral. */
  predicate IsAddress(a: string) { Plain(a) && !IsNumeral(a) }

  /** The payload of a withdrawal. */
  function WithdrawMessage(amount: nat, user: string, receiver: string, indices: seq<nat>): string {
    Join([Dec(amount), user, receiver, Join(Decs(indices))])
  }

  /** A withdrawal payload splits into its fields, so both callbacks see the list that was sent. */
  lemma WithdrawRoundTrip(amount: nat, user: string, receiver: string, indices: seq<nat>)
    requires IsAddress(user) && IsAddress(receiver) && indices != []
    ensures Split(WithdrawMessage(amount, user, receiver, indices)) == [Dec(amount), user, receiver] + Decs(indices)
  {
    var front := [Dec(amount), user, receiver];
    assert front + [Join(Decs(indices))] == [Dec(amount), user, receiver, Join(Decs(indices))];
    JoinNested(front, Decs(indices));
    NumeralPlain(Dec(amount));
    DecsPlain(indices);
    SplitJoin(front + Decs(indices));
  }

  /** The success callback looks an index up among all fields but the first: the two account
      names cannot be mistaken for an index, so this finds exactly the indices of the list. */
  lemma WithdrawMembership(amount: nat, user: string, receiver: string, indices: seq<nat>, index: nat)
    requires IsAddress(user) && IsAddress(receiver) && indices != []
    ensures Dec(index) in Split(WithdrawMessage(amount, user, receiver, indices))[1..] <==> index in indices
  {
    WithdrawRoundTrip(amount, user, receiver, indices);
    var fields := Split(WithdrawMessage(amount, user, receiver, indices))[1..];
    assert fields == [user, receiver] + Decs(indices);
    if index in indices {
      var i :| 0 <= i < |indices| && indices[i] == index;
      assert fields[i + 2] == Dec(index);
    }
    if Dec(index) in fields {
      var i :| 0 <= i < |fields| && fields[i] == Dec(index);
      assert i >= 2;
      DecInjective(indices[i - 2], index);
    }
  }

  /** The payload of a liquid-share stake. */
  function LsmMessage(staker: string, tokens: nat, shares: nat, ibcDenom: string, denom: string): string {
    Join([staker, Dec(tokens), Dec(shares), ibcDenom, denom])
  }

  lemma LsmRoundTrip(staker: string, tokens: nat, shares: nat, ibcDenom: string, denom: string)
    requires Plain(staker) && Plain(ibcDenom) && Plain(denom)
    ensures Split(LsmMessage(staker, tokens, shares, ibcDenom, denom))
      == [staker, Dec(tokens), Dec(shares), ibcDenom, denom]
  {
    NumeralPlain(Dec(tokens));
    NumeralPlain(Dec(shares));
    SplitJoin([staker, Dec(tokens), Dec(shares), ibcDenom, denom]);
  }
}
