/** The storefront's phone check: the regular expression `^\+998\d{9}$`,
    written as an anchored sequence of one-character atoms and matched by
    a small matcher. */
module Helpers {
  import opened Common

  /** A regular-expression atom that matches exactly one character: a
      literal, or `\d`, which without the `u` flag means an ASCII digit. */
  datatype Atom = Lit(c: char) | AnyDigit

  predicate AtomMatches(a: Atom, ch: char) {
    match a
    case Lit(c) => ch == c
    case AnyDigit => IsDigit(ch)
  }

  /** `^p$`: the whole string, character by character. */
  predicate Matches(p: seq<Atom>, s: string)
    decreases |p|
  {
    if p == [] then s == []
    else s != [] && AtomMatches(p[0], s[0]) && Matches(p[1..], s[1..])
  }

  /** `\d{9}` */
  function Repeat(a: Atom, n: nat): (r: seq<Atom>)
    ensures |r| == n && forall i :: 0 <= i < n ==> r[i] == a
  {
    seq(n, _ => a)
  }

  /** `^\+998\d{9}$` */
  const PhonePattern: seq<Atom> := [Lit('+'), Lit('9'), Lit('9'), Lit('8')] + Repeat(AnyDigit, 9)

  /** `validatePhoneNumber` */
  predicate ValidatePhoneNumber(phone: string) {
    Matches(PhonePattern, phone)
  }

  /** An anchored pattern of one-character atoms matches exactly the strings
      of its length whose every character matches its atom. */
  lemma {:induction false} MatchesIff(p: seq<Atom>, s: string)
    ensures Matches(p, s) <==> |p| == |s| && forall i :: 0 <= i < |p| ==> AtomMatches(p[i], s[i])
    decreases |p|
  {
    if p != [] && s != [] {
      MatchesIff(p[1..], s[1..]);
      if |p| == |s| && forall i :: 0 <= i < |p| ==> AtomMatches(p[i], s[i]) {
        assert forall i :: 0 <= i < |p| - 1 ==> AtomMatches(p[1..][i], s[1..][i]) by {
          forall i | 0 <= i < |p| - 1
            ensures AtomMatches(p[1..][i], s[1..][i])
          {
            assert AtomMatches(p[i + 1], s[i + 1]);
          }
        }
      }
      if Matches(p, s) {
        forall i | 0 <= i < |p|
          ensures AtomMatches(p[i], s[i])
        {
          if i > 0 {
            assert p[1..][i - 1] == p[i] && s[1..][i - 1] == s[i];
          }
        }
      }
    }
  }

  /** A phone is accepted exactly when it is `+998` followed by nine ASCII
      digits; so every accepted phone has 13 characters. */
  lemma PhoneAccepted(phone: string)
    ensures ValidatePhoneNumber(phone) <==>
      && |phone| == 13
      && phone[..4] == "+998"
      && forall i :: 4 <= i < 13 ==> IsDigit(phone[i])
  {
    MatchesIff(PhonePattern, phone);
    if |phone| == 13 && phone[..4] == "+998" && (forall i :: 4 <= i < 13 ==> IsDigit(phone[i])) {
      forall i | 0 <= i < 13
        ensures AtomMatches(PhonePattern[i], phone[i])
      {
        if i < 4 {
          assert phone[i] == phone[..4][i];
        }
      }
    }
    if ValidatePhoneNumber(phone) {
      assert forall i :: 0 <= i < 4 ==> AtomMatches(PhonePattern[i], phone[i]);
      assert phone[..4] == [phone[0], phone[1], phone[2], phone[3]];
    }
  }

  /** The checkout form's initial value is rejected, and so is a number with
      a tenth digit. */
  lemma PhoneRejections()
    ensures !ValidatePhoneNumber("+998")
    ensures !ValidatePhoneNumber("+9989012345678")
    ensures ValidatePhoneNumber("+998901234567")
  {
    PhoneAccepted("+998");
    PhoneAccepted("+9989012345678");
    PhoneAccepted("+998901234567");
  }
}
