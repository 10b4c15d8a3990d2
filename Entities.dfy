/** The entities the repositories hand out, as values, and the decimal printing of an integer
    that the mock client names are built with. */
module Entities {
  import opened Common

  /** A version of a policy; only its own id and the id of its policy matter here. */
  datatype PolicyVersion = PolicyVersion(policyVersionId: int, policyId: int)

  /** A policy and, once resolved, its versions (null until then). */
  datatype Policy = Policy(policyId: int, policyVersions: Option<seq<PolicyVersion>>)

  /** A client: a nullable id, a nullable name and, once resolved, its policies. */
  datatype Client = Client(clientId: Option<int>, name: Option<string>, policies: Option<seq<Policy>>)

  /** The ids of a sequence of policy versions, in order. */
  function VersionIds(vs: seq<PolicyVersion>): (ids: seq<int>)
    ensures |ids| == |vs| && forall i :: 0 <= i < |vs| ==> ids[i] == vs[i].policyVersionId
  {
    if vs == [] then [] else [vs[0].policyVersionId] + VersionIds(vs[1..])
  }

  /** The ids of a sequence of policies, in order. */
  function PolicyIds(ps: seq<Policy>): (ids: seq<int>)
    ensures |ids| == |ps| && forall i :: 0 <= i < |ps| ==> ids[i] == ps[i].policyId
  {
    if ps == [] then [] else [ps[0].policyId] + PolicyIds(ps[1..])
  }

  // ---------------------------------------------------------------------------------------
  // Decimal printing of an integer (Int32.ToString() with the invariant culture's minus sign).

  function Digit(d: nat): (c: char)
    requires d < 10
    ensures '0' <= c <= '9'
  {
    (48 + d) as char
  }

  function DigitValue(c: char): (d: nat)
    requires '0' <= c <= '9'
    ensures d < 10
  {
    (c as int) - 48
  }

  predicate AllDigits(s: string) {
    forall i :: 0 <= i < |s| ==> '0' <= s[i] <= '9'
  }

  function NatToString(n: nat): (s: string)
    ensures |s| >= 1 && AllDigits(s)
  {
    if n < 10 then [Digit(n)] else NatToString(n / 10) + [Digit(n % 10)]
  }

  function IntToString(n: int): (s: string)
    ensures |s| >= 1
  {
    if n < 0 then "-" + NatToString(-n) else NatToString(n)
  }

  /** Reading back a non-empty string of digits. */
  function ParseNat(s: string): nat
    requires |s| >= 1 && AllDigits(s)
  {
    if |s| == 1 then DigitValue(s[0]) else 10 * ParseNat(s[..|s| - 1]) + DigitValue(s[|s| - 1])
  }

  /** Reading back an optionally negative decimal; None for anything else. */
  function ParseInt(s: string): Option<int> {
    if |s| >= 2 && s[0] == '-' && AllDigits(s[1..]) then Some(-(ParseNat(s[1..]) as int))
    else if |s| >= 1 && AllDigits(s) then Some(ParseNat(s))
    else None
  }

  lemma {:induction false} NatRoundTrip(n: nat)
    ensures ParseNat(NatToString(n)) == n
  {
    if n >= 10 {
      var s := NatToString(n);
      assert s[..|s| - 1] == NatToString(n / 10);
      NatRoundTrip(n / 10);
    }
  }

  /** Printing then parsing gives back the number. */
  lemma IntRoundTrip(n: int)
    ensures ParseInt(IntToString(n)) == Some(n)
  {
    var s := IntToString(n);
    if n < 0 {
      var digits := NatToString(-n);
      assert s[0] == '-' && s[1..] == digits;
      NatRoundTrip(-n);
    } else {
      NatRoundTrip(n);
      assert '0' <= s[0] <= '9';
    }
  }

  /** Distinct numbers print differently. */
  lemma IntToStringInjective(a: int, b: int)
    requires IntToString(a) == IntToString(b)
    ensures a == b
  {
    IntRoundTrip(a);
    IntRoundTrip(b);
  }

  /** The name the mock data source gives client `clientId`. */
  function ClientName(clientId: int): string {
    IntToString(clientId) + " name"
  }

  /** Distinct clients get distinct names. */
  lemma ClientNameInjective(a: int, b: int)
    requires ClientName(a) == ClientName(b)
    ensures a == b
  {
    var sa, sb := IntToString(a), IntToString(b);
    assert |sa| == |sb|;
    assert sa == ClientName(a)[..|sa|] == ClientName(b)[..|sb|] == sb;
    IntToStringInjective(a, b);
  }

  lemma ClientNameExamples()
    ensures ClientName(1) == "1 name" && ClientName(2) == "2 name" && ClientName(3) == "3 name"
    ensures ClientName(-7) == "-7 name" && ClientName(42) == "42 name"
  {
    assert NatToString(42) == NatToString(4) + [Digit(2)];
  }
}
