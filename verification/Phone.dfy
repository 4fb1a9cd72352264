/** Phone-number normalisation shared by `hash_phone` and `encrypt_phone`. */
module Phone {
  import opened Text

  /** `phone_number.strip().lstrip("+")` */
  function Normalize(raw: string): string {
    StripPlus(Strip(raw))
  }

  /** The number a send is addressed to: `send_message` drops leading plus signs only. */
  function Addressed(raw: string): string {
    StripPlus(raw)
  }

  /** What an address keeps of a number: all but the plus signs it begins with. */
  lemma AddressedIs(raw: string) returns (k: nat)
    ensures k <= |raw| && Addressed(raw) == raw[k..]
    ensures forall n :: 0 <= n < k ==> raw[n] == '+'
    ensures k < |raw| ==> raw[k] != '+'
  {
    StripPlusSuffix(raw);
    k := |raw| - |Addressed(raw)|;
  }

  /** What normalising keeps of a number: without the white space around it, and then without the plus
      signs it begins with, all that lies between the positions `k` and `j`. */
  lemma NormalizeIs(raw: string) returns (i: nat, k: nat, j: nat)
    ensures i <= k <= j <= |raw| && Normalize(raw) == raw[k..j]
    ensures forall n :: 0 <= n < i || j <= n < |raw| ==> IsSpace(raw[n])
    ensures forall n :: i <= n < k ==> raw[n] == '+'
    ensures k < j ==> raw[k] != '+'
    ensures i < j ==> !IsSpace(raw[i]) && !IsSpace(raw[j - 1])
  {
    var trimmed := Strip(raw);
    i, j := StripTrims(raw);
    StripPlusSuffix(trimmed);
    k := j - |Normalize(raw)|;
    assert forall n :: 0 <= n < |trimmed| ==> trimmed[n] == raw[i + n];
    assert forall n :: i <= n < k ==> raw[n] == trimmed[n - i];
    assert Normalize(raw) == raw[k..j];
  }

  lemma {:induction false} StripFixed(raw: string)
    ensures Strip(raw) == raw <==>
            raw == [] || (!IsSpace(raw[0]) && !IsSpace(raw[|raw| - 1]))
  {
    var l := StripLeft(raw);
    if raw != [] && !IsSpace(raw[0]) {
      assert l == raw;
    }
  }

  /** A plus-free tail keeps the last character, so it ends in white space whenever the whole does. */
  lemma {:induction false} StripPlusKeepsLast(s: string)
    requires s != [] && s[|s| - 1] != '+'
    ensures StripPlus(s) != [] && StripPlus(s)[|StripPlus(s)| - 1] == s[|s| - 1]
  {
    if s[0] == '+' {
      StripPlusKeepsLast(s[1..]);
    }
  }

  lemma {:induction false} NormalizeEndsClean(raw: string)
    ensures Normalize(raw) == [] || !IsSpace(Normalize(raw)[|Normalize(raw)| - 1])
  {
    var t := Strip(raw);
    var n := Normalize(raw);
    StripPlusSuffix(t);
    if n != [] {
      assert n == t[|t| - |n|..];
      assert n[|n| - 1] == t[|t| - 1];
    }
  }

  /** Jane's own send addresses the number as the webhook gave it, an agent's send addresses
      the stored normal form. They agree exactly when the raw number has no outer white space. */
  lemma {:induction false} AddressedIsNormal(raw: string)
    ensures Addressed(raw) == Normalize(raw) <==> Strip(raw) == raw
  {
    StripFixed(raw);
    if Strip(raw) != raw {
      if IsSpace(raw[0]) {
        assert Addressed(raw) == raw;
        assert |Normalize(raw)| <= |Strip(raw)| < |raw|;
      } else {
        StripPlusKeepsLast(raw);
        NormalizeEndsClean(raw);
      }
    }
  }

  /** Once normalised, a number is addressed unchanged. */
  lemma AddressingNormal(raw: string)
    ensures Addressed(Normalize(raw)) == Normalize(raw)
  {
    var n := Normalize(raw);
    if n != [] {
      assert n[0] != '+';
    }
  }
}
