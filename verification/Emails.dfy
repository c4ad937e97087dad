/**
 The buyer key. Redis sets are byte-exact while `purchases.email` is citext, so the two
 stores agree on who a buyer is only through this one function, applied to ASCII letters.
 */
module Emails {
  function LowerChar(c: char): char {
    if 'A' <= c <= 'Z' then (c as int + 32) as char else c
  }

  function NormalizeEmail(email: string): string {
    if email == "" then "" else [LowerChar(email[0])] + NormalizeEmail(email[1..])
  }

  /** Normalisation works letter by letter: nothing is trimmed, dropped or reordered. */
  lemma {:induction false} NormalizePointwise(email: string)
    ensures |NormalizeEmail(email)| == |email|
    ensures forall i :: 0 <= i < |email| ==> NormalizeEmail(email)[i] == LowerChar(email[i])
  {
    if email != "" {
      NormalizePointwise(email[1..]);
    }
  }

  /** A key that came out of either store can be normalised again without changing it. */
  lemma {:induction false} NormalizeIdempotent(email: string)
    ensures NormalizeEmail(NormalizeEmail(email)) == NormalizeEmail(email)
  {
    var key := NormalizeEmail(email);
    NormalizePointwise(email);
    NormalizePointwise(key);
    assert forall i :: 0 <= i < |key| ==> NormalizeEmail(key)[i] == key[i];
  }

  const CAPITALS := "ABCDEFGHIJKLMNOPQRSTUVWXYZ"
  const SMALLS := "abcdefghijklmnopqrstuvwxyz"

  /** The same character, or the same letter in either case. */
  predicate SameLetter(a: char, b: char) {
    a == b || exists k :: 0 <= k < 26 && a in [CAPITALS[k], SMALLS[k]] && b in [CAPITALS[k], SMALLS[k]]
  }

  /** Case-insensitive equality, as citext compares. */
  predicate SameBuyer(a: string, b: string) {
    |a| == |b| && forall i :: 0 <= i < |a| ==> SameLetter(a[i], b[i])
  }

  lemma AlphabetAt(k: nat)
    requires k < 26
    ensures CAPITALS[k] as int == 'A' as int + k && SMALLS[k] as int == 'a' as int + k
  {
  }

  lemma SameLetterIff(a: char, b: char)
    ensures SameLetter(a, b) <==> LowerChar(a) == LowerChar(b)
  {
    if SameLetter(a, b) && a != b {
      var k :| 0 <= k < 26 && a in [CAPITALS[k], SMALLS[k]] && b in [CAPITALS[k], SMALLS[k]];
      AlphabetAt(k);
    }
    if LowerChar(a) == LowerChar(b) && a != b {
      var k := LowerChar(a) as int - 'a' as int;
      AlphabetAt(k);
      assert a in [CAPITALS[k], SMALLS[k]] && b in [CAPITALS[k], SMALLS[k]];
    }
  }

  /**
   The two stores agree on who is the same buyer: the keys the Redis set compares byte by byte are equal
   exactly when the emails are equal without regard to case.
   */
  lemma KeysAgreeWithCaseInsensitiveEquality(a: string, b: string)
    ensures NormalizeEmail(a) == NormalizeEmail(b) <==> SameBuyer(a, b)
  {
    NormalizePointwise(a);
    NormalizePointwise(b);
    forall i | 0 <= i < |a| && |a| == |b|
      ensures SameLetter(a[i], b[i]) <==> NormalizeEmail(a)[i] == NormalizeEmail(b)[i] {
      SameLetterIff(a[i], b[i]);
    }
  }

  /** And the key itself is written in small letters only. */
  lemma KeysAreSmall(email: string)
    ensures forall i :: 0 <= i < |NormalizeEmail(email)| ==> NormalizeEmail(email)[i] !in CAPITALS
  {
    NormalizePointwise(email);
    forall i, k | 0 <= i < |email| && 0 <= k < 26 ensures LowerChar(email[i]) != CAPITALS[k] {
      AlphabetAt(k);
    }
  }
}
