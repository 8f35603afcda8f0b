/**
 * Identifier generation (cmd/server/main.go, letterBytes, shortURLsize and
 * RandString). The pseudo-random source is not modelled: the indices it
 * would draw enter as a parameter.
 */
module ShortIds {

  /**
   * The alphabet ids are drawn from, in the order the source lists it
   * (one literal there, written here as its three runs).
   */
  const LetterBytes := "abcdefghijklmnopqrstuvwxyz" + "ABCDEFGHIJKLMNOPQRSTUVWXYZ" + "1234567890"

  /** The length the source declares for generated ids. */
  const ShortURLSize := 10

  predicate IsAlphaNum(c: char)
  {
    'a' <= c <= 'z' || 'A' <= c <= 'Z' || '0' <= c <= '9'
  }

  /** The alphabet described by its three ranges: a-z, A-Z, then 1-9 and 0. */
  function AlphabetAt(k: nat): char
    requires k < 62
  {
    if k < 26 then ('a' as int + k) as char
    else if k < 52 then ('A' as int + (k - 26)) as char
    else if k < 61 then ('1' as int + (k - 52)) as char
    else '0'
  }

  lemma LowerAt(k: int)
    requires 0 <= k < 26
    ensures "abcdefghijklmnopqrstuvwxyz"[k] == ('a' as int + k) as char
  {
  }

  lemma UpperAt(k: int)
    requires 0 <= k < 26
    ensures "ABCDEFGHIJKLMNOPQRSTUVWXYZ"[k] == ('A' as int + k) as char
  {
  }

  lemma DigitAt(k: int)
    requires 0 <= k < 10
    ensures "1234567890"[k] == if k < 9 then ('1' as int + k) as char else '0'
  {
  }

  /** Position `k` of the alphabet holds the `k`-th letter of the three ranges. */
  lemma LetterBytesAt(k: int)
    requires 0 <= k < 62
    ensures |LetterBytes| == 62 && LetterBytes[k] == AlphabetAt(k)
  {
    if k < 26 {
      LowerAt(k);
    } else if k < 52 {
      UpperAt(k - 26);
    } else {
      DigitAt(k - 52);
    }
  }

  /** Every letter of the alphabet is an ASCII letter or digit. */
  lemma LetterBytesAreAlphaNum(c: char)
    requires c in LetterBytes
    ensures IsAlphaNum(c)
  {
    var k :| 0 <= k < |LetterBytes| && LetterBytes[k] == c;
    LetterBytesAt(k);
  }

  /** Every ASCII letter and digit is in the alphabet. */
  lemma AlphaNumInLetterBytes(c: char)
    requires IsAlphaNum(c)
    ensures c in LetterBytes
  {
    var k := if 'a' <= c <= 'z' then c as int - 'a' as int
             else if 'A' <= c <= 'Z' then 26 + (c as int - 'A' as int)
             else if c == '0' then 61
             else 52 + (c as int - '1' as int);
    LetterBytesAt(k);
  }

  /** No letter appears twice. */
  lemma LetterBytesDistinct(i: int, j: int)
    requires 0 <= i < j < |LetterBytes|
    ensures LetterBytes[i] != LetterBytes[j]
  {
    LetterBytesAt(i);
    LetterBytesAt(j);
  }

  /**
   * The alphabet holds exactly the 62 ASCII letters and digits, each once,
   * so a uniform index draw picks each of them with equal chance.
   */
  lemma LetterBytesIsAlphanumeric()
    ensures |LetterBytes| == 62
    ensures forall c :: c in LetterBytes <==> IsAlphaNum(c)
    ensures forall i, j :: 0 <= i < j < |LetterBytes| ==> LetterBytes[i] != LetterBytes[j]
  {
    forall c | c in LetterBytes
      ensures IsAlphaNum(c)
    {
      LetterBytesAreAlphaNum(c);
    }
    forall c | IsAlphaNum(c)
      ensures c in LetterBytes
    {
      AlphaNumInLetterBytes(c);
    }
    forall i, j | 0 <= i < j < |LetterBytes|
      ensures LetterBytes[i] != LetterBytes[j]
    {
      LetterBytesDistinct(i, j);
    }
  }

  /**
   * Fills a buffer of `n` bytes, position by position, with the letter at
   * the index drawn for that position.
   */
  method RandString(n: nat, draws: seq<nat>) returns (s: string)
    requires |draws| == n
    requires forall i :: 0 <= i < n ==> draws[i] < |LetterBytes|
    ensures |s| == n
    ensures forall i :: 0 <= i < n ==> s[i] == LetterBytes[draws[i]]
    ensures forall i :: 0 <= i < n ==> IsAlphaNum(s[i])
  {
    LetterBytesIsAlphanumeric();
    var b := new char[n];
    for i := 0 to n
      invariant forall j :: 0 <= j < i ==> b[j] == LetterBytes[draws[j]]
    {
      b[i] := LetterBytes[draws[i]];
    }
    s := b[..];
  }
}
