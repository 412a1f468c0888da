// Shared by several models.
module Basics {
  datatype Option<T> = None | Some(value: T)

  function Min(a: nat, b: nat): nat { if a < b then a else b }

  const NUL: char := '\0'

  // What C sees of a string.
  function UpToNul(s: string): (r: string)
    ensures r <= s && NUL !in r && (|r| < |s| ==> s[|r|] == NUL)
    ensures NUL !in s ==> r == s
  {
    if s == "" || s[0] == NUL then "" else [s[0]] + UpToNul(s[1..])
  }

  lemma {:induction false} UpToNulIs(s: string, r: string)
    requires r <= s && NUL !in r && (|r| < |s| ==> s[|r|] == NUL)
    ensures UpToNul(s) == r
  {
    if r != "" { UpToNulIs(s[1..], r[1..]); }
  }

  // HASH_FIND_INT and HASH_ADD_INT hash and compare sizeof(int) bytes of a key, whatever
  // its type.
  const KEY_RANGE: nat := 0x1_0000_0000

  function KeyBytes(key: nat): nat { key % KEY_RANGE }
}
