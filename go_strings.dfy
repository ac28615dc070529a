/** The two functions of Go's `strings` package that the metric helpers use:
    `strings.ToLower` (here on ASCII letters only) and `strings.Contains`. */
module GoStrings {

  /** Maps an ASCII upper-case letter to its lower-case form; every other character is kept. */
  function LowerChar(c: char): char
  {
    if 'A' <= c <= 'Z' then (c as int + 32) as char else c
  }

  predicate IsUpper(c: char)
  {
    'A' <= c <= 'Z'
  }

  /** strings.ToLower, restricted to the ASCII letters. */
  function ToLower(s: string): string
  {
    seq(|s|, i requires 0 <= i < |s| => LowerChar(s[i]))
  }

  /** `sub` occurs in `s` starting at position `i`. */
  predicate OccursAt(s: string, sub: string, i: int)
  {
    0 <= i && i + |sub| <= |s| && s[i..i + |sub|] == sub
  }

  /** strings.Contains(s, sub): some window of `s` equals `sub` (the empty string occurs everywhere). */
  predicate Contains(s: string, sub: string)
  {
    exists i | 0 <= i <= |s| - |sub| :: OccursAt(s, sub, i)
  }

  /** Lower-casing keeps the length, leaves no upper-case letter behind and is idempotent. */
  lemma ToLowerNormalises(s: string)
    ensures |ToLower(s)| == |s|
    ensures forall i :: 0 <= i < |s| ==> !IsUpper(ToLower(s)[i])
    ensures ToLower(ToLower(s)) == ToLower(s)
  {
    var t := ToLower(s);
    forall i | 0 <= i < |s|
      ensures !IsUpper(t[i]) && LowerChar(t[i]) == t[i]
    {
      assert t[i] == LowerChar(s[i]);
    }
  }

  /** The empty string is contained in every string, as with strings.Contains. */
  lemma ContainsEmpty(s: string)
    ensures Contains(s, "")
  {
    assert OccursAt(s, "", 0);
  }

  /** A string with an upper-case letter never occurs in a lower-cased string. */
  lemma UpperNeverInLowered(s: string, sub: string, m: int)
    requires 0 <= m < |sub| && IsUpper(sub[m])
    ensures !Contains(ToLower(s), sub)
  {
    var t := ToLower(s);
    ToLowerNormalises(s);
    if i :| 0 <= i <= |t| - |sub| && OccursAt(t, sub, i) {
      assert false;
    }
  }

  /** Every string contains itself. */
  lemma ContainsSelf(s: string)
    ensures Contains(s, s)
  {
    assert s[0..|s|] == s;
    assert OccursAt(s, s, 0);
  }
}
