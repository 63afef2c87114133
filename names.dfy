/**
 * Text helpers used by the ingredient function annotator: lower-casing,
 * the "aqua" spelling of water, and substring search (Python's `in` on str).
 */
module Names {

  predicate IsUpper(c: char) {
    'A' <= c <= 'Z'
  }

  /** No character of `s` is an upper-case ASCII letter. */
  predicate IsLowerCase(s: string) {
    forall i :: 0 <= i < |s| ==> !IsUpper(s[i])
  }

  /** Lower-cases one character; only the letters A-Z change. */
  function LowerChar(c: char): (r: char)
    ensures !IsUpper(r)
    ensures !IsUpper(c) ==> r == c
    ensures IsUpper(c) ==> 'a' <= r <= 'z' && r as int - 'a' as int == c as int - 'A' as int
  {
    if IsUpper(c) then (c as int - 'A' as int + 'a' as int) as char else c
  }

  /** `str.lower()`, restricted to ASCII letters. */
  function ToLower(s: string): (r: string)
    ensures |r| == |s|
  {
    if s == [] then [] else [LowerChar(s[0])] + ToLower(s[1..])
  }

  /** Lower-casing works character by character. */
  lemma {:induction false} ToLowerAt(s: string, i: int)
    requires 0 <= i < |s|
    ensures ToLower(s)[i] == LowerChar(s[i])
  {
    if i > 0 {
      ToLowerAt(s[1..], i - 1);
    }
  }

  /** `c` and `d` are the same character, or the same ASCII letter in different case. */
  predicate SameLetter(c: char, d: char) {
    c == d
    || (IsUpper(c) && d as int == c as int - 'A' as int + 'a' as int)
    || (IsUpper(d) && c as int == d as int - 'A' as int + 'a' as int)
  }

  /** Names that differ only in the case of ASCII letters lower-case to the same name. */
  lemma ToLowerIgnoresCase(a: string, b: string)
    requires |a| == |b|
    requires forall i :: 0 <= i < |a| ==> SameLetter(a[i], b[i])
    ensures ToLower(a) == ToLower(b)
  {
    forall i | 0 <= i < |a|
      ensures ToLower(a)[i] == ToLower(b)[i]
    {
      ToLowerAt(a, i);
      ToLowerAt(b, i);
      SameLetterLower(a[i], b[i]);
    }
  }

  lemma SameLetterLower(c: char, d: char)
    requires SameLetter(c, d)
    ensures LowerChar(c) == LowerChar(d)
  {
  }

  /** The result of lower-casing has no upper-case letter. */
  lemma ToLowerIsLowerCase(s: string)
    ensures IsLowerCase(ToLower(s))
  {
    forall i | 0 <= i < |s|
      ensures !IsUpper(ToLower(s)[i])
    {
      ToLowerAt(s, i);
    }
  }

  /** Lower-casing a lower-case string changes nothing. */
  lemma LowerCaseFixed(s: string)
    requires IsLowerCase(s)
    ensures ToLower(s) == s
  {
    forall i | 0 <= i < |s|
      ensures ToLower(s)[i] == s[i]
    {
      ToLowerAt(s, i);
    }
  }

  /**
   * The name under which an ingredient is looked up: lower-cased, and the
   * INCI spelling "aqua" (in any case) replaced by "water".
   */
  function Normalize(raw: string): (name: string)
    ensures name != "aqua"
    ensures ToLower(raw) == "aqua" ==> name == "water"
    ensures ToLower(raw) != "aqua" ==> name == ToLower(raw)
  {
    var lower := ToLower(raw);
    if lower == "aqua" then "water" else lower
  }

  /** A normalised name is lower-case. */
  lemma NormalizeIsLowerCase(raw: string)
    ensures IsLowerCase(Normalize(raw))
  {
    ToLowerIsLowerCase(raw);
  }

  /** Normalising an already normalised name leaves it as it is. */
  lemma NormalizeIdempotent(raw: string)
    ensures Normalize(Normalize(raw)) == Normalize(raw)
  {
    NormalizeIsLowerCase(raw);
    LowerCaseFixed(Normalize(raw));
  }

  /** Any spelling of "aqua", whatever its case, normalises to "water". */
  lemma AquaIsWater(raw: string)
    requires |raw| == 4
    requires raw[0] in {'a', 'A'} && raw[1] in {'q', 'Q'} && raw[2] in {'u', 'U'} && raw[3] in {'a', 'A'}
    ensures Normalize(raw) == "water"
  {
    var lower := ToLower(raw);
    forall i | 0 <= i < 4
      ensures lower[i] == "aqua"[i]
    {
      ToLowerAt(raw, i);
    }
  }

  /** `sub` occurs in `s` starting at position `i`. */
  predicate OccursAt(s: string, sub: string, i: nat) {
    i + |sub| <= |s| && s[i..i + |sub|] == sub
  }

  /** Python's `sub in s` for strings. */
  function Contains(s: string, sub: string): (found: bool)
    ensures found ==> |sub| <= |s|
    decreases |s|
  {
    if |s| < |sub| then false
    else if s[..|sub|] == sub then true
    else Contains(s[1..], sub)
  }

  /** `Contains` finds exactly the positions where `sub` occurs. */
  lemma {:induction false} ContainsIffOccurs(s: string, sub: string)
    ensures Contains(s, sub) <==> exists i: nat :: OccursAt(s, sub, i)
    decreases |s|
  {
    if |s| < |sub| {
    } else if s[..|sub|] == sub {
      assert OccursAt(s, sub, 0);
    } else {
      ContainsIffOccurs(s[1..], sub);
      OccursShifted(s, sub);
    }
  }

  lemma OccursShifted(s: string, sub: string)
    requires |s| > 0
    ensures forall i: nat :: OccursAt(s[1..], sub, i) <==> OccursAt(s, sub, i + 1)
    ensures forall i: nat :: 0 < i && OccursAt(s, sub, i) ==> OccursAt(s[1..], sub, i - 1)
  {
    forall i: nat
      ensures OccursAt(s[1..], sub, i) <==> OccursAt(s, sub, i + 1)
    {
      if i + |sub| <= |s| - 1 {
        assert s[1..][i..i + |sub|] == s[i + 1..i + 1 + |sub|];
      }
    }
    forall i: nat | 0 < i && OccursAt(s, sub, i)
      ensures OccursAt(s[1..], sub, i - 1)
    {
      assert OccursAt(s, sub, (i - 1) + 1);
    }
  }
}
