/**
 * The two string services the name lookups rely on: `string.IsNullOrWhiteSpace`
 * for argument validation and `StringComparison.OrdinalIgnoreCase` for matching.
 */
module Strings {
  import opened Wrappers

  /** `Char.IsWhiteSpace`: the Unicode space, line and paragraph separators
      together with the controls U+0009..U+000D and U+0085. */
  predicate IsWhiteSpace(c: char): (w: bool)
    ensures c < '\U{80}' ==> (w <==> c == ' ' || '\U{9}' <= c <= '\U{D}')
    ensures w ==> FoldChar(c) == c
  {
    || '\U{9}' <= c <= '\U{D}'
    || c == ' '
    || c == '\U{85}'
    || c == '\U{A0}'
    || c == '\U{1680}'
    || '\U{2000}' <= c <= '\U{200A}'
    || c == '\U{2028}'
    || c == '\U{2029}'
    || c == '\U{202F}'
    || c == '\U{205F}'
    || c == '\U{3000}'
  }

  /** `string.IsNullOrWhiteSpace`: null, empty, or white space only. */
  predicate IsNullOrWhiteSpace(s: Option<string>): (blank: bool)
    ensures s.None? || s == Some("") ==> blank
    ensures s.Some? && (exists i :: 0 <= i < |s.value| && !IsWhiteSpace(s.value[i])) ==> !blank
    ensures blank && s.Some? ==> Fold(s.value) == s.value
  {
    FoldWhiteSpace(s);
    s.None? || forall i :: 0 <= i < |s.value| ==> IsWhiteSpace(s.value[i])
  }

  lemma FoldWhiteSpace(s: Option<string>)
    ensures s.Some? && (forall i :: 0 <= i < |s.value| ==> IsWhiteSpace(s.value[i])) ==> Fold(s.value) == s.value
  {
    if s.Some? && forall i :: 0 <= i < |s.value| ==> IsWhiteSpace(s.value[i]) {
      forall i | 0 <= i < |s.value| ensures Fold(s.value)[i] == s.value[i] {
        FoldAt(s.value, i);
      }
    }
  }

  /** The per-character fold of an ordinal case-insensitive comparison:
      lower-case ASCII letters are mapped to their upper-case partners. */
  function FoldChar(c: char): (u: char) {
    if 'a' <= c <= 'z' then (c as int - 32) as char else c
  }

  /** The whole-string fold, `ToUpperInvariant` restricted to ASCII letters. */
  function Fold(s: string): (f: string)
    ensures |f| == |s|
  {
    if s == [] then [] else [FoldChar(s[0])] + Fold(s[1..])
  }

  lemma {:induction false} FoldAt(s: string, i: nat)
    requires i < |s|
    ensures Fold(s)[i] == FoldChar(s[i])
  {
    if i > 0 {
      FoldAt(s[1..], i - 1);
    }
  }

  /** `a.Equals(b, StringComparison.OrdinalIgnoreCase)`: same length and the
      same character at every position once folded. */
  predicate EqualsIgnoreCase(a: string, b: string): (eq: bool)
    ensures eq ==> |a| == |b|
    ensures a == b ==> eq
  {
    |a| == |b| && forall i :: 0 <= i < |a| ==> FoldChar(a[i]) == FoldChar(b[i])
  }

  /** Comparing ignoring case is comparing the folded strings. */
  lemma EqualsIgnoreCaseIffSameFold(a: string, b: string)
    ensures EqualsIgnoreCase(a, b) <==> Fold(a) == Fold(b)
  {
    if EqualsIgnoreCase(a, b) {
      forall i | 0 <= i < |a| ensures Fold(a)[i] == Fold(b)[i] {
        FoldAt(a, i);
        FoldAt(b, i);
      }
    }
    if Fold(a) == Fold(b) {
      forall i | 0 <= i < |a| ensures FoldChar(a[i]) == FoldChar(b[i]) {
        FoldAt(a, i);
        FoldAt(b, i);
      }
    }
  }

  /** The comparison is an equivalence relation on names. */
  lemma EqualsIgnoreCaseIsEquivalence(a: string, b: string, c: string)
    ensures EqualsIgnoreCase(a, a)
    ensures EqualsIgnoreCase(a, b) ==> EqualsIgnoreCase(b, a)
    ensures EqualsIgnoreCase(a, b) && EqualsIgnoreCase(b, c) ==> EqualsIgnoreCase(a, c)
  {
  }

  /** "Sales", "sales" and "SALES" name the same thing; "Sale" does not. */
  lemma CaseVariantsCoincide()
    ensures EqualsIgnoreCase("Sales", "sales") && EqualsIgnoreCase("sales", "SALES")
    ensures EqualsIgnoreCase("SALES", "Sales")
    ensures !EqualsIgnoreCase("Sales", "Sale")
  {
  }

  /** Example checks of the white-space table: null, empty and control-only
      strings are blank; a name with letters, even padded with spaces, is not. */
  lemma BlankNames()
    ensures IsNullOrWhiteSpace(None) && IsNullOrWhiteSpace(Some(""))
    ensures IsNullOrWhiteSpace(Some(" \t\r\n"))
    ensures !IsNullOrWhiteSpace(Some(" Sales "))
  {
    assert !IsWhiteSpace(" Sales "[1]);
  }
}
