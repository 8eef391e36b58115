/** supress.go: the diff-suppression function used for `hostname`. */
module Suppress {
  import opened GoStrings

  /** IgnoreCase(key, old, new, d): the two values match once letter case is
      ignored (strings.EqualFold), so Terraform shows no diff. */
  predicate IgnoreCase(key: string, oldValue: string, newValue: string)
  {
    EqualFold(oldValue, newValue)
  }

  lemma IgnoreCaseReflexive(key: string, s: string)
    ensures IgnoreCase(key, s, s)
  {
    EqualFoldIffSameLower(s, s);
  }

  lemma IgnoreCaseSymmetric(key: string, a: string, b: string)
    ensures IgnoreCase(key, a, b) <==> IgnoreCase(key, b, a)
  {
    EqualFoldIffSameLower(a, b);
    EqualFoldIffSameLower(b, a);
  }

  /** The diff is suppressed exactly when the two values lower to the same
      string: they differ in the case of ASCII letters at most. */
  lemma IgnoreCaseIffSameLower(key: string, a: string, b: string)
    ensures IgnoreCase(key, a, b) <==> ToLower(a) == ToLower(b)
  {
    EqualFoldIffSameLower(a, b);
  }

  /** A hostname and its lower-case spelling never produce a diff. */
  lemma IgnoreCaseOfLowered(key: string, s: string)
    ensures IgnoreCase(key, s, ToLower(s))
  {
    ToLowerIdempotent(s);
    EqualFoldIffSameLower(s, ToLower(s));
  }

  /** Values of different lengths are never taken as equal. */
  lemma IgnoreCaseSameLength(key: string, a: string, b: string)
    ensures IgnoreCase(key, a, b) ==> |a| == |b|
  {
    EqualFoldIffSameLower(a, b);
  }

  lemma IgnoreCaseTransitive(key: string, a: string, b: string, c: string)
    ensures IgnoreCase(key, a, b) && IgnoreCase(key, b, c) ==> IgnoreCase(key, a, c)
  {
    EqualFoldIffSameLower(a, b);
    EqualFoldIffSameLower(b, c);
    EqualFoldIffSameLower(a, c);
  }
}
