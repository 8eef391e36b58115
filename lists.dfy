/** The search the resource handlers perform over API listings: a loop that
    copies fields from every element that matches, so that the element it
    leaves behind is the last match. */
module Lists {
  import opened Wrappers

  function LastWhere<T>(s: seq<T>, p: T -> bool): (r: Option<T>)
    ensures r.Some? ==> p(r.value) && r.value in s
    ensures r.None? <==> forall i :: 0 <= i < |s| ==> !p(s[i])
    decreases |s|
  {
    if s == [] then None
    else if p(s[|s| - 1]) then Some(s[|s| - 1])
    else LastWhere(s[..|s| - 1], p)
  }

  /** The element found is a match that no later element overrides. */
  lemma {:induction false} LastWhereIsLast<T>(s: seq<T>, p: T -> bool)
    requires LastWhere(s, p).Some?
    ensures exists i :: 0 <= i < |s| && s[i] == LastWhere(s, p).value
                        && forall j :: i < j < |s| ==> !p(s[j])
    decreases |s|
  {
    if !p(s[|s| - 1]) {
      var t := s[..|s| - 1];
      LastWhereIsLast(t, p);
      var i :| 0 <= i < |t| && t[i] == LastWhere(t, p).value
                && forall j :: i < j < |t| ==> !p(t[j]);
      assert s[i] == LastWhere(s, p).value;
      forall j | i < j < |s| ensures !p(s[j]) {
        if j < |t| { assert s[j] == t[j]; }
      }
    } else {
      assert s[|s| - 1] == LastWhere(s, p).value;
    }
  }

  /** One more loop iteration: a match replaces the running result, a
      non-match keeps it. */
  lemma LastWhereSnoc<T>(s: seq<T>, x: T, p: T -> bool)
    ensures LastWhere(s + [x], p) == if p(x) then Some(x) else LastWhere(s, p)
  {
    assert (s + [x])[..|s|] == s;
  }

  /** The match the loop leaves is the one at `i` exactly when no later
      element matches. */
  lemma {:induction false} LastWhereAt<T>(s: seq<T>, p: T -> bool, i: int)
    requires 0 <= i < |s| && p(s[i])
    requires forall j :: i < j < |s| ==> !p(s[j])
    ensures LastWhere(s, p) == Some(s[i])
    decreases |s|
  {
    if i < |s| - 1 {
      var t := s[..|s| - 1];
      forall j | i < j < |t| ensures !p(t[j]) {
        assert t[j] == s[j];
      }
      LastWhereAt(t, p, i);
    }
  }

  /** A match in the second part wins over any in the first. */
  lemma {:induction false} LastWhereConcat<T>(a: seq<T>, b: seq<T>, p: T -> bool)
    ensures LastWhere(a + b, p) == if LastWhere(b, p).Some? then LastWhere(b, p) else LastWhere(a, p)
    decreases |b|
  {
    if b == [] {
      assert a + b == a;
    } else {
      var n := |b| - 1;
      LastWhereConcat(a, b[..n], p);
      assert a + b == (a + b[..n]) + [b[n]];
      assert b == b[..n] + [b[n]];
      LastWhereSnoc(a + b[..n], b[n], p);
      LastWhereSnoc(b[..n], b[n], p);
    }
  }
}
