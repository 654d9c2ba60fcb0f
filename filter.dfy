/**
 * Character deletion filters.
 *
 * Rust's `str::replace` with a slice of characters as the pattern and the
 * empty string as the replacement deletes every occurrence of any of those
 * characters. csv2ics uses it twice: on time stamps (dropping `-` and `:`)
 * and on the summary that becomes a file name (dropping `/` and `\`).
 */
module CharFilter {

  /** `s` with every character of `drop` deleted, the others kept in order. */
  function Remove(s: string, drop: set<char>): (r: string)
    ensures |r| <= |s|
    ensures forall i :: 0 <= i < |r| ==> r[i] !in drop
  {
    if s == [] then []
    else
      var rest := Remove(s[..|s| - 1], drop);
      if s[|s| - 1] in drop then rest else rest + [s[|s| - 1]]
  }

  /**
   * Reference definition of what Remove keeps: the positions of `s` whose
   * character is not in `drop`, in increasing order.
   */
  function Kept(s: string, drop: set<char>): (ks: seq<nat>)
    ensures forall k :: 0 <= k < |ks| ==> ks[k] < |s| && s[ks[k]] !in drop
    ensures forall k, l :: 0 <= k < l < |ks| ==> ks[k] < ks[l]
    ensures forall i :: 0 <= i < |s| && s[i] !in drop ==> i in ks
  {
    if s == [] then []
    else
      var rest := Kept(s[..|s| - 1], drop);
      if s[|s| - 1] in drop then rest else rest + [|s| - 1]
  }

  /**
   * Order preservation: the k-th character Remove returns is the character
   * of `s` at the k-th kept position. Together with Kept's contract this
   * says that Remove(s, drop) is exactly `s` with the characters of `drop`
   * deleted and nothing else changed.
   */
  lemma {:induction false} RemoveSelectsKept(s: string, drop: set<char>)
    ensures |Remove(s, drop)| == |Kept(s, drop)|
    ensures forall k :: 0 <= k < |Kept(s, drop)| ==> Remove(s, drop)[k] == s[Kept(s, drop)[k]]
  {
    if s != [] {
      var p := s[..|s| - 1];
      RemoveSelectsKept(p, drop);
    }
  }

  /** Deleting from a concatenation deletes from each part. */
  lemma {:induction false} RemoveConcat(a: string, b: string, drop: set<char>)
    ensures Remove(a + b, drop) == Remove(a, drop) + Remove(b, drop)
  {
    if b == [] {
      assert a + b == a;
    } else {
      var b' := b[..|b| - 1];
      assert (a + b)[..|a + b| - 1] == a + b';
      assert (a + b)[|a + b| - 1] == b[|b| - 1];
      RemoveConcat(a, b', drop);
    }
  }

  /** Remove changes nothing exactly when no character of `drop` occurs. */
  lemma {:induction false} RemoveUnchanged(s: string, drop: set<char>)
    ensures Remove(s, drop) == s <==> forall i :: 0 <= i < |s| ==> s[i] !in drop
  {
    if forall i :: 0 <= i < |s| ==> s[i] !in drop {
      if s != [] {
        var p := s[..|s| - 1];
        assert forall i :: 0 <= i < |p| ==> p[i] == s[i];
        RemoveUnchanged(p, drop);
        assert s == p + [s[|s| - 1]];
      }
    }
  }

  /** Applying the filter a second time changes nothing. */
  lemma RemoveIdempotent(s: string, drop: set<char>)
    ensures Remove(Remove(s, drop), drop) == Remove(s, drop)
  {
    RemoveUnchanged(Remove(s, drop), drop);
  }

  /**
   * Every character outside `drop` occurs as often in the result as in the
   * input; characters of `drop` do not occur at all.
   */
  lemma {:induction false} RemoveCounts(s: string, drop: set<char>, c: char)
    ensures multiset(Remove(s, drop))[c] == if c in drop then 0 else multiset(s)[c]
  {
    if s != [] {
      var p := s[..|s| - 1];
      RemoveCounts(p, drop, c);
      assert s == p + [s[|s| - 1]];
    }
  }
}
