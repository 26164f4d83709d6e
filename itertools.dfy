/**
 * The iterator adaptors the shape painter chains together (`zip`,
 * `tuple_windows`, `circular_tuple_windows`, `rev`, `interleave`), each
 * defined the way the adaptor produces its items one at a time, with a lemma
 * that says which input items land at each output position.
 */
module Itertools {

  /** `Iterator::zip`: pairs up the items of two sequences, stopping at the
      end of the shorter one. */
  function Zip<A, B>(a: seq<A>, b: seq<B>): seq<(A, B)>
    decreases |a|
  {
    if a == [] || b == [] then [] else [(a[0], b[0])] + Zip(a[1..], b[1..])
  }

  lemma {:induction false} ZipAt<A, B>(a: seq<A>, b: seq<B>)
    ensures |Zip(a, b)| == if |a| <= |b| then |a| else |b|
    ensures forall i :: 0 <= i < |Zip(a, b)| ==> Zip(a, b)[i] == (a[i], b[i])
    decreases |a|
  {
    if a != [] && b != [] {
      ZipAt(a[1..], b[1..]);
    }
  }

  /** `Itertools::tuple_windows` for pairs: every two consecutive items. */
  function TupleWindows<T>(s: seq<T>): seq<(T, T)>
    decreases |s|
  {
    if |s| < 2 then [] else [(s[0], s[1])] + TupleWindows(s[1..])
  }

  lemma {:induction false} TupleWindowsAt<T>(s: seq<T>)
    ensures |TupleWindows(s)| == if |s| < 2 then 0 else |s| - 1
    ensures forall i :: 0 <= i < |TupleWindows(s)| ==> TupleWindows(s)[i] == (s[i], s[i + 1])
    decreases |s|
  {
    if |s| >= 2 {
      TupleWindowsAt(s[1..]);
    }
  }

  /** `Itertools::circular_tuple_windows` for pairs: the pair windows of the
      sequence cycled once more, one item past its end, so that the last item
      is paired with the first. */
  function CircularTupleWindows<T>(s: seq<T>): seq<(T, T)>
  {
    if s == [] then [] else TupleWindows(s + [s[0]])
  }

  lemma CircularTupleWindowsAt<T>(s: seq<T>)
    ensures |CircularTupleWindows(s)| == |s|
    ensures forall i :: 0 <= i < |s| ==> CircularTupleWindows(s)[i] == (s[i], s[(i + 1) % |s|])
  {
    if s != [] {
      var cycled := s + [s[0]];
      TupleWindowsAt(cycled);
      forall i | 0 <= i < |s|
        ensures CircularTupleWindows(s)[i] == (s[i], s[(i + 1) % |s|])
      {
        assert CircularTupleWindows(s)[i] == (cycled[i], cycled[i + 1]);
        if i + 1 < |s| {
          assert (i + 1) % |s| == i + 1;
        } else {
          assert (i + 1) % |s| == 0;
        }
      }
    }
  }

  /** `Iterator::rev`: the items from last to first. */
  function Reversed<T>(s: seq<T>): seq<T>
    decreases |s|
  {
    if s == [] then [] else [s[|s| - 1]] + Reversed(s[..|s| - 1])
  }

  lemma {:induction false} ReversedAt<T>(s: seq<T>)
    ensures |Reversed(s)| == |s|
    ensures forall i :: 0 <= i < |s| ==> Reversed(s)[i] == s[|s| - 1 - i]
    decreases |s|
  {
    if s != [] {
      ReversedAt(s[..|s| - 1]);
    }
  }

  /** `Itertools::interleave`: one item from `a`, then one from `b`, and so on;
      once one side runs out the rest of the other follows. */
  function Interleave<T>(a: seq<T>, b: seq<T>): seq<T>
    decreases |a| + |b|
  {
    if a == [] then b else [a[0]] + Interleave(b, a[1..])
  }

  /** Interleaving two sequences of the same length (or `a` one longer)
      puts `a[k]` at position 2k and `b[k]` at position 2k + 1. */
  lemma {:induction false} InterleaveAt<T>(a: seq<T>, b: seq<T>)
    requires |b| <= |a| <= |b| + 1
    ensures |Interleave(a, b)| == |a| + |b|
    ensures forall k :: 0 <= k < |a| ==> Interleave(a, b)[2 * k] == a[k]
    ensures forall k :: 0 <= k < |b| ==> Interleave(a, b)[2 * k + 1] == b[k]
    decreases |a| + |b|
  {
    if a != [] {
      var rest := Interleave(b, a[1..]);
      InterleaveAt(b, a[1..]);
      assert Interleave(a, b) == [a[0]] + rest;
      forall k | 0 <= k < |b|
        ensures Interleave(a, b)[2 * k + 1] == b[k]
      {
        assert Interleave(a, b)[2 * k + 1] == rest[2 * k];
      }
      forall k | 1 <= k < |a|
        ensures Interleave(a, b)[2 * k] == a[k]
      {
        assert Interleave(a, b)[2 * k] == rest[2 * (k - 1) + 1];
      }
    }
  }
}
