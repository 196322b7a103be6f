/**
 * Bounded windows. A `collections.deque(maxlen=n)` that is appended to, a
 * list that is appended to and then trimmed with `pop(0)` or `[-n:]`, and a
 * ring buffer read back in order all keep "the newest n values, oldest first".
 */
module Bounded {

  /** The newest `n` elements of `s`, in their original order (Python's `s[-n:]` for n > 0). */
  function Last<T>(s: seq<T>, n: nat): (r: seq<T>)
    ensures |r| == if |s| <= n then |s| else n
    ensures forall i :: 0 <= i < |r| ==> r[i] == s[|s| - |r| + i]
  {
    if |s| <= n then s else s[|s| - n..]
  }

  /** `deque(maxlen=cap).append(v)`: append, evicting the oldest element when full. */
  function Append<T>(w: seq<T>, v: T, cap: nat): (r: seq<T>)
    ensures |r| <= cap
    ensures cap > 0 ==> |r| > 0 && r[|r| - 1] == v
    ensures |w| < cap ==> r == w + [v]
    ensures |w| == cap > 0 ==> r == w[1..] + [v]
  {
    Last(w + [v], cap)
  }

  /** Appending the values of `vs` one at a time to a deque holding `w`. */
  function AppendAll<T>(w: seq<T>, vs: seq<T>, cap: nat): seq<T>
    decreases |vs|
  {
    if vs == [] then w else AppendAll(Append(w, vs[0], cap), vs[1..], cap)
  }

  /**
   * A window that starts within its cap and receives `vs` one by one ends up
   * holding the newest `cap` values of everything it has seen, in order.
   */
  lemma {:induction false} AppendAllIsLast<T>(w: seq<T>, vs: seq<T>, cap: nat)
    requires |w| <= cap
    ensures AppendAll(w, vs, cap) == Last(w + vs, cap)
    decreases |vs|
  {
    if vs == [] {
      assert w + vs == w;
    } else {
      var v, rest := vs[0], vs[1..];
      var w' := Append(w, v, cap);
      assert w' == Last(w + [v], cap);
      AppendAllIsLast(w', rest, cap);
      LastConcat(w + [v], rest, cap);
      ConsSplit(w, vs);
      calc {
        AppendAll(w, vs, cap);
        AppendAll(w', rest, cap);
        Last(w' + rest, cap);
        Last((w + [v]) + rest, cap);
      }
    }
  }

  lemma ConsSplit<T>(w: seq<T>, vs: seq<T>)
    requires vs != []
    ensures (w + [vs[0]]) + vs[1..] == w + vs
  {
    assert vs == [vs[0]] + vs[1..];
  }

  /** Trimming a prefix to its newest `n` elements does not change the newest `n` of the whole. */
  lemma LastConcat<T>(s: seq<T>, t: seq<T>, n: nat)
    ensures Last(Last(s, n) + t, n) == Last(s + t, n)
  {
    var a := Last(Last(s, n) + t, n);
    var b := Last(s + t, n);
    assert |a| == |b|;
    forall i | 0 <= i < |a|
      ensures a[i] == b[i]
    {
    }
  }
}
