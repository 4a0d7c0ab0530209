/**
 * Labelled metric vectors of the Prometheus client as maps from a label
 * tuple to a value. A series exists once `With` has resolved it; a counter
 * or gauge series that does not exist reads as 0.
 */
module Metrics {
  /** The value of the series at `k`, 0 before `With` first resolves it. */
  function Value<K>(m: map<K, int>, k: K): int
  {
    if k in m then m[k] else 0
  }

  /** `vec.With(k)` alone: the series exists afterwards; no value changes. */
  function Resolve<K>(m: map<K, int>, k: K): (r: map<K, int>)
    ensures r.Keys == m.Keys + {k}
    ensures forall j :: j in m ==> r[j] == m[j]
    ensures r[k] == Value(m, k)
  {
    if k in m then m else m[k := 0]
  }

  /** `vec.With(k).Set(v)` on a gauge vector: the series at `k` holds `v` afterwards, whatever it held. */
  function Set<K>(m: map<K, int>, k: K, v: int): (r: map<K, int>)
    ensures r.Keys == m.Keys + {k}
    ensures r[k] == v
    ensures forall j :: j in m && j != k ==> r[j] == m[j]
  {
    m[k := v]
  }

  /** `vec.With(k).Add(d)` (and `Inc`, with d = 1): only the series at `k` moves, by `d`. */
  function Add<K>(m: map<K, int>, k: K, d: int): (r: map<K, int>)
    ensures r.Keys == m.Keys + {k}
    ensures r[k] == Value(m, k) + d
    ensures forall j :: j in m && j != k ==> r[j] == m[j]
  {
    m[k := Value(m, k) + d]
  }

  /** `vec.With(k).Observe(x)` on a histogram kept as the list of its observations. */
  function Observe<K>(m: map<K, seq<int>>, k: K, x: int): (r: map<K, seq<int>>)
    ensures r.Keys == m.Keys + {k}
    ensures r[k] == (if k in m then m[k] else []) + [x]
    ensures forall j :: j in m && j != k ==> r[j] == m[j]
  {
    m[k := (if k in m then m[k] else []) + [x]]
  }
}
