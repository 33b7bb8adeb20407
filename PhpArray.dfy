/** PHP arrays as the audit code uses them: ordered maps from string keys to
    values, where `$a[$k] = $v` replaces the value in place when `$k` is present
    and appends otherwise, and a missing key reads as `null`. */
module PhpArray {

  /** `null` (or a missing key: `isset` treats both alike) versus a value. */
  datatype Option<+T> = None | Some(value: T) {
    function GetOr(default: T): T {
      if Some? then value else default
    }
  }

  /** An ordered map; the order is PHP's insertion order. */
  type OrdMap<V> = seq<(string, V)>

  function Keys<V>(m: OrdMap<V>): seq<string> {
    seq(|m|, i requires 0 <= i < |m| => m[i].0)
  }

  predicate HasKey<V>(m: OrdMap<V>, k: string) {
    exists i :: 0 <= i < |m| && m[i].0 == k
  }

  /** PHP arrays never hold a key twice. */
  predicate DistinctKeys<V>(m: OrdMap<V>) {
    forall i, j :: 0 <= i < j < |m| ==> m[i].0 != m[j].0
  }

  /** The position of `k`: PHP keeps one entry per key, this is the first. */
  function IndexOf<V>(m: OrdMap<V>, k: string): (i: nat)
    requires HasKey(m, k)
    ensures i < |m| && m[i].0 == k
    ensures forall j :: 0 <= j < i ==> m[j].0 != k
  {
    if m[0].0 == k then 0
    else
      assert HasKey(m[1..], k) by {
        var i :| 0 <= i < |m| && m[i].0 == k;
        assert i > 0 && m[1..][i - 1].0 == k;
      }
      1 + IndexOf(m[1..], k)
  }

  /** `$m[$k]`: the value stored under `k`, or `None`. */
  function Get<V>(m: OrdMap<V>, k: string): (r: Option<V>)
    ensures r.Some? <==> HasKey(m, k)
  {
    if HasKey(m, k) then Some(m[IndexOf(m, k)].1) else None
  }

  /** `$m[$k] = $v`. */
  function Put<V>(m: OrdMap<V>, k: string, v: V): (r: OrdMap<V>)
    ensures HasKey(m, k) ==> |r| == |m| && forall i :: 0 <= i < |m| ==> r[i].0 == m[i].0
    ensures !HasKey(m, k) ==> r == m + [(k, v)]
  {
    if HasKey(m, k) then m[IndexOf(m, k) := (k, v)] else m + [(k, v)]
  }

  /** Writing a key makes it read back, and leaves every other key as it was. */
  lemma GetPut<V>(m: OrdMap<V>, k: string, v: V)
    ensures Get(Put(m, k, v), k) == Some(v)
    ensures forall k' :: k' != k ==> Get(Put(m, k, v), k') == Get(m, k')
  {
    var r := Put(m, k, v);
    assert HasKey(r, k) by {
      if HasKey(m, k) { assert r[IndexOf(m, k)].0 == k; } else { assert r[|m|].0 == k; }
    }
    forall k' | k' != k ensures Get(r, k') == Get(m, k') {
      if HasKey(m, k') {
        assert r[IndexOf(m, k')].0 == k';
        assert IndexOf(r, k') == IndexOf(m, k');
      }
    }
  }

  /** A second write of a key replaces the first in place. */
  lemma PutPut<V>(m: OrdMap<V>, k: string, v: V, w: V)
    ensures Put(Put(m, k, v), k, w) == Put(m, k, w)
  {
    var r := Put(m, k, v);
    if HasKey(m, k) {
      assert IndexOf(r, k) == IndexOf(m, k);
    } else {
      assert r[|m|].0 == k;
      assert IndexOf(r, k) == |m|;
    }
  }

  /** Writing keeps PHP's one-entry-per-key shape. */
  lemma PutDistinct<V>(m: OrdMap<V>, k: string, v: V)
    requires DistinctKeys(m)
    ensures DistinctKeys(Put(m, k, v))
  {
  }

  /** `foreach ($m as $k => $v) { $r[$k] = f($v); }` */
  function MapValues<V, W>(m: OrdMap<V>, f: V -> W): (r: OrdMap<W>)
    ensures |r| == |m| && Keys(r) == Keys(m)
  {
    seq(|m|, i requires 0 <= i < |m| => (m[i].0, f(m[i].1)))
  }

  /** Reading a mapped array is mapping the value read. */
  lemma GetMapValues<V, W>(m: OrdMap<V>, f: V -> W, k: string)
    ensures Get(MapValues(m, f), k) == if HasKey(m, k) then Some(f(Get(m, k).value)) else None
  {
    var r := MapValues(m, f);
    assert forall j :: 0 <= j < |m| ==> r[j].0 == m[j].0;
    if HasKey(m, k) {
      var i := IndexOf(m, k);
      assert r[i].0 == k;
      assert IndexOf(r, k) == i;
    }
  }

  /** With distinct keys, the value stored at a position is the value of its key. */
  lemma GetAt<V>(m: OrdMap<V>, i: nat)
    requires DistinctKeys(m) && i < |m|
    ensures Get(m, m[i].0) == Some(m[i].1)
  {
    if i > 0 {
      assert m[0].0 != m[i].0;
      assert DistinctKeys(m[1..]) by {
        forall a, b | 0 <= a < b < |m| - 1 ensures m[1..][a].0 != m[1..][b].0 {
          assert m[a + 1].0 != m[b + 1].0;
        }
      }
      GetAt(m[1..], i - 1);
    }
  }

  /** A property holds somewhere in a list extended by one element exactly
      when it holds somewhere before or at the new element. */
  lemma ExistsSnoc<T>(init: seq<T>, x: T, p: T -> bool)
    ensures (exists i :: 0 <= i < |init + [x]| && p((init + [x])[i])) <==>
      (exists i :: 0 <= i < |init| && p(init[i])) || p(x)
  {
    var s := init + [x];
    assert s[|init|] == x;
    if exists i :: 0 <= i < |init| && p(init[i]) {
      var i :| 0 <= i < |init| && p(init[i]);
      assert s[i] == init[i];
    }
    if exists i :: 0 <= i < |s| && p(s[i]) {
      var i :| 0 <= i < |s| && p(s[i]);
      if i < |init| {
        assert init[i] == s[i];
      }
    }
  }

  /** The same, for an element appended only when `c` holds. */
  lemma ExistsCond<T>(init: seq<T>, s: seq<T>, x: T, c: bool, p: T -> bool)
    requires s == if c then init + [x] else init
    ensures (exists i :: 0 <= i < |s| && p(s[i])) <==> (exists i :: 0 <= i < |init| && p(init[i])) || (c && p(x))
  {
    if c {
      ExistsSnoc(init, x, p);
    }
  }
}
