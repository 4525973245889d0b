/** What several modules share. */
module Common {

  datatype Option<+T> = None | Some(value: T)

  /** Points in time, in nanoseconds. */
  type Instant = int

  const SECOND: int := 1_000_000_000

  /** `Instant::duration_since`: saturates to zero when `earlier` is the later one. */
  function Since(now: Instant, earlier: Instant): nat {
    if earlier <= now then now - earlier else 0
  }

  lemma Smaller<T>(a: set<T>, b: set<T>)
    requires a <= b
    ensures |a| <= |b|
  {
    assert b == a + (b - a);
  }

  lemma UnionSize<T>(a: set<T>, b: set<T>)
    ensures |a + b| <= |a| + |b|
  {
    assert a + b == a + (b - a);
    Smaller(b - a, b);
  }

  lemma Regroup<T>(a: seq<T>, b: seq<T>, c: seq<T>)
    ensures (a + b) + c == a + (b + c)
  {}

  /** A piece of a prefix is the same piece of the whole. */
  lemma PieceOfPrefix<T>(s: seq<T>, t: seq<T>, lo: nat, hi: nat)
    requires lo <= hi <= |s| <= |t| && t[..|s|] == s
    ensures t[lo..hi] == s[lo..hi]
  {
    assert forall i :: lo <= i < hi ==> t[i] == t[..|s|][i];
  }

  /** Strings that differ, one for each number. */
  function Name(n: nat): (name: string)
    ensures |name| == n
  {
    seq(n, _ => 'x')
  }

  lemma {:induction false} BijectionSize<K, V>(m: map<K, V>)
    requires forall a, b :: a in m && b in m && m[a] == m[b] ==> a == b
    ensures |m.Keys| == |m.Values|
  {
    if m != map[] {
      var a :| a in m;
      var rest := m - {a};
      assert rest.Keys == m.Keys - {a};
      forall u | u in m.Values && u != m[a]
        ensures u in rest.Values
      {
        var b :| b in m && m[b] == u;
        assert b in rest && rest[b] == u;
      }
      assert rest.Values == m.Values - {m[a]};
      BijectionSize(rest);
    }
  }
}
