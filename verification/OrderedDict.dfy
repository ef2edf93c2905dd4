/** A dictionary that remembers the order its keys were last put in, oldest first, and the keys
    touched since the last touch of a key. */
module OrderedDict {

  datatype Dict<K, V> = Dict(order: seq<K>, values: map<K, V>)

  function Empty<K, V>(): Dict<K, V> {
    Dict([], map[])
  }

  /** Every key is listed once. */
  ghost predicate Valid<K(!new), V>(d: Dict<K, V>) {
    (forall i, j :: 0 <= i < j < |d.order| ==> d.order[i] != d.order[j])
    && (forall k :: k in d.order <==> k in d.values)
  }

  function Without<K(==, !new)>(s: seq<K>, k: K): (r: seq<K>)
    ensures forall x :: x in r <==> x in s && x != k
    ensures |r| <= |s| && (k !in s ==> r == s) && (k in s ==> |r| < |s|)
  {
    if s == [] then [] else if s[0] == k then Without(s[1..], k) else [s[0]] + Without(s[1..], k)
  }

  function Remove<K(==, !new), V>(d: Dict<K, V>, k: K): Dict<K, V> {
    Dict(Without(d.order, k), d.values - {k})
  }

  /** Insertion, or replacement followed by a move to the end. */
  function Put<K(==, !new), V>(d: Dict<K, V>, k: K, v: V): Dict<K, V> {
    Dict(Without(d.order, k) + [k], d.values[k := v])
  }

  function DropFirst<K(==, !new), V>(d: Dict<K, V>): Dict<K, V>
    requires d.order != []
  {
    Dict(d.order[1..], d.values - {d.order[0]})
  }

  /** Eviction of the oldest keys until at most `max` are left. */
  function Trim<K(==, !new), V>(d: Dict<K, V>, max: nat): Dict<K, V>
    decreases |d.order|
  {
    if |d.order| <= max then d else Trim(DropFirst(d), max)
  }

  /** pop, then insertion */
  lemma PutAfterRemove<K(!new), V>(d: Dict<K, V>, k: K, v: V)
    ensures Put(Remove(d, k), k, v) == Put(d, k, v)
  {
    assert (d.values - {k})[k := v] == d.values[k := v];
  }

  lemma DropValid<K(!new), V>(d: Dict<K, V>)
    requires Valid(d) && d.order != []
    ensures Valid(DropFirst(d))
  {
    assert d.order[0] !in d.order[1..];
    assert forall k :: k in d.order <==> k == d.order[0] || k in d.order[1..];
  }

  // ---- Touches -----------------------------------------------------------------------------------

  /** The keys touched after the last touch of k. */
  ghost function Since<K(!new)>(touches: seq<K>, k: K): (r: set<K>)
    ensures k !in r && forall x :: x in r ==> x in touches
  {
    if touches == [] || touches[|touches| - 1] == k then {}
    else Since(touches[..|touches| - 1], k) + {touches[|touches| - 1]}
  }

  lemma Touch<K(!new)>(touches: seq<K>, k: K, x: K)
    ensures Since(touches + [k], x) == if x == k then {} else Since(touches, x) + {k}
  {
    assert (touches + [k])[..|touches|] == touches;
  }

  lemma {:induction false} Antisymmetric<K(!new)>(touches: seq<K>, x: K, y: K)
    requires x in Since(touches, y)
    ensures y !in Since(touches, x)
  {
    var n := |touches| - 1;
    if touches[n] != x {
      Antisymmetric(touches[..n], x, y);
    }
  }

  /** A list in the order of the last touches. */
  ghost predicate Recent<K(!new)>(order: seq<K>, touches: seq<K>) {
    (forall k :: k in order ==> k in touches)
    && forall i, j :: 0 <= i < j < |order| ==> order[j] in Since(touches, order[i])
  }

  lemma Prepend<K(!new)>(x: K, rest: seq<K>, touches: seq<K>)
    requires Recent(rest, touches) && x in touches
    requires forall y :: y in rest ==> y in Since(touches, x)
    ensures Recent([x] + rest, touches)
  {
    var s := [x] + rest;
    forall i, j | 0 <= i < j < |s| ensures s[j] in Since(touches, s[i]) {
      assert s[j] == rest[j - 1];
      if i > 0 {
        assert s[i] == rest[i - 1];
      }
    }
  }

  lemma Head<K(!new)>(order: seq<K>, touches: seq<K>)
    requires Recent(order, touches) && order != []
    ensures Recent(order[1..], touches) && order[0] in touches
    ensures forall y :: y in order[1..] ==> y in Since(touches, order[0])
  {
    forall y | y in order[1..] ensures y in Since(touches, order[0]) {
      var j :| 0 <= j < |order| - 1 && order[1..][j] == y;
      assert order[j + 1] == y;
    }
  }

  lemma {:induction false} WithoutRecent<K(!new)>(s: seq<K>, k: K, touches: seq<K>)
    requires Recent(s, touches)
    ensures Recent(Without(s, k), touches)
  {
    if s != [] {
      Head(s, touches);
      WithoutRecent(s[1..], k, touches);
      if s[0] != k {
        Prepend(s[0], Without(s[1..], k), touches);
      }
    }
  }

  lemma PutRecent<K(!new)>(s: seq<K>, k: K, touches: seq<K>)
    requires Recent(s, touches)
    ensures Recent(Without(s, k) + [k], touches + [k])
  {
    WithoutRecent(s, k, touches);
    var r := Without(s, k);
    var t := touches + [k];
    forall i, j | 0 <= i < j < |r + [k]| ensures (r + [k])[j] in Since(t, (r + [k])[i]) {
      assert r[i] in r;
      Touch(touches, k, r[i]);
      if j < |r| {
        assert r[j] in r;
      }
    }
  }

  lemma RecentValid<K(!new), V>(d: Dict<K, V>, touches: seq<K>)
    requires Recent(d.order, touches) && forall k :: k in d.order <==> k in d.values
    ensures Valid(d)
  {
  }

  // ---- Counting ------------------------------------------------------------------------------------

  ghost function Elements<K(!new)>(s: seq<K>): set<K> {
    set x | x in s
  }

  lemma Subset<K(!new)>(a: set<K>, b: set<K>)
    requires a <= b
    ensures |a| <= |b|
  {
    assert b == a + (b - a);
  }

  lemma {:induction false} Size<K(!new)>(s: seq<K>, touches: seq<K>)
    requires Recent(s, touches)
    ensures |Elements(s)| == |s|
  {
    if s != [] {
      Head(s, touches);
      Size(s[1..], touches);
      assert s[0] !in s[1..];
      assert Elements(s) == Elements(s[1..]) + {s[0]};
    }
  }

  /** The oldest of a list in order of last touch has seen all the others touched since. */
  lemma OldestIsOld<K(!new)>(order: seq<K>, touches: seq<K>)
    requires Recent(order, touches) && order != []
    ensures |Since(touches, order[0])| >= |order| - 1
  {
    Head(order, touches);
    Size(order[1..], touches);
    Subset(Elements(order[1..]), Since(touches, order[0]));
  }

  // ---- Only puts and evictions ---------------------------------------------------------------------

  /** What puts and evictions alone keep: every key touched since a listed one is listed, and a key that
      is not listed has seen all of a full list touched since. */
  ghost predicate Newest<K(!new)>(order: seq<K>, touches: seq<K>, max: nat) {
    Recent(order, touches)
    && (forall k, x :: k in order && x in Since(touches, k) ==> x in order)
    && (forall k, x :: k in touches && k !in order && x in order ==> x in Since(touches, k))
    && (forall k :: k in touches && k !in order ==> |order| >= max)
  }

  lemma PutNewest<K(!new)>(order: seq<K>, k: K, touches: seq<K>, max: nat)
    requires Newest(order, touches, max)
    ensures Newest(Without(order, k) + [k], touches + [k], max)
  {
    var t := touches + [k];
    var r := Without(order, k) + [k];
    PutRecent(order, k, touches);
    forall y ensures Since(t, y) == if y == k then {} else Since(touches, y) + {k} {
      Touch(touches, k, y);
    }
    forall y | y in t && y !in r ensures |r| >= max {
      assert y in touches && y !in order;
      if k in order { WithoutOnce(order, k, touches); }
    }
  }

  lemma {:induction false} WithoutOnce<K(!new)>(s: seq<K>, k: K, touches: seq<K>)
    requires Recent(s, touches) && k in s
    ensures |Without(s, k)| == |s| - 1
  {
    Head(s, touches);
    if s[0] == k {
      assert k !in s[1..];
    } else {
      assert k in s[1..];
      WithoutOnce(s[1..], k, touches);
    }
  }

  lemma DropNewest<K(!new)>(order: seq<K>, touches: seq<K>, max: nat)
    requires Newest(order, touches, max) && |order| > max
    ensures Newest(order[1..], touches, max)
  {
    var r := order[1..];
    Head(order, touches);
    assert forall x :: x in order <==> x == order[0] || x in r;
    forall k, x | k in r && x in Since(touches, k) ensures x in r {
      Antisymmetric(touches, k, order[0]);
    }
  }

  /** Exactly the keys with fewer than `max` others touched since their last touch are listed. */
  lemma Membership<K(!new)>(order: seq<K>, touches: seq<K>, max: nat, k: K)
    requires Newest(order, touches, max) && |order| <= max && k in touches
    ensures k in order <==> |Since(touches, k)| < max
  {
    Size(order, touches);
    if k in order {
      assert Since(touches, k) <= Elements(order) - {k};
      Subset(Since(touches, k), Elements(order) - {k});
    } else {
      Subset(Elements(order), Since(touches, k));
    }
  }

  /** Fewer than `max` other keys since the last touch of a key. */
  ghost predicate RoomyAt<K(!new)>(touches: seq<K>, k: K, max: nat) {
    k in touches ==> |Since(touches, k)| < max
  }

  /** Fewer than `max` other keys between two touches of one key. */
  ghost predicate Roomy<K(!new)>(touches: seq<K>, max: nat) {
    forall i :: 0 <= i < |touches| ==> RoomyAt(touches[..i], touches[i], max)
  }

  lemma RoomyPrefix<K(!new)>(touches: seq<K>, n: nat, max: nat)
    requires Roomy(touches, max) && n <= |touches|
    ensures Roomy(touches[..n], max)
  {
    forall i | 0 <= i < n ensures RoomyAt(touches[..n][..i], touches[..n][i], max) {
      assert touches[..n][..i] == touches[..i];
    }
  }

  ghost predicate Listed<K(!new), V>(d: Dict<K, V>) {
    forall k :: k in d.order <==> k in d.values
  }

  /** Eviction keeps the newest keys and their values. */
  lemma {:induction false} TrimNewest<K(!new), V>(d: Dict<K, V>, touches: seq<K>, max: nat)
    requires Newest(d.order, touches, max) && Listed(d)
    ensures var t := Trim(d, max);
            |t.order| <= max && Newest(t.order, touches, max) && Listed(t)
            && forall k :: k in t.values ==> k in d.values && t.values[k] == d.values[k]
    decreases |d.order|
  {
    if |d.order| > max {
      DropNewest(d.order, touches, max);
      RecentValid(d, touches);
      DropValid(d);
      TrimNewest(DropFirst(d), touches, max);
    }
  }
}
