/** The bounded counter of failed authentications per client and minute, against the full list of failures. */
module FailureLimiter {
  import opened Wrappers
  import opened OrderedDict
  import RateLimiter

  /** A client's count in the minute of its last failure. */
  datatype Tally = Tally(window: int, count: nat)

  type Windows = Dict<string, Tally>

  function Recorded(d: Windows, client: string, current: int, max: nat): Windows {
    var count := if client in d.values && d.values[client].window == current then d.values[client].count + 1 else 1;
    Trim(Put(d, client, Tally(current, count)), max)
  }

  function Blocks(d: Windows, client: string, current: int, limit: int): bool {
    var t := if client in d.values then d.values[client] else Tally(0, 0);
    t.window == current && t.count >= limit
  }

  class FailureLimiter {
    const limit: int
    const maxClients: nat
    var windows: Windows

    constructor (limit: int, maxClients: nat)
      ensures this.limit == limit && this.maxClients == maxClients && windows == Empty()
    {
      this.limit, this.maxClients := limit, maxClients;
      windows := Empty();
    }

    /** Seconds until the client may try again, or None. The clock is read again for the answer, which is the rest
        of the minute of that reading. */
    method Blocked(client: string, now: real, again: real) returns (r: Option<int>)
      ensures r.Some? <==> Blocks(windows, client, RateLimiter.WindowOf(now), limit)
      ensures r.Some? ==> 1 <= r.value <= 60 && again.Floor + r.value == (RateLimiter.WindowOf(again) + 1) * 60
    {
      var t := if client in windows.values then windows.values[client] else Tally(0, 0);
      if t.window == (now / 60.0).Floor && t.count >= limit {
        RestOfMinute(again);
        return Some(60 - (again - 60.0 * (again / 60.0).Floor as real).Floor);
      }
      r := None;
    }

    method RecordFailure(client: string, now: real)
      modifies this
      ensures windows == Recorded(old(windows), client, RateLimiter.WindowOf(now), maxClients)
    {
      var current := (now / 60.0).Floor;
      var t := if client in windows.values then windows.values[client] else Tally(current, 0);
      var counted := Tally(current, if t.window == current then t.count + 1 else 1);
      windows := Put(Remove(windows, client), client, counted);
      PutAfterRemove(old(windows), client, counted);
      while |windows.order| > maxClients
        invariant Trim(windows, maxClients) == Recorded(old(windows), client, RateLimiter.WindowOf(now), maxClients)
        decreases |windows.order|
      {
        windows := DropFirst(windows);
      }
    }
  }

  lemma RestOfMinute(now: real)
    ensures var rest := (now - 60.0 * RateLimiter.WindowOf(now) as real).Floor;
            0 <= rest < 60 && now.Floor == 60 * RateLimiter.WindowOf(now) + rest
  {
    var w, f := RateLimiter.WindowOf(now), now.Floor;
    assert w as real <= now / 60.0 < w as real + 1.0;
    assert 60.0 * w as real == (60 * w) as real;
    assert (f - 60 * w) as real == f as real - 60.0 * w as real;
  }

  // ---- Runs ----------------------------------------------------------------------------------------

  datatype Failed = Failed(client: string, window: int)

  function After(fs: seq<Failed>, max: nat): Windows {
    if fs == [] then Empty()
    else Recorded(After(fs[..|fs| - 1], max), fs[|fs| - 1].client, fs[|fs| - 1].window, max)
  }

  /** The clock does not go back. */
  ghost predicate Ordered(fs: seq<Failed>) {
    forall i, j :: 0 <= i < j < |fs| ==> fs[i].window <= fs[j].window
  }

  function Clients(fs: seq<Failed>): (r: seq<string>)
    ensures |r| == |fs| && forall i :: 0 <= i < |r| ==> r[i] == fs[i].client
  {
    seq(|fs|, i requires 0 <= i < |fs| => fs[i].client)
  }

  /** All failures of a client in a minute. */
  ghost function Failures(fs: seq<Failed>, client: string, window: int): nat {
    if fs == [] then 0
    else Failures(fs[..|fs| - 1], client, window) + if fs[|fs| - 1] == Failed(client, window) then 1 else 0
  }

  /** The minute of a client's last failure. */
  ghost function LastWindow(fs: seq<Failed>, client: string): Option<int> {
    if fs == [] then None
    else if fs[|fs| - 1].client == client then Some(fs[|fs| - 1].window)
    else LastWindow(fs[..|fs| - 1], client)
  }

  /** What is held: between one and all of the failures of the client's last minute. */
  ghost predicate Faithful(fs: seq<Failed>, d: Windows) {
    forall c :: c in d.values ==>
      var t := d.values[c];
      LastWindow(fs, c) == Some(t.window) && 1 <= t.count <= Failures(fs, c, t.window)
  }

  lemma {:induction false} NothingYet(fs: seq<Failed>, c: string, w: int)
    requires LastWindow(fs, c).None? || (Ordered(fs) && LastWindow(fs, c).value < w)
    ensures Failures(fs, c, w) == 0
  {
    if fs != [] {
      var n := |fs| - 1;
      if fs[n].client != c {
        NothingYet(fs[..n], c, w);
      } else {
        NoLater(fs, c, w);
      }
    }
  }

  lemma {:induction false} NoLater(fs: seq<Failed>, c: string, w: int)
    requires forall i :: 0 <= i < |fs| ==> fs[i].window < w
    ensures Failures(fs, c, w) == 0
  {
    if fs != [] {
      NoLater(fs[..|fs| - 1], c, w);
    }
  }

  lemma {:induction false} LastIsKnown(fs: seq<Failed>, c: string)
    ensures LastWindow(fs, c).Some? <==> c in Clients(fs)
    ensures Ordered(fs) && fs != [] && LastWindow(fs, c).Some? ==> LastWindow(fs, c).value <= fs[|fs| - 1].window
  {
    if fs != [] {
      var n := |fs| - 1;
      LastIsKnown(fs[..n], c);
      assert Clients(fs) == Clients(fs[..n]) + [fs[n].client];
      if n > 0 {
        assert fs[n - 1].window <= fs[n].window || !Ordered(fs);
      }
    }
  }

  lemma RecordedNewest(clients: seq<string>, d: Windows, client: string, current: int, max: nat)
    requires Newest(d.order, clients, max) && Listed(d)
    ensures var t := Recorded(d, client, current, max);
            var again := client in d.values && d.values[client].window == current;
            var count := if again then d.values[client].count + 1 else 1;
            |t.order| <= max && Newest(t.order, clients + [client], max) && Listed(t)
            && forall c :: c in t.values ==>
                 ((c == client || c in d.values)
                   && t.values[c] == if c == client then Tally(current, count) else d.values[c])
  {
    hide Newest, Trim;
    var count := if client in d.values && d.values[client].window == current then d.values[client].count + 1 else 1;
    PutNewest(d.order, client, clients, max);
    TrimNewest(Put(d, client, Tally(current, count)), clients + [client], max);
  }

  lemma FaithfulStep(fs: seq<Failed>, f: Failed, d: Windows, max: nat)
    requires Newest(d.order, Clients(fs), max) && Listed(d) && Faithful(fs, d)
    ensures var t := Recorded(d, f.client, f.window, max);
            |t.order| <= max && Newest(t.order, Clients(fs + [f]), max) && Listed(t) && Faithful(fs + [f], t)
  {
    hide Newest, Recorded, Listed;
    RecordedNewest(Clients(fs), d, f.client, f.window, max);
    assert Clients(fs + [f]) == Clients(fs) + [f.client];
    assert (fs + [f])[..|fs|] == fs;
  }

  lemma EarlierIsOrdered(fs: seq<Failed>, f: Failed)
    requires Ordered(fs + [f])
    ensures Ordered(fs) && (fs != [] ==> fs[|fs| - 1].window <= f.window)
  {
    var all := fs + [f];
    assert forall i :: 0 <= i < |fs| ==> fs[i] == all[i];
    assert fs != [] ==> all[|fs| - 1].window <= all[|fs|].window;
  }

  lemma {:induction false} EveryRunIsFaithful(fs: seq<Failed>, max: nat)
    ensures var d := After(fs, max);
            |d.order| <= max && Newest(d.order, Clients(fs), max) && Listed(d) && Faithful(fs, d)
  {
    hide Newest, Recorded, Faithful;
    if fs == [] {
      assert Newest([], Clients(fs), max) && Faithful(fs, Empty()) by { NothingIsFaithful(max); }
    } else {
      var n := |fs| - 1;
      EveryRunIsFaithful(fs[..n], max);
      assert fs == fs[..n] + [fs[n]];
      FaithfulStep(fs[..n], fs[n], After(fs[..n], max), max);
    }
  }

  lemma NothingIsFaithful(max: nat)
    ensures Newest([], Clients([]), max) && Faithful([], Empty())
  {
  }

  ghost predicate Possible(fs: seq<Failed>, window: int) {
    Ordered(fs) && forall i :: 0 <= i < |fs| ==> fs[i].window <= window
  }

  /** However many clients there are, nobody is blocked before reaching the limit in the present minute. */
  lemma NeverBlocksEarly(fs: seq<Failed>, client: string, window: int, limit: int, max: nat)
    requires Possible(fs, window) && limit >= 1
    ensures Blocks(After(fs, max), client, window, limit) ==> Failures(fs, client, window) >= limit
  {
    EveryRunIsFaithful(fs, max);
  }

  /** Fewer than `max` other clients failed between two failures of a client in one minute. */
  ghost predicate Unbroken(fs: seq<Failed>, client: string, window: int, max: nat) {
    forall i :: 0 <= i < |fs| && fs[i] == Failed(client, window) && LastWindow(fs[..i], client) == Some(window) ==>
      |Since(Clients(fs[..i]), client)| < max
  }

  /** A client that failed this minute has had room ever since its first failure in it. */
  ghost predicate Remembered(fs: seq<Failed>, client: string, window: int, max: nat) {
    LastWindow(fs, client) == Some(window) ==>
      Unbroken(fs, client, window, max) && |Since(Clients(fs), client)| < max
  }

  lemma UnbrokenPush(fs: seq<Failed>, f: Failed, client: string, window: int, max: nat)
    ensures Unbroken(fs + [f], client, window, max) <==>
            Unbroken(fs, client, window, max)
            && (f == Failed(client, window) && LastWindow(fs, client) == Some(window) ==>
               |Since(Clients(fs), client)| < max)
  {
    var all := fs + [f];
    assert all[..|fs|] == fs && all[|fs|] == f;
    assert forall i :: 0 <= i < |fs| ==> all[..i] == fs[..i] && all[i] == fs[i];
  }

  lemma {:induction false} SomeFailure(fs: seq<Failed>, c: string, w: int)
    ensures Failures(fs, c, w) == 0 <==> forall i :: 0 <= i < |fs| ==> fs[i] != Failed(c, w)
    ensures LastWindow(fs, c) == Some(w) ==> Failures(fs, c, w) > 0
  {
    if fs != [] {
      var n := |fs| - 1;
      SomeFailure(fs[..n], c, w);
      assert forall i :: 0 <= i < n ==> fs[..n][i] == fs[i];
    }
  }

  lemma PushedFailures(fs: seq<Failed>, f: Failed, c: string, w: int)
    ensures Failures(fs + [f], c, w) == Failures(fs, c, w) + if f == Failed(c, w) then 1 else 0
    ensures LastWindow(fs + [f], c) == if f.client == c then Some(f.window) else LastWindow(fs, c)
  {
    assert (fs + [f])[..|fs|] == fs;
  }

  /** The held count of the present minute is all of it exactly when it was never interrupted. */
  ghost predicate WholeIffUnbroken(fs: seq<Failed>, client: string, window: int, max: nat) {
    var d := After(fs, max);
    client in d.values && LastWindow(fs, client) == Some(window) ==>
      (d.values[client].count == Failures(fs, client, window) <==> Unbroken(fs, client, window, max))
  }

  lemma {:induction false} HeldIsWhole(fs: seq<Failed>, client: string, window: int, max: nat)
    requires Ordered(fs)
    ensures WholeIffUnbroken(fs, client, window, max)
  {
    if fs != [] {
      var n := |fs| - 1;
      assert fs == fs[..n] + [fs[n]];
      EarlierIsOrdered(fs[..n], fs[n]);
      HeldIsWhole(fs[..n], client, window, max);
      WholeStep(fs[..n], fs[n], client, window, max);
    }
  }

  lemma WholeStep(fs: seq<Failed>, f: Failed, client: string, window: int, max: nat)
    requires Ordered(fs + [f]) && WholeIffUnbroken(fs, client, window, max)
    ensures WholeIffUnbroken(fs + [f], client, window, max)
  {
    hide Newest, Recorded, Since, Unbroken, Ordered, Failures, LastWindow;
    var d := After(fs, max);
    assert (fs + [f])[..|fs|] == fs;
    assert After(fs + [f], max) == Recorded(d, f.client, f.window, max);
    EveryRunIsFaithful(fs, max);
    RecordedNewest(Clients(fs), d, f.client, f.window, max);
    UnbrokenPush(fs, f, client, window, max);
    PushedFailures(fs, f, client, window);
    if f == Failed(client, window) {
      SomeFailure(fs, client, window);
      if LastWindow(fs, client) == Some(window) {
        LastIsKnown(fs, client);
        Membership(d.order, Clients(fs), max, client);
      } else {
        NewMinute(fs, f, max);
      }
    }
  }

  /** The first failure of a minute: nothing to be interrupted yet. */
  lemma NewMinute(fs: seq<Failed>, f: Failed, max: nat)
    requires Ordered(fs + [f]) && LastWindow(fs, f.client) != Some(f.window)
    ensures Failures(fs, f.client, f.window) == 0 && Unbroken(fs, f.client, f.window, max)
  {
    EarlierIsOrdered(fs, f);
    LastIsKnown(fs, f.client);
    NothingYet(fs, f.client, f.window);
    SomeFailure(fs, f.client, f.window);
  }

  /** A client is blocked exactly from the limit on, whatever the limit, if and only if fewer than `max` other
      clients failed between its failures in the present minute and since the last of them. Other clients and
      older minutes may be evicted freely. */
  lemma BlocksExactlyIff(fs: seq<Failed>, client: string, window: int, max: nat)
    requires Possible(fs, window)
    ensures (forall limit: int :: limit >= 1 ==>
               (Blocks(After(fs, max), client, window, limit) <==> Failures(fs, client, window) >= limit))
            <==> Remembered(fs, client, window, max)
  {
    hide Newest, Since, Unbroken, Ordered, Failures, LastWindow;
    var d, n := After(fs, max), Failures(fs, client, window);
    EveryRunIsFaithful(fs, max);
    LastIsKnown(fs, client);
    SomeFailure(fs, client, window);
    if LastWindow(fs, client) == Some(window) {
      Membership(d.order, Clients(fs), max, client);
      HeldIsWhole(fs, client, window, max);
      if client in d.values {
        assert Blocks(d, client, window, n) <==> d.values[client].count >= n;
      } else {
        assert !Blocks(d, client, window, 1);
      }
    } else {
      NotThisMinute(fs, client, window);
    }
  }

  lemma NotThisMinute(fs: seq<Failed>, client: string, window: int)
    requires Possible(fs, window) && LastWindow(fs, client) != Some(window)
    ensures Failures(fs, client, window) == 0
  {
    LastIsKnown(fs, client);
    NothingYet(fs, client, window);
  }

  /** An evicted client starts over: with room for one client, a failure of another one in between lets a
      client with a limit of one go on. */
  lemma EvictionForgives()
    ensures var fs := [Failed("a", 1), Failed("b", 1)];
            Failures(fs, "a", 1) == 1 && !Blocks(After(fs, 1), "a", 1, 1)
  {
    var fs := [Failed("a", 1), Failed("b", 1)];
    EveryRunIsFaithful(fs, 1);
    assert fs[..1] == [Failed("a", 1)] && fs[..1][..0] == [];
    assert Clients(fs) == ["a"] + ["b"];
    Touch(["a"], "b", "a");
    assert "b" in Since(Clients(fs), "a");
    Subset({"b"}, Since(Clients(fs), "a"));
    Membership(After(fs, 1).order, Clients(fs), 1, "a");
  }
}
