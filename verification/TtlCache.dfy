/** The two in-process caches with a time to live and eviction of the oldest key: results, where a read
    refreshes a key, and refused credentials, where it does not. */
module TtlCache {
  import opened Wrappers
  import opened OrderedDict

  datatype Entry<V> = Entry(expiresAt: real, value: V)

  type Data<V> = Dict<string, Entry<V>>

  /** Time to live, maximum size, and whether reading a key makes it the newest. */
  datatype Config = Config(ttl: real, max: nat, refresh: bool)

  /** Reads drop an expired entry. */
  function GetIn<V>(d: Data<V>, key: string, now: real, refresh: bool): (Data<V>, Option<V>) {
    if key !in d.values then (d, None)
    else if d.values[key].expiresAt < now then (Remove(d, key), None)
    else (if refresh then Put(d, key, d.values[key]) else d, Some(d.values[key].value))
  }

  function SetIn<V>(d: Data<V>, key: string, value: V, expiresAt: real, max: nat): Data<V> {
    Trim(Put(d, key, Entry(expiresAt, value)), max)
  }

  class TTLCache<V> {
    const ttl: real
    const max: nat
    var data: Data<V>

    constructor (ttl: real, max: nat)
      ensures this.ttl == ttl && this.max == max && data == Empty()
    {
      this.ttl, this.max := ttl, max;
      data := Empty();
    }

    predicate Enabled() {
      ttl > 0.0
    }

    method Get(key: string, now: real) returns (r: Option<V>)
      modifies this
      ensures (data, r) == if Enabled() then GetIn(old(data), key, now, true) else (old(data), None)
    {
      if !Enabled() || key !in data.values {
        return None;
      }
      var item := data.values[key];
      if item.expiresAt < now {
        data := Remove(data, key);
        return None;
      }
      data := Put(data, key, item);
      r := Some(item.value);
    }

    method Set(key: string, value: V, now: real)
      modifies this
      ensures data == if Enabled() then SetIn(old(data), key, value, now + ttl, max) else old(data)
    {
      if !Enabled() {
        return;
      }
      data := Put(data, key, Entry(now + ttl, value));
      while |data.order| > max
        invariant Trim(data, max) == SetIn(old(data), key, value, now + ttl, max)
        decreases |data.order|
      {
        data := DropFirst(data);
      }
    }
  }

  class TerminalStatusCache<V> {
    const ttl: real
    const max: nat
    var entries: Data<V>

    constructor (ttl: real, max: nat)
      ensures this.ttl == ttl && this.max == max && entries == Empty()
    {
      this.ttl, this.max := ttl, max;
      entries := Empty();
    }

    method Get(hash: string, now: real) returns (r: Option<V>)
      modifies this
      ensures (entries, r) == GetIn(old(entries), hash, now, false)
    {
      if hash !in entries.values {
        return None;
      }
      var entry := entries.values[hash];
      if entry.expiresAt < now {
        entries := Remove(entries, hash);
        return None;
      }
      r := Some(entry.value);
    }

    method Put(hash: string, status: V, now: real)
      modifies this
      ensures entries == if ttl > 0.0 then SetIn(old(entries), hash, status, now + ttl, max) else old(entries)
    {
      if ttl <= 0.0 {
        return;
      }
      entries := OrderedDict.Put(Remove(entries, hash), hash, Entry(now + ttl, status));
      PutAfterRemove(old(entries), hash, Entry(now + ttl, status));
      while |entries.order| > max
        invariant Trim(entries, max) == SetIn(old(entries), hash, status, now + ttl, max)
        decreases |entries.order|
      {
        entries := DropFirst(entries);
      }
    }
  }

  // ---- Runs ----------------------------------------------------------------------------------------

  datatype Event<V> = Get(key: string, now: real) | Set(key: string, value: V, now: real)

  function Step<V>(d: Data<V>, e: Event<V>, c: Config): Data<V> {
    if c.ttl <= 0.0 then d
    else match e
      case Get(k, now) => GetIn(d, k, now, c.refresh).0
      case Set(k, v, now) => SetIn(d, k, v, now + c.ttl, c.max)
  }

  function Run<V>(es: seq<Event<V>>, c: Config): Data<V> {
    if es == [] then Empty() else Step(Run(es[..|es| - 1], c), es[|es| - 1], c)
  }

  /** What a read after the run would return. */
  function Read<V>(es: seq<Event<V>>, key: string, now: real, c: Config): Option<V> {
    if c.ttl <= 0.0 then None else GetIn(Run(es, c), key, now, c.refresh).1
  }

  /** The latest value set for a key, with its expiry. */
  ghost function Latest<V>(es: seq<Event<V>>, key: string, c: Config): Option<Entry<V>> {
    if es == [] then None
    else
      var e := es[|es| - 1];
      if e.Set? && e.key == key then Some(Entry(e.now + c.ttl, e.value)) else Latest(es[..|es| - 1], key, c)
  }

  /** The keys set, or refreshed by a successful read, in order. */
  ghost function Touches<V>(es: seq<Event<V>>, c: Config): seq<string> {
    if es == [] then []
    else
      var init, e := es[..|es| - 1], es[|es| - 1];
      Touches(init, c) + if e.Set? || (c.refresh && Read(init, e.key, e.now, c).Some?) then [e.key] else []
  }

  ghost predicate Ordered<V>(es: seq<Event<V>>) {
    forall i, j :: 0 <= i < j < |es| ==> es[i].now <= es[j].now
  }

  // ---- The invariant -------------------------------------------------------------------------------

  /** A missing key was never set, has expired, or saw `max` others touched since. */
  ghost predicate Excused<V>(latest: Option<Entry<V>>, touches: seq<string>, key: string, now: real, max: nat) {
    latest.None? || latest.value.expiresAt < now || |Since(touches, key)| >= max
  }

  ghost predicate Sound<V>(d: Data<V>, latest: string -> Option<Entry<V>>, touches: seq<string>, now: real, max: nat) {
    Recent(d.order, touches) && |d.order| <= max && (forall k :: k in d.order <==> k in d.values)
    && (forall k :: k in d.values ==> latest(k) == Some(d.values[k]))
    && (forall k :: k !in d.values ==> Excused(latest(k), touches, k, now, max))
  }

  /** A touch of another key only adds to what a key has seen. */
  lemma StillExcused<V>(latest: Option<Entry<V>>, touches: seq<string>, x: string, key: string, now: real,
                        later: real, max: nat)
    requires x != key && now <= later && Excused(latest, touches, key, now, max)
    ensures Excused(latest, touches + [x], key, later, max)
  {
    Touch(touches, x, key);
    Subset(Since(touches, key), Since(touches + [x], key));
  }

  lemma {:induction false} TrimExcuses<V>(d: Data<V>, latest: string -> Option<Entry<V>>, touches: seq<string>,
                                          now: real, max: nat)
    requires Recent(d.order, touches) && (forall k :: k in d.order <==> k in d.values)
    requires forall k :: k in d.values ==> latest(k) == Some(d.values[k])
    requires forall k :: k !in d.values ==> Excused(latest(k), touches, k, now, max)
    ensures Sound(Trim(d, max), latest, touches, now, max)
    decreases |d.order|
  {
    if |d.order| > max {
      hide Since, Recent;
      OldestIsOld(d.order, touches);
      Head(d.order, touches);
      RecentValid(d, touches);
      DropValid(d);
      TrimExcuses(DropFirst(d), latest, touches, now, max);
    }
  }

  lemma SetSound<V>(d: Data<V>, latest: string -> Option<Entry<V>>, after: string -> Option<Entry<V>>,
                    touches: seq<string>,
                    key: string, value: V, expiresAt: real, now: real, later: real, max: nat)
    requires Sound(d, latest, touches, now, max) && now <= later
    requires after(key) == Some(Entry(expiresAt, value)) && forall k :: k != key ==> after(k) == latest(k)
    ensures Sound(SetIn(d, key, value, expiresAt, max), after, touches + [key], later, max)
  {
    hide Since, Recent, Excused, Trim;
    PutRecent(d.order, key, touches);
    var p := Put(d, key, Entry(expiresAt, value));
    forall k | k !in p.values ensures Excused(after(k), touches + [key], k, later, max) {
      StillExcused(latest(k), touches, key, k, now, later, max);
    }
    TrimExcuses(p, after, touches + [key], later, max);
  }

  lemma HitSound<V>(d: Data<V>, latest: string -> Option<Entry<V>>, touches: seq<string>, key: string, now: real,
                    later: real, max: nat)
    requires Sound(d, latest, touches, now, max) && now <= later
    requires key in d.values
    ensures Sound(Put(d, key, d.values[key]), latest, touches + [key], later, max)
  {
    hide Since, Recent, Excused;
    PutRecent(d.order, key, touches);
    WithoutLength(d.order, key);
    forall k | k !in d.values ensures Excused(latest(k), touches + [key], k, later, max) {
      StillExcused(latest(k), touches, key, k, now, later, max);
    }
  }

  lemma WithoutLength(s: seq<string>, k: string)
    requires k in s
    ensures |Without(s, k) + [k]| <= |s|
  {
  }

  lemma MissSound<V>(d: Data<V>, latest: string -> Option<Entry<V>>, touches: seq<string>, key: string, now: real,
                     later: real, max: nat, refresh: bool)
    requires Sound(d, latest, touches, now, max) && now <= later
    requires key in d.values ==> d.values[key].expiresAt < later
    ensures Sound(GetIn(d, key, later, refresh).0, latest, touches, later, max)
  {
    hide Since, Recent;
    if key in d.values {
      WithoutRecent(d.order, key, touches);
    }
  }

  ghost function LatestOf<V>(es: seq<Event<V>>, c: Config): string -> Option<Entry<V>> {
    k => Latest(es, k, c)
  }

  ghost predicate Reached<V>(es: seq<Event<V>>, now: real, c: Config) {
    Sound(Run(es, c), LatestOf(es, c), Touches(es, c), now, c.max)
  }

  lemma {:induction false} EveryRunIsSound<V>(es: seq<Event<V>>, now: real, c: Config)
    requires c.ttl > 0.0 && Ordered(es) && forall i :: 0 <= i < |es| ==> es[i].now <= now
    ensures Reached(es, now, c)
  {
    if es != [] {
      var n := |es| - 1;
      var init, e := es[..n], es[n];
      EveryRunIsSound(init, e.now, c);
      OneMore(init, e, es, now, c);
    }
  }

  lemma OneMore<V>(init: seq<Event<V>>, e: Event<V>, es: seq<Event<V>>, now: real, c: Config)
    requires c.ttl > 0.0 && Reached(init, e.now, c) && es == init + [e] && e.now <= now
    ensures Reached(es, now, c)
  {
    hide Sound, Put, SetIn, Remove;
    assert es[..|es| - 1] == init;
    var d, touches := Run(init, c), Touches(init, c);
    var before, after := LatestOf(init, c), LatestOf(es, c);
    assert Sound(d, before, touches, e.now, c.max);
    match e
    case Set(k, v, at) =>
      SetSound(d, before, after, touches, k, v, at + c.ttl, e.now, now, c.max);
    case Get(k, at) =>
      assert forall x :: before(x) == after(x);
      Retold(d, before, after, touches, e.now, c.max);
      if c.refresh && Read(init, k, at, c).Some? {
        HitSound(d, after, touches, k, e.now, now, c.max);
        assert Touches(es, c) == touches + [k];
        assert Sound(Run(es, c), after, Touches(es, c), now, c.max);
      } else if Read(init, k, at, c).Some? {
        Later(d, after, touches, e.now, now, c.max);
        assert Touches(es, c) == touches;
        assert Sound(Run(es, c), after, Touches(es, c), now, c.max);
      } else {
        MissSound(d, after, touches, k, e.now, e.now, c.max, c.refresh);
        Later(GetIn(d, k, at, c.refresh).0, after, touches, e.now, now, c.max);
        assert Touches(es, c) == touches;
        assert Sound(Run(es, c), after, Touches(es, c), now, c.max);
      }
  }

  lemma Retold<V>(d: Data<V>, before: string -> Option<Entry<V>>, after: string -> Option<Entry<V>>,
                  touches: seq<string>, now: real, max: nat)
    requires Sound(d, before, touches, now, max) && forall k :: before(k) == after(k)
    ensures Sound(d, after, touches, now, max)
  {
    hide Since, Recent, Excused;
  }

  lemma Later<V>(d: Data<V>, latest: string -> Option<Entry<V>>, touches: seq<string>, now: real, later: real, max: nat)
    requires Sound(d, latest, touches, now, max) && now <= later
    ensures Sound(d, latest, touches, later, max)
  {
    hide Since, Recent;
  }

  // ---- What readers can rely on --------------------------------------------------------------------

  ghost predicate Possible<V>(es: seq<Event<V>>, now: real) {
    Ordered(es) && forall i :: 0 <= i < |es| ==> es[i].now <= now
  }

  /** No run fills the cache past its maximum. */
  lemma NeverOverfull<V>(es: seq<Event<V>>, now: real, c: Config)
    requires Possible(es, now)
    ensures |Run(es, c).order| <= c.max
  {
    if c.ttl > 0.0 {
      EveryRunIsSound(es, now, c);
    } else {
      DisabledStaysEmpty(es, c);
    }
  }

  lemma {:induction false} DisabledStaysEmpty<V>(es: seq<Event<V>>, c: Config)
    requires c.ttl <= 0.0
    ensures Run(es, c) == Empty()
  {
    if es != [] {
      DisabledStaysEmpty(es[..|es| - 1], c);
    }
  }

  /** A read returns only the value of the latest set of its key, and only within its time to live. */
  lemma OnlyTheLatest<V>(es: seq<Event<V>>, key: string, now: real, c: Config)
    requires Possible(es, now) && Read(es, key, now, c).Some?
    ensures var latest := Latest(es, key, c);
            latest.Some? && Read(es, key, now, c) == Some(latest.value.value) && now <= latest.value.expiresAt
  {
    EveryRunIsSound(es, now, c);
  }

  /** A key that has not expired and saw fewer than `max` other keys touched since its last touch is found. */
  lemma RecentIsFound<V>(es: seq<Event<V>>, key: string, now: real, c: Config)
    requires Possible(es, now) && c.ttl > 0.0
    requires var latest := Latest(es, key, c); latest.Some? && now <= latest.value.expiresAt
    requires |Since(Touches(es, c), key)| < c.max
    ensures Read(es, key, now, c) == Some(Latest(es, key, c).value.value)
  {
    EveryRunIsSound(es, now, c);
  }
}
