/** The usage recorder: a bounded buffer, emptied in batches whose sending may fail, while new records
    keep arriving. The steps of a flush interleave with records; one batch is in flight at a time. */
module Recorder {
  import opened Wrappers

  /** The last n elements. */
  function Last<T>(s: seq<T>, n: nat): seq<T> {
    if |s| <= n then s else s[|s| - n..]
  }

  function First<T>(s: seq<T>, n: nat): seq<T> {
    if |s| <= n then s else s[..n]
  }

  /** The elements of s at the given places. */
  ghost predicate At<T>(part: seq<T>, s: seq<T>, places: seq<nat>) {
    |places| == |part|
    && (forall i :: 0 <= i < |part| ==> places[i] < |s| && part[i] == s[places[i]])
    && forall i, j :: 0 <= i < j < |places| ==> places[i] < places[j]
  }

  lemma AtPrefix<T>(part: seq<T>, whole: seq<T>, s: seq<T>, places: seq<nat>)
    requires At(whole, s, places) && part <= whole
    ensures |places| == |whole| && At(part, s, places[..|part|])
  {
  }

  lemma AtAppended<T>(part: seq<T>, s: seq<T>, places: seq<nat>, x: T)
    requires At(part, s, places)
    ensures At(part + [x], s + [x], places + [|s|])
  {
  }

  lemma AtRemoved<T>(part: seq<T>, s: seq<T>, places: seq<nat>, n: nat)
    requires At(part, s, places) && n < |part|
    ensures |places| == |part| && At(part[..n] + part[n + 1..], s, places[..n] + places[n + 1..])
  {
  }

  lemma FirstFits<T>(s: seq<T>, n: nat)
    requires |s| <= n
    ensures First(s, n) == s
  {
  }

  lemma LastPush<T>(s: seq<T>, x: T, n: nat)
    requires |s| <= n
    ensures Last(s + [x], n) == if |s| == n then (s + [x])[1..] else s + [x]
  {
  }

  lemma LastShorter<T>(s: seq<T>, n: nat)
    ensures |Last(s, n)| <= |s|
  {
  }

  lemma LastOfLast<T>(s: seq<T>, x: T, n: nat)
    ensures Last(Last(s, n) + [x], n) == Last(s + [x], n)
  {
  }

  lemma FirstIsPrefix<T>(s: seq<T>, n: nat)
    ensures First(s, n) <= s && |First(s, n)| <= n
  {
  }

  lemma PutBack<T>(x: T, s: seq<T>, n: nat)
    ensures First([x] + First(s, n), n) == First([x] + s, n)
  {
  }

  /** One send of a flush: the records that arrive meanwhile, and whether it succeeds. */
  datatype Send<T> = Send(arrived: seq<T>, ok: bool)

  function Head<T>(sends: seq<Send<T>>): Send<T> {
    if sends == [] then Send([], true) else sends[0]
  }

  function Tail<T>(sends: seq<Send<T>>): seq<Send<T>> {
    if sends == [] then [] else sends[1..]
  }

  datatype Outcome<T> = Outcome(sent: seq<T>, left: seq<T>, failed: bool)

  /** What a flush amounts to: the records sent, those left, and whether a send failed. Sends beyond the list
      succeed with nothing arriving. */
  function FlushOf<T>(pending: seq<T>, sends: seq<Send<T>>, batchSize: nat, max: nat): Outcome<T>
    requires batchSize > 0
    decreases |sends|, |pending|
  {
    if pending == [] then Outcome([], [], false)
    else
      var batch := First(pending, batchSize);
      var waiting := Last(pending[|batch|..] + Head(sends).arrived, max);
      if !Head(sends).ok then Outcome([], First(batch + waiting, max), true)
      else
        var later := FlushOf(waiting, Tail(sends), batchSize, max);
        Outcome(batch + later.sent, later.left, later.failed)
  }

  lemma EndsAre<T>(s: seq<T>, n: nat)
    ensures |First(s, n)| == |Last(s, n)| == Min(|s|, n)
    ensures First(s, n) == s[..Min(|s|, n)] && Last(s, n) == s[|s| - Min(|s|, n)..]
  {
  }

  /** The records that arrive while a flush lasts. */
  function Arrived<T>(pending: seq<T>, sends: seq<Send<T>>, batchSize: nat, max: nat): seq<T>
    requires batchSize > 0
    decreases |sends|, |pending|
  {
    if pending == [] then []
    else
      var batch := First(pending, batchSize);
      var waiting := Last(pending[|batch|..] + Head(sends).arrived, max);
      Head(sends).arrived + if Head(sends).ok then Arrived(waiting, Tail(sends), batchSize, max) else []
  }

  /** While everything fits, what is sent and what is left are what was pending and what arrived, in order. */
  lemma {:induction false} FlushConserves<T>(pending: seq<T>, sends: seq<Send<T>>, batchSize: nat, max: nat)
    requires batchSize > 0 && |pending| + |Arrived(pending, sends, batchSize, max)| <= max
    ensures var r := FlushOf(pending, sends, batchSize, max);
            r.sent + r.left == pending + Arrived(pending, sends, batchSize, max)
    decreases |sends|, |pending|
  {
    if pending != [] {
      var batch, arrived := First(pending, batchSize), Head(sends).arrived;
      EndsAre(pending, batchSize);
      EndsAre(pending[|batch|..] + arrived, max);
      var waiting := Last(pending[|batch|..] + arrived, max);
      hide Last, First;
      assert waiting == pending[|batch|..] + arrived;
      BatchAndRest(pending, batch, arrived);
      if Head(sends).ok {
        FlushConserves(waiting, Tail(sends), batchSize, max);
        var later := FlushOf(waiting, Tail(sends), batchSize, max);
        hide FlushOf, Arrived;
        InOrder(batch, later.sent, later.left, waiting, Arrived(waiting, Tail(sends), batchSize, max), pending,
                arrived);
      } else {
        EndsAre(batch + waiting, max);
      }
    }
  }

  lemma BatchAndRest<T>(pending: seq<T>, batch: seq<T>, arrived: seq<T>)
    requires batch <= pending
    ensures batch + (pending[|batch|..] + arrived) == pending + arrived
  {
  }

  lemma InOrder<T>(batch: seq<T>, sent: seq<T>, left: seq<T>, waiting: seq<T>, more: seq<T>, pending: seq<T>,
                   arrived: seq<T>)
    requires sent + left == waiting + more && batch + waiting == pending + arrived
    ensures (batch + sent) + left == pending + (arrived + more)
  {
    assert (batch + sent) + left == batch + (sent + left) == (batch + waiting) + more;
  }

  /** A flush goes on until nothing is pending, unless a send fails; the first that fails ends it, and keeps its
      batch in front. */
  lemma {:induction false} FlushEnds<T>(pending: seq<T>, sends: seq<Send<T>>, batchSize: nat, max: nat)
    requires batchSize > 0
    ensures var r := FlushOf(pending, sends, batchSize, max);
            (!r.failed ==> r.left == [])
            && (r.failed ==> exists i :: 0 <= i < |sends| && !sends[i].ok)
            && (pending != [] && sends != [] && !sends[0].ok ==>
                  r.failed && r.sent == []
                  && First(r.left, Min(batchSize, |pending|)) == First(First(pending, batchSize), max))
    decreases |sends|, |pending|
  {
    if pending != [] {
      var batch := First(pending, batchSize);
      EndsAre(pending, batchSize);
      var waiting := Last(pending[|batch|..] + Head(sends).arrived, max);
      if Head(sends).ok {
        FlushEnds(waiting, Tail(sends), batchSize, max);
        if FlushOf(waiting, Tail(sends), batchSize, max).failed {
          var i :| 0 <= i < |Tail(sends)| && !Tail(sends)[i].ok;
          assert !sends[i + 1].ok;
        }
      } else {
        assert !sends[0].ok;
        FrontIsKept(pending, waiting, batchSize, max);
      }
    }
  }

  lemma FrontIsKept<T>(pending: seq<T>, waiting: seq<T>, batchSize: nat, max: nat)
    ensures var batch := First(pending, batchSize);
            First(First(batch + waiting, max), |batch|) == First(batch, max)
  {
    var batch := First(pending, batchSize);
    EndsAre(batch + waiting, max);
    EndsAre(batch, max);
    EndsAre(First(batch + waiting, max), |batch|);
  }

  /** A flush that has sent some records comes to `all` when it goes on with what is pending. */
  ghost predicate Underway<T>(all: Outcome<T>, sent: seq<T>, pending: seq<T>, sends: seq<Send<T>>, batchSize: nat,
                              max: nat)
    requires batchSize > 0
  {
    var r := FlushOf(pending, sends, batchSize, max);
    all.sent == sent + r.sent && all.left == r.left && all.failed == r.failed
  }

  lemma Beginning<T>(pending: seq<T>, sends: seq<Send<T>>, batchSize: nat, max: nat)
    requires batchSize > 0
    ensures Underway(FlushOf(pending, sends, batchSize, max), [], pending, sends, batchSize, max)
  {
  }

  lemma Ending<T>(all: Outcome<T>, sent: seq<T>, sends: seq<Send<T>>, batchSize: nat, max: nat)
    requires batchSize > 0 && Underway(all, sent, [], sends, batchSize, max)
    ensures all == Outcome(sent, [], false)
  {
  }

  /** The history only grows, and what is delivered grows by what the flush has sent. */
  ghost predicate Grown<T>(start: seq<T>, recorded: seq<T>, before: seq<T>, sent: seq<T>, delivered: seq<T>) {
    start <= recorded && delivered == before + sent
  }

  lemma NothingSent<T>(start: seq<T>, before: seq<T>)
    ensures Grown(start, start, before, [], before)
  {
  }

  lemma MoreSent<T>(start: seq<T>, was: seq<T>, recorded: seq<T>, before: seq<T>, sent: seq<T>, had: seq<T>,
                    batch: seq<T>)
    requires Grown(start, was, before, sent, had) && was <= recorded
    ensures Grown(start, recorded, before, sent + batch, had + batch)
    ensures batch == [] ==> Grown(start, recorded, before, sent, had)
  {
    assert before + (sent + batch) == (before + sent) + batch;
  }

  lemma Sent<T>(start: seq<T>, recorded: seq<T>, before: seq<T>, sent: seq<T>, delivered: seq<T>)
    requires Grown(start, recorded, before, sent, delivered)
    ensures start <= recorded && delivered == before + sent
  {
  }

  lemma NextBatch<T>(all: Outcome<T>, sent: seq<T>, pending: seq<T>, sends: seq<Send<T>>, batchSize: nat, max: nat)
    requires batchSize > 0 && pending != [] && Underway(all, sent, pending, sends, batchSize, max)
    ensures var batch := First(pending, batchSize);
            |batch| <= |pending|
            && var rest := pending[|batch|..];
               var waiting := Last(rest + Head(sends).arrived, max);
               if Head(sends).ok then Underway(all, sent + batch, waiting, Tail(sends), batchSize, max)
               else all == Outcome(sent, First(batch + waiting, max), true)
  {
    hide Last;
  }

  class UsageRecorder<T(==)> {
    const batchSize: nat
    const maxPending: nat
    var pending: seq<T>
    /** The batch of the flush that holds the lock; empty when no batch is being sent. */
    var inFlight: seq<T>

    /** Everything recorded, everything delivered, where the kept records stand among the recorded ones,
        and how many records an overflow has dropped. */
    ghost var recorded: seq<T>
    ghost var delivered: seq<T>
    ghost var places: seq<nat>
    ghost var dropped: nat

    ghost function Kept(): seq<T>
      reads this
    {
      delivered + inFlight + pending
    }

    /** Delivered, in flight and pending together are the recorded sequence with only the dropped records
        missing. */
    ghost predicate Valid()
      reads this
    {
      0 < batchSize
      && |pending| <= maxPending && |inFlight| <= batchSize
      && At(Kept(), recorded, places)
      && |Kept()| + dropped == |recorded|
    }

    constructor (batchSize: nat, maxPending: nat)
      requires 0 < batchSize
      ensures Valid() && recorded == [] && delivered == [] && pending == [] && inFlight == [] && dropped == 0
      ensures this.batchSize == batchSize && this.maxPending == maxPending
    {
      this.batchSize, this.maxPending := batchSize, maxPending;
      pending, inFlight, recorded, delivered, places, dropped := [], [], [], [], [], 0;
    }

    /** A full buffer drops its oldest record to make room. */
    method Record(record: T)
      requires Valid()
      modifies `pending, `recorded, `places, `dropped
      ensures Valid() && recorded == old(recorded) + [record]
      ensures pending == Last(old(pending) + [record], maxPending)
      ensures dropped == old(dropped) + if |old(pending)| == maxPending then 1 else 0
    {
      hide At, Last;
      LastPush(pending, record, maxPending);
      AtAppended(Kept(), recorded, places, record);
      ghost var sent := delivered + inFlight;
      assert Kept() + [record] == sent + (pending + [record]);
      places := places + [|recorded|];
      if |pending| == maxPending {
        AtRemoved(sent + (pending + [record]), recorded + [record], places, |sent|);
        assert (sent + (pending + [record]))[|sent| + 1..] == (pending + [record])[1..];
        places := places[..|sent|] + places[|sent| + 1..];
        dropped := dropped + 1;
      }
      recorded := recorded + [record];
      pending := Last(pending + [record], maxPending);
      assert Kept() == sent + pending;
    }

    /** The next batch of a flush leaves the buffer, record by record. */
    method TakeBatch() returns (batch: seq<T>)
      requires Valid() && inFlight == [] && pending != []
      modifies `pending, `inFlight
      ensures Valid() && batch == inFlight == First(old(pending), batchSize) && batch != []
      ensures batch + pending == old(pending)
    {
      var size := Min(batchSize, |pending|);
      batch := [];
      while |batch| < size
        invariant |batch| <= size && batch + pending == old(pending)
      {
        batch := batch + [pending[0]];
        pending := pending[1..];
      }
      inFlight := batch;
      assert Kept() == old(Kept());
    }

    method SendSucceeded()
      requires Valid()
      modifies `inFlight, `delivered
      ensures Valid() && inFlight == [] && delivered == old(delivered) + old(inFlight)
    {
      delivered := delivered + inFlight;
      inFlight := [];
      assert Kept() == old(Kept());
    }

    /** extendleft on a bounded deque: each element pushed on the left may push one out on the right. */
    method ExtendLeft(batch: seq<T>)
      requires |pending| <= maxPending
      modifies `pending
      ensures pending == First(batch + old(pending), maxPending)
    {
      hide First;
      var i := |batch|;
      ghost var waiting := pending;
      FirstFits(waiting, maxPending);
      assert batch[i..] + waiting == waiting;
      while i > 0
        invariant 0 <= i <= |batch|
        invariant pending == First(batch[i..] + waiting, maxPending)
      {
        i := i - 1;
        assert batch[i..] + waiting == [batch[i]] + (batch[i + 1..] + waiting);
        PutBack(batch[i], batch[i + 1..] + waiting, maxPending);
        pending := First([batch[i]] + pending, maxPending);
      }
      assert batch[0..] == batch;
    }

    /** The batch goes back to the front, in order; what does not fit any more is lost from the end. */
    method SendFailed()
      requires Valid()
      modifies `pending, `inFlight, `places, `dropped
      ensures Valid() && inFlight == []
      ensures pending == First(old(inFlight) + old(pending), maxPending)
      ensures dropped == old(dropped) + |old(inFlight) + old(pending)| - |pending| && dropped >= old(dropped)
    {
      hide At, First;
      ghost var all := inFlight + pending;
      assert Kept() == delivered + all;
      FirstIsPrefix(all, maxPending);
      ExtendLeft(inFlight);
      AtPrefix(delivered + pending, delivered + all, recorded, places);
      inFlight := [];
      assert Kept() == delivered + pending;
      dropped := dropped + |places| - |delivered + pending|;
      places := places[..|delivered + pending|];
    }

    /** One round of a flush: a batch is taken, records arrive while it is being sent, and it is delivered or
        put back. */
    method SendBatch(send: Send<T>) returns (batch: seq<T>)
      requires Valid() && inFlight == [] && pending != []
      modifies this
      ensures Valid() && inFlight == [] && old(recorded) <= recorded && dropped >= old(dropped)
      ensures batch == First(old(pending), batchSize) && 0 < |batch| <= |old(pending)|
      ensures var waiting := Last(old(pending)[|batch|..] + send.arrived, maxPending);
              if send.ok then delivered == old(delivered) + batch && pending == waiting
              else delivered == old(delivered) && pending == First(batch + waiting, maxPending)
    {
      hide Valid, First, Last;
      ghost var queue := pending;
      batch := TakeBatch();
      assert pending == queue[|batch|..];
      Arrive(send.arrived);
      if send.ok {
        SendSucceeded();
      } else {
        SendFailed();
      }
    }

    /** One flush: batches are sent until the buffer is empty or a send fails, and records may arrive during
        every send. */
    method Flush(sends: seq<Send<T>>) returns (written: nat, failed: bool)
      requires Valid() && inFlight == []
      modifies this
      ensures Valid() && inFlight == [] && old(recorded) <= recorded && dropped >= old(dropped)
      ensures var r := FlushOf(old(pending), sends, batchSize, maxPending);
              delivered == old(delivered) + r.sent && pending == r.left && written == |r.sent| && failed == r.failed
    {
      assert 0 < batchSize;
      hide Valid, First, Last, Underway, FlushOf, Grown;
      written, failed := 0, false;
      var todo := sends;
      ghost var start, before, sent := recorded, delivered, [];
      ghost var all := FlushOf(pending, sends, batchSize, maxPending);
      Beginning(pending, sends, batchSize, maxPending);
      NothingSent(start, before);
      while pending != []
        invariant Valid() && inFlight == [] && dropped >= old(dropped) && written == |sent|
        invariant Grown(start, recorded, before, sent, delivered)
        invariant Underway(all, sent, pending, todo, batchSize, maxPending)
        decreases |todo|, |pending|
      {
        NextBatch(all, sent, pending, todo, batchSize, maxPending);
        var send := Head(todo);
        ghost var queue, was, had := pending, recorded, delivered;
        var batch := SendBatch(send);
        LastShorter(queue[|batch|..] + send.arrived, maxPending);
        if !send.ok {
          MoreSent(start, was, recorded, before, sent, had, []);
          Sent(start, recorded, before, sent, delivered);
          return written, true;
        }
        MoreSent(start, was, recorded, before, sent, had, batch);
        todo := Tail(todo);
        written := written + |batch|;
        sent := sent + batch;
      }
      Ending(all, sent, todo, batchSize, maxPending);
      Sent(start, recorded, before, sent, delivered);
    }

    method Arrive(records: seq<T>)
      requires Valid()
      modifies `pending, `recorded, `places, `dropped
      ensures Valid() && recorded == old(recorded) + records && dropped >= old(dropped)
      ensures pending == Last(old(pending) + records, maxPending)
    {
      ghost var waiting, before := pending, recorded;
      assert waiting + records[..0] == waiting == Last(waiting, maxPending);
      var k := 0;
      while k < |records|
        invariant 0 <= k <= |records| && Valid() && dropped >= old(dropped)
        invariant recorded == before + records[..k]
        invariant pending == Last(waiting + records[..k], maxPending)
      {
        hide Valid, Last;
        Record(records[k]);
        LastOfLast(waiting + records[..k], records[k], maxPending);
        assert waiting + records[..k + 1] == waiting + records[..k] + [records[k]];
        k := k + 1;
      }
      assert records[..k] == records;
    }
  }

  // ---- What a valid recorder has kept --------------------------------------------------------------

  /** Without an overflow nothing is missing: the kept records are the recorded ones. */
  lemma NothingIsLost<T>(kept: seq<T>, recorded: seq<T>, places: seq<nat>)
    requires At(kept, recorded, places) && |kept| == |recorded|
    ensures kept == recorded
  {
    forall i | 0 <= i < |kept| ensures places[i] == i {
      AtLeastItsPlace(places, i);
      AtMostItsPlace(places, i, |recorded|);
    }
  }

  /** While no record has been dropped, every recorded one is delivered, in flight or pending, in order. */
  lemma NoOverflowNoLoss<T>(r: UsageRecorder<T>)
    requires r.Valid() && r.dropped == 0
    ensures r.delivered + r.inFlight + r.pending == r.recorded
  {
    NothingIsLost(r.Kept(), r.recorded, r.places);
  }

  lemma {:induction false} AtLeastItsPlace(places: seq<nat>, i: nat)
    requires i < |places| && forall i, j :: 0 <= i < j < |places| ==> places[i] < places[j]
    ensures places[i] >= i
  {
    if i > 0 {
      AtLeastItsPlace(places, i - 1);
    }
  }

  lemma {:induction false} AtMostItsPlace(places: seq<nat>, i: nat, n: nat)
    requires i < |places| && (forall i, j :: 0 <= i < j < |places| ==> places[i] < places[j])
    requires forall i :: 0 <= i < |places| ==> places[i] < n
    ensures places[i] <= n - (|places| - i)
    decreases |places| - i
  {
    if i + 1 < |places| {
      AtMostItsPlace(places, i + 1, n);
    }
  }
}
