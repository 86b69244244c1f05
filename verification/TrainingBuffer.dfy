/**
 The training data buffer: a bounded queue that requests add to without waiting, and a consumer
 that writes batches. First every interleaving of its steps, then the object itself.
 */
module TrainingBuffer {

  datatype TrainingRecord = TrainingRecord(id: int)

  const CAPACITY := 2048
  const BATCH_SIZE := 50

  datatype Phase = Running | Draining | Stopped

  /** `accepted` lists what was ever queued, `attempted` what a write was ever tried for. */
  datatype State = State(queue: seq<TrainingRecord>, batch: seq<TrainingRecord>, phase: Phase, closed: bool,
                         accepted: seq<TrainingRecord>, attempted: seq<TrainingRecord>)

  const INITIAL := State([], [], Running, false, [], [])

  datatype Action =
    | Add(record: TrainingRecord)
    | Receive     // the consumer takes a record
    | Tick        // the flush timer fires
    | Close       // the stop channel is closed
    | SeeStop     // the consumer notices it
    | DrainOne    // it takes a record while draining
    | DrainEnd    // it finds the queue empty

  function Flush(s: State): State { s.(attempted := s.attempted + s.batch, batch := []) }

  function Take(s: State): State
    requires s.queue != []
  {
    s.(batch := s.batch + [s.queue[0]], queue := s.queue[1..])
  }

  /** One atomic step. An action that is not possible changes nothing; a record that finds the
      queue full is dropped. */
  function Apply(s: State, a: Action): State {
    match a
    case Add(record) =>
      if |s.queue| < CAPACITY then s.(queue := s.queue + [record], accepted := s.accepted + [record]) else s
    case Receive =>
      if s.phase == Running && s.queue != [] then
        if |Take(s).batch| >= BATCH_SIZE then Flush(Take(s)) else Take(s)
      else s
    case Tick => if s.phase == Running then Flush(s) else s
    case Close => s.(closed := true)
    case SeeStop => if s.phase == Running && s.closed then s.(phase := Draining) else s
    case DrainOne => if s.phase == Draining && s.queue != [] then Take(s) else s
    case DrainEnd => if s.phase == Draining && s.queue == [] then Flush(s).(phase := Stopped) else s
  }

  ghost function Exec(actions: seq<Action>): State {
    if actions == [] then INITIAL else Apply(Exec(actions[..|actions| - 1]), actions[|actions| - 1])
  }

  /** Nothing is lost, doubled or reordered: what was attempted, the batch and the queue are
      the accepted records in order. The batch stays below its size while the consumer runs. */
  ghost predicate Conserved(s: State) {
    && s.attempted + s.batch + s.queue == s.accepted
    && (s.phase == Running ==> |s.batch| < BATCH_SIZE)
    && (s.phase == Stopped ==> s.batch == [])
    && |s.queue| <= CAPACITY
  }

  lemma StepConserved(s: State, a: Action)
    requires Conserved(s)
    ensures Conserved(Apply(s, a))
    ensures s.attempted <= Apply(s, a).attempted && s.accepted <= Apply(s, a).accepted
    ensures s.phase == Stopped ==> Apply(s, a).attempted == s.attempted
  {
    hide Take, Flush;
    FlushKeeps(s);
    if s.queue != [] {
      TakeKeeps(s);
      FlushKeeps(Take(s));
    }
    if a.Add? { assert s.attempted + s.batch + (s.queue + [a.record]) == s.attempted + s.batch + s.queue + [a.record]; }
  }

  lemma TakeKeeps(s: State)
    requires s.queue != []
    ensures var t := Take(s);
      && t.attempted + t.batch + t.queue == s.attempted + s.batch + s.queue
      && t.attempted == s.attempted && t.accepted == s.accepted && t.phase == s.phase && |t.queue| == |s.queue| - 1
  {
    var t := Take(s);
    assert s.queue == [s.queue[0]] + s.queue[1..];
    assert s.batch + s.queue == t.batch + t.queue;
    assert s.attempted + s.batch + s.queue == s.attempted + (s.batch + s.queue);
    assert t.attempted + t.batch + t.queue == t.attempted + (t.batch + t.queue);
  }

  lemma FlushKeeps(s: State)
    ensures var t := Flush(s);
      && t.attempted + t.batch + t.queue == s.attempted + s.batch + s.queue
      && s.attempted <= t.attempted && t.accepted == s.accepted && t.phase == s.phase && t.queue == s.queue
          && t.batch == []
      && t.closed == s.closed
  {
    assert s.attempted + s.batch + [] == s.attempted + s.batch;
  }

  lemma {:induction false} RunConserved(actions: seq<Action>)
    ensures Conserved(Exec(actions))
    decreases |actions|
  {
    hide Apply;
    if actions != [] {
      RunConserved(actions[..|actions| - 1]);
      StepConserved(Exec(actions[..|actions| - 1]), actions[|actions| - 1]);
    }
  }

  /** Attempts are never taken back, and each record is attempted at its own turn. */
  lemma {:induction false} AttemptsOnlyGrow(actions: seq<Action>, n: nat)
    requires n <= |actions|
    ensures Exec(actions[..n]).attempted <= Exec(actions).attempted <= Exec(actions).accepted
    ensures Exec(actions[..n]).accepted <= Exec(actions).accepted
    decreases |actions|
  {
    hide Apply;
    RunConserved(actions);
    if n == |actions| {
      assert actions[..n] == actions;
    } else {
      var init := actions[..|actions| - 1];
      RunConserved(init);
      StepConserved(Exec(init), actions[|actions| - 1]);
      AttemptsOnlyGrow(init, n);
      assert init[..n] == actions[..n];
    }
  }

  /** The shutdown loses nothing that was accepted before its last look at the queue: at the
      step that stops the consumer everything accepted so far has been attempted, once and in
      order. What is added later stays in the queue for good. */
  lemma {:induction false} ShutdownCompletes(actions: seq<Action>)
    requires Exec(actions).phase == Stopped
    ensures exists n :: 0 < n <= |actions| && actions[n - 1] == DrainEnd
                        && Exec(actions[..n]).phase == Stopped && Exec(actions[..n - 1]).phase == Draining
                        && Exec(actions).attempted == Exec(actions[..n]).accepted
    ensures Exec(actions).attempted + Exec(actions).queue == Exec(actions).accepted
    decreases |actions|
  {
    hide Conserved;
    var last := |actions| - 1;
    var init := actions[..last];
    RunConserved(init);
    RunConserved(actions);
    StepConserved(Exec(init), actions[last]);
    AttemptedAtStop(Exec(actions));
    if Exec(init).phase == Stopped {
      ShutdownCompletes(init);
      var n :| 0 < n <= |init| && init[n - 1] == DrainEnd && Exec(init[..n]).phase == Stopped
               && Exec(init[..n - 1]).phase == Draining && Exec(init).attempted == Exec(init[..n]).accepted;
      assert init[..n] == actions[..n] && init[..n - 1] == actions[..n - 1];
    } else {
      assert actions[..last + 1] == actions;
      assert Exec(actions).queue == [];
      assert Exec(actions).attempted == Exec(actions).accepted;
    }
  }

  lemma AttemptedAtStop(s: State)
    requires Conserved(s) && s.phase == Stopped
    ensures s.attempted + s.queue == s.accepted
  {
    assert s.attempted + [] == s.attempted;
  }

  // ----- The object -----

  /** The records whose own write succeeded. */
  function Saved(records: seq<TrainingRecord>, ok: TrainingRecord -> bool): seq<TrainingRecord> {
    if records == [] then []
    else Saved(records[..|records| - 1], ok) + (if ok(records[|records| - 1]) then [records[|records| - 1]] else [])
  }

  lemma {:induction false} SavedOnce(records: seq<TrainingRecord>, ok: TrainingRecord -> bool)
    ensures multiset(Saved(records, ok)) <= multiset(records)
    decreases |records|
  {
    if records != [] {
      SavedOnce(records[..|records| - 1], ok);
      assert records == records[..|records| - 1] + [records[|records| - 1]];
    }
  }

  /** Every record is tried by itself, whatever became of the ones before it. */
  lemma {:induction false} SavedAppend(xs: seq<TrainingRecord>, ys: seq<TrainingRecord>, r: TrainingRecord,
                                       ok: TrainingRecord -> bool)
    ensures Saved(xs + ys, ok) == Saved(xs, ok) + Saved(ys, ok)
    ensures Saved([r], ok) == if ok(r) then [r] else []
    decreases |ys|
  {
    assert [r][..0] == [];
    if ys == [] {
      assert xs + ys == xs;
    } else {
      SavedAppend(xs, ys[..|ys| - 1], r, ok);
      assert (xs + ys)[..|xs + ys| - 1] == xs + ys[..|ys| - 1];
    }
  }

  class TrainingDataBuffer {
    var ch: seq<TrainingRecord>
    var batch: seq<TrainingRecord>
    var stopClosed: bool
    var phase: Phase
    var stored: seq<TrainingRecord>          // the database table
    ghost var accepted: seq<TrainingRecord>
    ghost var attempted: seq<TrainingRecord>

    constructor ()
      ensures Model() == INITIAL && stored == []
    {
      ch, batch, stopClosed, phase, stored := [], [], false, Running, [];
      accepted, attempted := [], [];
    }

    ghost function Model(): State
      reads this
    {
      State(ch, batch, phase, stopClosed, accepted, attempted)
    }

    /** Nothing is stored that was not attempted, or more often than that. */
    ghost predicate StoredOnce()
      reads this
    {
      multiset(stored) <= multiset(attempted)
    }

    method Add(record: TrainingRecord) returns (queued: bool)
      modifies this
      ensures Model() == Apply(old(Model()), Action.Add(record))
      ensures queued <==> |old(ch)| < 2048
      ensures ch == (if queued then old(ch) + [record] else old(ch)) && batch == old(batch)
      ensures stored == old(stored)
    {
      if |ch| < CAPACITY {
        ch, accepted := ch + [record], accepted + [record];
        return true;
      }
      return false;
    }

    /** The whole batch at once, or, when that fails, every record by itself. */
    method FlushBatch(batchOk: bool, singleOk: TrainingRecord -> bool)
      modifies this
      ensures Model() == Flush(old(Model()))
      ensures stored == old(stored) + (if batchOk then old(batch) else Saved(old(batch), singleOk))
      ensures old(StoredOnce()) ==> StoredOnce()
      ensures batchOk && old(stored == attempted) ==> stored == attempted
    {
      SavedOnce(batch, singleOk);
      if |batch| == 0 {
        assert attempted + [] == attempted && stored + [] == stored;
        return;
      }
      if batchOk {
        stored := stored + batch;
      } else {
        for i := 0 to |batch|
          invariant Model() == old(Model())
          invariant stored == old(stored) + Saved(batch[..i], singleOk)
        {
          assert batch[..i + 1][..i] == batch[..i];
          if singleOk(batch[i]) { stored := stored + [batch[i]]; }
        }
        assert batch[..|batch|] == batch;
      }
      attempted := attempted + batch;
      batch := [];
    }

    /** The three arms of the consumer's loop. */
    method OnRecord(batchOk: bool, singleOk: TrainingRecord -> bool)
      requires phase == Running && ch != []
      modifies this
      ensures Model() == Apply(old(Model()), Receive)
      ensures |old(batch)| + 1 < 50 ==> stored == old(stored) && batch == old(batch) + [old(ch)[0]]
      ensures |old(batch)| + 1 >= 50 ==> batch == [] && attempted == old(attempted) + old(batch) + [old(ch)[0]]
      ensures old(StoredOnce()) ==> StoredOnce()
      ensures batchOk && old(stored == attempted) ==> stored == attempted
    {
      assert attempted + (batch + [ch[0]]) == attempted + batch + [ch[0]];
      batch, ch := batch + [ch[0]], ch[1..];
      if |batch| >= BATCH_SIZE { FlushBatch(batchOk, singleOk); }
    }

    method OnTimer(batchOk: bool, singleOk: TrainingRecord -> bool)
      requires phase == Running
      modifies this
      ensures Model() == Apply(old(Model()), Tick)
      ensures batch == [] && ch == old(ch) && attempted == old(attempted) + old(batch)
      ensures old(StoredOnce()) ==> StoredOnce()
      ensures batchOk && old(stored == attempted) ==> stored == attempted
    {
      FlushBatch(batchOk, singleOk);
    }

    method SeeStop()
      modifies this`phase
      ensures Model() == Apply(old(Model()), Action.SeeStop)
      ensures phase == if old(phase) == Running && stopClosed then Draining else old(phase)
    {
      if phase == Running && stopClosed { phase := Draining; }
    }

    method DrainOne()
      requires phase == Draining && ch != []
      modifies this`ch, this`batch
      ensures Model() == Apply(old(Model()), Action.DrainOne)
    {
      batch, ch := batch + [ch[0]], ch[1..];
    }

    method DrainEnd(batchOk: bool, singleOk: TrainingRecord -> bool)
      requires phase == Draining && ch == []
      modifies this
      ensures Model() == Apply(old(Model()), Action.DrainEnd)
      ensures old(StoredOnce()) ==> StoredOnce()
      ensures batchOk && old(stored == attempted) ==> stored == attempted
    {
      FlushBatch(batchOk, singleOk);
      phase := Stopped;
    }

    /** The consumer's loop under an arbitrary schedule: which arm is ready, what others add and
        when they close the buffer is decided outside. It refines the steps of the protocol. */
    method Consume(schedule: seq<Action>, batchOk: nat -> bool, singleOk: TrainingRecord -> bool)
      requires Model() == INITIAL && stored == []
      modifies this
      ensures Model() == Exec(schedule) && Conserved(Model())
      ensures StoredOnce() && ((forall i :: batchOk(i)) ==> stored == attempted)
      ensures phase == Stopped ==> attempted + ch == accepted
    {
      hide Apply, Conserved;
      assert schedule[..0] == [];
      for i := 0 to |schedule|
        invariant Model() == Exec(schedule[..i])
        invariant StoredOnce() && ((forall i :: batchOk(i)) ==> stored == attempted)
      {
        assert schedule[..i + 1][..i] == schedule[..i];
        Perform(schedule[i], batchOk(i), singleOk);
      }
      assert schedule[..|schedule|] == schedule;
      RunConserved(schedule);
      if phase == Stopped { AttemptedAtStop(Model()); }
    }

    /** One arm, if it is ready. */
    method Perform(a: Action, batchOk: bool, singleOk: TrainingRecord -> bool)
      modifies this
      ensures Model() == Apply(old(Model()), a)
      ensures old(StoredOnce()) ==> StoredOnce()
      ensures batchOk && old(stored == attempted) ==> stored == attempted
    {
      match a {
        case Add(record) => var _ := Add(record);
        case Receive => if phase == Running && |ch| > 0 { OnRecord(batchOk, singleOk); }
        case Tick => if phase == Running { OnTimer(batchOk, singleOk); }
        case Close => CloseBuffer();
        case SeeStop => SeeStop();
        case DrainOne => if phase == Draining && |ch| > 0 { DrainOne(); }
        case DrainEnd => if phase == Draining && |ch| == 0 { DrainEnd(batchOk, singleOk); }
      }
    }

    /** Without further additions the drain takes the whole queue and ends. */
    method OnStop(batchOk: bool, singleOk: TrainingRecord -> bool)
      requires phase == Running && stopClosed && Conserved(Model())
      modifies this
      ensures phase == Stopped && ch == [] && batch == []
      ensures accepted == old(accepted) && attempted == accepted
      ensures stored == old(stored) + (if batchOk then old(batch + ch) else Saved(old(batch + ch), singleOk))
    {
      phase := Draining;
      while |ch| > 0
        invariant batch + ch == old(batch + ch)
        invariant accepted == old(accepted) && attempted == old(attempted) && stored == old(stored) && phase == Draining
        decreases |ch|
      {
        assert ch == [ch[0]] + ch[1..];
        batch, ch := batch + [ch[0]], ch[1..];
      }
      assert batch + [] == batch;
      assert old(attempted) + old(batch + ch) == old(attempted) + old(batch) + old(ch);
      FlushBatch(batchOk, singleOk);
      phase := Stopped;
    }

    method CloseBuffer()
      modifies this
      ensures Model() == Apply(old(Model()), Close) && stored == old(stored) && stopClosed
    {
      stopClosed := true;
    }
  }
}
