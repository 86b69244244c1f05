/**
 The per-user concurrency slots: a shared counter that is incremented before the limit is
 checked and decremented again when the limit was exceeded. Each command of the store is one
 atomic step, and requests interleave in any order.
 */
module ConcurrencyLimit {
  import opened Wrappers
  import opened Counting

  // ----- The limit -----

  const DEFAULT_LIMIT := 5

  /** The largest configured limit, or 5 when none is positive or none could be read. */
  method EffectiveLimit(limits: Option<seq<int>>) returns (limit: int)
    ensures limit >= 1
    ensures limits.Some? && (exists l :: l in limits.value && l > 0) ==>
              limit in limits.value && forall l | l in limits.value :: l <= limit
    ensures limits.None? || (forall l | l in limits.value :: l <= 0) ==> limit == 5
  {
    limit := DEFAULT_LIMIT;
    if limits.Some? && |limits.value| > 0 {
      var best := 0;
      for i := 0 to |limits.value|
        invariant best >= 0 && forall j | 0 <= j < i :: limits.value[j] <= best
        invariant best > 0 ==> best in limits.value
      {
        if limits.value[i] > best { best := limits.value[i]; }
      }
      if best > 0 { limit := best; }
    }
  }

  // ----- The protocol -----

  datatype Phase =
    | Granted
    | Rejecting  // over the limit, the decrement is still to come
    | Denied
    | Repairing  // a release saw a negative counter, the store of zero is still to come
    | Released

  datatype State = State(counter: int, requests: map<nat, Phase>)

  const INITIAL := State(0, map[])

  /** `Expire` is the store dropping the key five minutes after the last increment. */
  datatype Action =
    | Increment(r: nat, limit: int)
    | Rollback(r: nat)
    | Release(r: nat)
    | Repair(r: nat)
    | Expire

  predicate In(s: State, r: nat, p: Phase) { r in s.requests && s.requests[r] == p }

  function Move(s: State, counter: int, r: nat, p: Phase): State { State(counter, s.requests[r := p]) }

  /** One atomic step. An action that is not possible changes nothing. */
  function Apply(s: State, a: Action): State {
    match a
    case Increment(r, limit) =>
      if r in s.requests then s
      else Move(s, s.counter + 1, r, if s.counter + 1 > limit then Rejecting else Granted)
    case Rollback(r) => if In(s, r, Rejecting) then Move(s, s.counter - 1, r, Denied) else s
    case Release(r) =>
      if In(s, r, Granted) then Move(s, s.counter - 1, r, if s.counter - 1 < 0 then Repairing else Released) else s
    case Repair(r) => if In(s, r, Repairing) then Move(s, 0, r, Released) else s
    case Expire => s.(counter := 0)
  }

  ghost function Exec(s: State, actions: seq<Action>): State
    decreases |actions|
  {
    if actions == [] then s else Exec(Apply(s, actions[0]), actions[1..])
  }

  ghost function Requests(requests: map<nat, Phase>, p: Phase): set<nat> {
    set r | r in requests && requests[r] == p
  }

  ghost function Count(s: State, p: Phase): nat { |Requests(s.requests, p)| }

  lemma CountChange(requests: map<nat, Phase>, r: nat, q: Phase, p: Phase)
    ensures |Requests(requests[r := q], p)| ==
            |Requests(requests, p)| - (if r in requests && requests[r] == p then 1 else 0) + (if q == p then 1 else 0)
  {
    SizeChange(Requests(requests, p), Requests(requests[r := q], p), r);
  }

  /** The counter is the number of granted slots and of rollbacks still to come, and no more
      than `most` slots are granted. */
  ghost predicate Invariant(s: State, most: int) {
    s.counter == Count(s, Granted) + Count(s, Rejecting) && Count(s, Repairing) == 0 && Count(s, Granted) <= most
  }

  /** Nothing is counted. */
  ghost predicate Idle(s: State) { Count(s, Granted) + Count(s, Rejecting) == 0 }

  ghost predicate Allowed(s: State, a: Action, most: int) {
    (a.Increment? ==> a.limit <= most) && (a.Expire? ==> Idle(s))
  }

  /** The limits are at most `most`, and the key never expires under a request. */
  ghost predicate Orderly(s: State, actions: seq<Action>, most: int)
    decreases |actions|
  {
    actions != [] ==> Allowed(s, actions[0], most) && Orderly(Apply(s, actions[0]), actions[1..], most)
  }

  lemma StepInvariant(s: State, a: Action, most: int)
    requires Invariant(s, most) && Allowed(s, a, most)
    ensures Invariant(Apply(s, a), most)
  {
    hide Requests;
    var t := Apply(s, a);
    if !a.Expire? && a.r in t.requests {
      CountChange(s.requests, a.r, t.requests[a.r], Granted);
      CountChange(s.requests, a.r, t.requests[a.r], Rejecting);
      CountChange(s.requests, a.r, t.requests[a.r], Repairing);
      assert s.requests[a.r := t.requests[a.r]] == t.requests;
      if In(s, a.r, Granted) { Member(s, a.r, Granted); }
      if In(s, a.r, Repairing) { Member(s, a.r, Repairing); }
    }
  }

  lemma Member(s: State, r: nat, p: Phase)
    requires In(s, r, p)
    ensures Count(s, p) >= 1
  {
    assert r in Requests(s.requests, p);
  }

  lemma {:induction false} RunInvariant(s: State, actions: seq<Action>, most: int)
    requires Invariant(s, most) && Orderly(s, actions, most)
    ensures Invariant(Exec(s, actions), most)
    decreases |actions|
  {
    hide Invariant, Apply, Allowed;
    if actions != [] {
      StepInvariant(s, actions[0], most);
      RunInvariant(Apply(s, actions[0]), actions[1..], most);
    }
  }

  /** In every interleaving the granted slots never exceed the limit, the counter is never
      negative, and it is zero again once everyone is done. */
  lemma SlotsBounded(actions: seq<Action>, most: nat)
    requires Orderly(INITIAL, actions, most)
    ensures var s := Exec(INITIAL, actions);
      && Count(s, Granted) <= most && s.counter >= 0
      && s.counter == Count(s, Granted) + Count(s, Rejecting)
      && (Idle(s) ==> s.counter == 0)
      && forall r | r in s.requests :: s.requests[r] != Repairing
  {
    EmptyCounts();
    RunInvariant(INITIAL, actions, most);
    var s := Exec(INITIAL, actions);
    forall r | r in s.requests ensures s.requests[r] != Repairing {
      if In(s, r, Repairing) { Member(s, r, Repairing); }
    }
  }

  lemma EmptyCounts()
    ensures forall p :: Count(INITIAL, p) == 0
  {
    forall p ensures Count(INITIAL, p) == 0 { assert Requests(map[], p) == {}; }
  }

  /** A new request is turned away exactly when the slots in use and the rollbacks on their way
      have reached its limit. */
  lemma DeniedIffFull(actions: seq<Action>, most: nat, r: nat, limit: int)
    requires Orderly(INITIAL, actions, most) && r !in Exec(INITIAL, actions).requests
    ensures var s := Exec(INITIAL, actions);
      In(Apply(s, Increment(r, limit)), r, Rejecting) <==> Count(s, Granted) + Count(s, Rejecting) >= limit
    ensures var s := Exec(INITIAL, actions);
      In(Apply(s, Increment(r, limit)), r, Granted) <==> Count(s, Granted) + Count(s, Rejecting) < limit
  {
    SlotsBounded(actions, most);
  }

  // ----- What does not hold -----

  lemma Unfold(s: State, a: Action, rest: seq<Action>)
    ensures Exec(s, [a] + rest) == Exec(Apply(s, a), rest)
  {
    assert ([a] + rest)[1..] == rest;
  }

  /** A rollback on its way can turn away a request although no slot is in use. */
  lemma DeniedWithoutUsers()
    ensures var s := Exec(INITIAL, [Increment(0, 1)] + ([Increment(1, 1)] + ([Release(0)] + ([Increment(2, 1)] + []))));
      s == State(2, map[0 := Released, 1 := Rejecting, 2 := Rejecting])
  {
    Unfold(INITIAL, Increment(0, 1), [Increment(1, 1)] + ([Release(0)] + ([Increment(2, 1)] + [])));
    var s1 := State(1, map[0 := Granted]);
    assert Apply(INITIAL, Increment(0, 1)) == s1;
    Unfold(s1, Increment(1, 1), [Release(0)] + ([Increment(2, 1)] + []));
    var s2 := State(2, map[0 := Granted, 1 := Rejecting]);
    assert Apply(s1, Increment(1, 1)) == s2;
    Unfold(s2, Release(0), [Increment(2, 1)] + []);
    var s3 := State(1, map[0 := Released, 1 := Rejecting]);
    assert Apply(s2, Release(0)) == s3;
    Unfold(s3, Increment(2, 1), []);
  }

  // ----- Expiry -----

  lemma {:induction false} OrderlyAppend(s: State, xs: seq<Action>, ys: seq<Action>, most: int)
    ensures Exec(s, xs + ys) == Exec(Exec(s, xs), ys)
    ensures Orderly(s, xs, most) && Orderly(Exec(s, xs), ys, most) ==> Orderly(s, xs + ys, most)
    decreases |xs|
  {
    hide Apply, Allowed;
    if xs == [] {
      assert xs + ys == ys;
    } else {
      OrderlyAppend(Apply(s, xs[0]), xs[1..], ys, most);
      assert (xs + ys)[1..] == xs[1..] + ys;
    }
  }

  /** All rollbacks on their way arrive. */
  lemma {:induction false} RollBackAll(s: State, most: int) returns (actions: seq<Action>)
    ensures Orderly(s, actions, most)
    ensures var t := Exec(s, actions);
      && t.counter == s.counter - Count(s, Rejecting) && Count(t, Granted) == Count(s, Granted)
      && t.requests.Keys == s.requests.Keys
    decreases Count(s, Rejecting)
  {
    actions := [];
    if r :| r in Requests(s.requests, Rejecting) {
      var a := Rollback(r);
      CountChange(s.requests, r, Denied, Rejecting);
      CountChange(s.requests, r, Denied, Granted);
      var rest := RollBackAll(Apply(s, a), most);
      assert ([a] + rest)[1..] == rest;
      actions := [a] + rest;
    }
  }

  /** `count` new requests arrive and find room. */
  lemma {:induction false} GrantMore(s: State, first: nat, count: nat, most: int) returns (actions: seq<Action>)
    requires forall r | r in s.requests :: r < first
    requires s.counter + count <= most
    ensures Orderly(s, actions, most) && Count(Exec(s, actions), Granted) == Count(s, Granted) + count
    decreases count
  {
    actions := [];
    if count > 0 {
      var a := Increment(first, most);
      CountChange(s.requests, first, Granted, Granted);
      var rest := GrantMore(Apply(s, a), first + 1, count - 1, most);
      assert ([a] + rest)[1..] == rest;
      actions := [a] + rest;
    }
  }

  /** After an expiry, every slot in use and every rollback on its way is given out once more
      beyond the limit: the rollbacks take the counter below zero, where it stays until a
      release finds it negative and stores zero. */
  lemma ExpiryGivesOutAgain(s: State, most: nat) returns (actions: seq<Action>)
    ensures Orderly(Apply(s, Expire), actions, most)
    ensures Count(Exec(Apply(s, Expire), actions), Granted) == most + Count(s, Granted) + Count(s, Rejecting)
  {
    hide Apply, Orderly, Exec, Requests;
    var t := Apply(s, Expire);
    ExpiredState(s);
    var back := RollBackAll(t, most);
    var u := Exec(t, back);
    var first := Beyond(u.requests.Keys);
    var more := GrantMore(u, first, most + Count(t, Rejecting), most);
    OrderlyAppend(t, back, more, most);
    actions := back + more;
  }

  lemma ExpiredState(s: State)
    ensures Apply(s, Expire) == State(0, s.requests)
  {
  }

  /** An expiry of the key is harmless, whatever follows, exactly when no slot is in use and no
      rollback is on its way. */
  lemma ExpiryHarmlessIffIdle(actions: seq<Action>, most: nat)
    requires Orderly(INITIAL, actions, most)
    ensures var s := Exec(INITIAL, actions);
      var t := Apply(s, Expire);
      (forall more | Orderly(t, more, most) :: Count(Exec(t, more), Granted) <= most) <==> Idle(s)
  {
    hide Apply, Orderly, Exec, Requests;
    var s := Exec(INITIAL, actions);
    var t := Apply(s, Expire);
    ExpiredState(s);
    EmptyCounts();
    RunInvariant(INITIAL, actions, most);
    if Idle(s) {
      forall more | Orderly(t, more, most) ensures Count(Exec(t, more), Granted) <= most {
        RunInvariant(t, more, most);
      }
    } else {
      var more := ExpiryGivesOutAgain(s, most);
    }
  }

  /** When the key expires under a running request, its slot is given out again. */
  lemma ExpiryOvercommits()
    ensures var s := Exec(INITIAL, [Increment(0, 1)] + ([Expire] + ([Increment(1, 1)] + [])));
      s == State(1, map[0 := Granted, 1 := Granted])
  {
    Unfold(INITIAL, Increment(0, 1), [Expire] + ([Increment(1, 1)] + []));
    var s1 := State(1, map[0 := Granted]);
    assert Apply(INITIAL, Increment(0, 1)) == s1;
    Unfold(s1, Expire, [Increment(1, 1)] + []);
    Unfold(s1.(counter := 0), Increment(1, 1), []);
  }

  // ----- One caller at a time -----

  class SlotCounter {
    var counter: int

    constructor ()
      ensures counter == 0
    {
      counter := 0;
    }

    method AcquireConcurrency(limits: Option<seq<int>>) returns (ok: bool, ghost limit: int)
      modifies this
      ensures limit >= 1
      ensures limits.Some? && (exists l :: l in limits.value && l > 0) ==>
                limit in limits.value && forall l | l in limits.value :: l <= limit
      ensures limits.None? || (forall l | l in limits.value :: l <= 0) ==> limit == 5
      ensures ok <==> old(counter) < limit
      ensures counter == if ok then old(counter) + 1 else old(counter)
    {
      var maxConcurrency := EffectiveLimit(limits);
      limit := maxConcurrency;
      counter := counter + 1;
      if counter > maxConcurrency {
        counter := counter - 1;
        return false, limit;
      }
      return true, limit;
    }

    method ReleaseConcurrency()
      modifies this
      ensures counter == if old(counter) > 0 then old(counter) - 1 else 0
    {
      counter := counter - 1;
      if counter < 0 { counter := 0; }
    }
  }
}
