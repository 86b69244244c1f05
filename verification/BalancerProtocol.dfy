/**
 The load balancer under concurrency: every interleaving of requests that look for a node,
 take it, and give it back, with health changes and replacements of the node list.

 A request looks at one node at a time without a lock, takes one of the nodes it found
 suitable later, and releases it in two atomic steps. Node objects are numbered; a refresh of
 the list makes new objects.
 */
module BalancerProtocol {
  import opened Counting

  datatype NodeState = NodeState(id: int, maxConn: int, healthy: bool, active: int)

  datatype Phase =
    | Looking(candidates: set<nat>)  // nodes that passed the filter so far
    | Failed
    | Calling(node: nat)
    | Finished(node: nat)
    | Reading(node: nat)             // a stream that was never closed
    | Closed(node: nat)

  /** `clamping` is set between a decrement below zero and the store that repairs it. */
  datatype Request = Request(phase: Phase, clamping: bool)

  datatype State = State(nodes: map<nat, NodeState>, live: set<nat>, requests: map<nat, Request>)

  const INITIAL := State(map[], {}, map[])

  datatype Config = Config(id: int, maxConn: int)

  datatype Action =
    | Arrive(r: nat)
    | Inspect(r: nat, node: nat)
    | GiveUp(r: nat)
    | Take(r: nat, node: nat)
    | Finish(r: nat)
    | OpenStream(r: nat)
    | Close(r: nat)
    | Clamp(r: nat)
    | SetHealth(node: nat, healthy: bool)
    | Refresh(configs: map<nat, Config>)

  predicate Suitable(n: NodeState) { n.healthy && n.active < n.maxConn }

  predicate Is(s: State, r: nat, phase: Phase) { r in s.requests && s.requests[r].phase == phase }

  predicate LooksFor(s: State, r: nat) { r in s.requests && s.requests[r].phase.Looking? }

  function WithRequest(s: State, r: nat, q: Request): State { s.(requests := s.requests[r := q]) }

  function WithActive(s: State, node: nat, active: int): State
    requires node in s.nodes
  {
    s.(nodes := s.nodes[node := s.nodes[node].(active := active)])
  }

  /** The atomic decrement; the request goes on to `next`. */
  function Decrement(s: State, r: nat, node: nat, next: Phase): State {
    if node !in s.nodes then s
    else
      var left := s.nodes[node].active - 1;
      WithRequest(WithActive(s, node, left), r, Request(next, left < 0))
  }

  /** One atomic step. An action that is not possible in `s` changes nothing. */
  function Apply(s: State, a: Action): State {
    match a
    case Arrive(r) => if r in s.requests then s else WithRequest(s, r, Request(Looking({}), false))
    case Inspect(r, node) =>
      if LooksFor(s, r) && node in s.live && node in s.nodes && Suitable(s.nodes[node])
      then WithRequest(s, r, Request(Looking(s.requests[r].phase.candidates + {node}), s.requests[r].clamping))
      else s
    case GiveUp(r) => if LooksFor(s, r) then WithRequest(s, r, Request(Failed, s.requests[r].clamping)) else s
    case Take(r, node) =>
      if LooksFor(s, r) && node in s.requests[r].phase.candidates && node in s.nodes
      then WithRequest(WithActive(s, node, s.nodes[node].active + 1), r, Request(Calling(node), s.requests[r].clamping))
      else s
    case Finish(r) =>
      if r in s.requests && s.requests[r].phase.Calling?
      then Decrement(s, r, s.requests[r].phase.node, Finished(s.requests[r].phase.node)) else s
    case OpenStream(r) =>
      if r in s.requests && s.requests[r].phase.Calling?
      then WithRequest(s, r, Request(Reading(s.requests[r].phase.node), s.requests[r].clamping)) else s
    case Close(r) =>
      if r in s.requests && s.requests[r].phase.Reading?
      then Decrement(s, r, s.requests[r].phase.node, Closed(s.requests[r].phase.node)) else s
    case Clamp(r) =>
      if r in s.requests && s.requests[r].clamping && (s.requests[r].phase.Finished? || s.requests[r].phase.Closed?)
         && s.requests[r].phase.node in s.nodes
      then WithRequest(WithActive(s, s.requests[r].phase.node, 0), r, Request(s.requests[r].phase, false)) else s
    case SetHealth(node, healthy) =>
      if node in s.live && node in s.nodes then s.(nodes := s.nodes[node := s.nodes[node].(healthy := healthy)]) else s
    case Refresh(configs) =>
      if configs.Keys !! s.nodes.Keys
      then s.(nodes := s.nodes + (map o | o in configs :: NodeState(configs[o].id, configs[o].maxConn, true, 0)),
              live := configs.Keys)
      else s
  }

  ghost function Exec(s: State, actions: seq<Action>): State
    decreases |actions|
  {
    if actions == [] then s else Exec(Apply(s, actions[0]), actions[1..])
  }

  // ----- Counting requests -----

  datatype Kind = Leased | Pending

  predicate Counts(kind: Kind, phase: Phase, node: nat) {
    match kind
    case Leased => phase == Calling(node) || phase == Reading(node)
    case Pending => phase.Looking? && node in phase.candidates
  }

  ghost function Among(requests: map<nat, Request>, kind: Kind, node: nat): set<nat> {
    set r | r in requests && Counts(kind, requests[r].phase, node)
  }

  /** How many requests hold the node, or have found it suitable and not decided yet. */
  ghost function Count(s: State, kind: Kind, node: nat): nat { |Among(s.requests, kind, node)| }

  lemma CountChange(requests: map<nat, Request>, r: nat, q: Request, kind: Kind, node: nat)
    ensures |Among(requests[r := q], kind, node)| ==
            |Among(requests, kind, node)|
            - (if r in requests && Counts(kind, requests[r].phase, node) then 1 else 0)
            + (if Counts(kind, q.phase, node) then 1 else 0)
  {
    var before, after := Among(requests, kind, node), Among(requests[r := q], kind, node);
    assert before - {r} == after - {r};
    hide Among, Counts;
    SizeChange(before, after, r);
  }

  // ----- The invariant -----

  ghost predicate Sound(s: State) {
    && s.live <= s.nodes.Keys
    && (forall r | r in s.requests :: !s.requests[r].clamping)
    && (forall r | r in s.requests && s.requests[r].phase.Looking? ::
          forall o | o in s.requests[r].phase.candidates :: o in s.nodes && s.nodes[o].maxConn >= 1)
    && (forall r | r in s.requests && (s.requests[r].phase.Calling? || s.requests[r].phase.Reading?) ::
          s.requests[r].phase.node in s.nodes)
  }

  /** The counter of every node object is the number of requests that hold it. */
  ghost predicate Exact(s: State) {
    forall o | o in s.nodes :: s.nodes[o].active == Count(s, Leased, o)
  }

  ghost predicate Invariant(s: State) { Sound(s) && Exact(s) }

  lemma Changed(s: State, r: nat, q: Request, kind: Kind, node: nat)
    ensures Count(WithRequest(s, r, q), kind, node) ==
            Count(s, kind, node)
            - (if r in s.requests && Counts(kind, s.requests[r].phase, node) then 1 else 0)
            + (if Counts(kind, q.phase, node) then 1 else 0)
  {
    CountChange(s.requests, r, q, kind, node);
  }

  /** The node a request holds has been counted. */
  lemma HeldIsPositive(s: State, r: nat, node: nat)
    requires Exact(s) && r in s.requests && Counts(Leased, s.requests[r].phase, node) && node in s.nodes
    ensures s.nodes[node].active >= 1
  {
    assert r in Among(s.requests, Leased, node);
  }

  lemma NoneHoldNewNodes(s: State, node: nat)
    requires Sound(s) && node !in s.nodes
    ensures Count(s, Leased, node) == 0 && Count(s, Pending, node) == 0
  {
    assert Among(s.requests, Leased, node) == {};
    assert Among(s.requests, Pending, node) == {};
  }

  lemma StepSound(s: State, a: Action)
    requires Invariant(s)
    ensures Sound(Apply(s, a))
  {
    hide Count;
    match a {
      case Finish(r) =>
        if r in s.requests && s.requests[r].phase.Calling? { HeldIsPositive(s, r, s.requests[r].phase.node); }
      case Close(r) =>
        if r in s.requests && s.requests[r].phase.Reading? { HeldIsPositive(s, r, s.requests[r].phase.node); }
      case _ =>
    }
  }

  /** Every step moves the leases of a node and its counter together. */
  lemma StepExact(s: State, a: Action)
    requires Invariant(s)
    ensures Exact(Apply(s, a))
  {
    hide Count;
    var t := Apply(s, a);
    forall o | o in t.nodes ensures t.nodes[o].active == Count(t, Leased, o) {
      if a.Refresh? || a.SetHealth? {
        SameRequests(s, t, o);
        if o !in s.nodes { NoneHoldNewNodes(s, o); }
      } else if a.r in t.requests {
        Changed(s, a.r, t.requests[a.r], Leased, o);
        SameRequests(t, WithRequest(s, a.r, t.requests[a.r]), o);
      }
    }
  }

  lemma SameRequests(s: State, t: State, o: nat)
    ensures s.requests == t.requests ==>
              Count(s, Leased, o) == Count(t, Leased, o) && Count(s, Pending, o) == Count(t, Pending, o)
  {
  }

  lemma StepInvariant(s: State, a: Action)
    requires Invariant(s)
    ensures Invariant(Apply(s, a))
  {
    StepSound(s, a);
    StepExact(s, a);
  }

  lemma InitialInvariant()
    ensures Invariant(INITIAL)
  {
  }

  lemma {:induction false} RunInvariant(s: State, actions: seq<Action>)
    requires Invariant(s)
    ensures Invariant(Exec(s, actions))
    decreases |actions|
  {
    hide Apply, Invariant;
    if actions != [] {
      StepInvariant(s, actions[0]);
      RunInvariant(Apply(s, actions[0]), actions[1..]);
    }
  }

  /** In every interleaving: each node's counter is exactly the number of its outstanding
      leases, so it is never negative and the repair at zero is never needed. */
  lemma CountersAreLeases(actions: seq<Action>, node: nat)
    requires node in Exec(INITIAL, actions).nodes
    ensures var s := Exec(INITIAL, actions);
      s.nodes[node].active == Count(s, Leased, node) >= 0
    ensures forall r | r in Exec(INITIAL, actions).requests :: !Exec(INITIAL, actions).requests[r].clamping
  {
    InitialInvariant();
    RunInvariant(INITIAL, actions);
  }

  /** A stream that is closed again releases nothing more. */
  lemma CloseTwice(s: State, r: nat)
    requires r in s.requests && s.requests[r].phase.Reading? && s.requests[r].phase.node in s.nodes
    ensures Apply(Apply(s, Close(r)), Close(r)) == Apply(s, Close(r))
    ensures Apply(s, Close(r)).nodes[s.requests[r].phase.node].active == s.nodes[s.requests[r].phase.node].active - 1
  {
  }

  /** The actions without the closing of stream `r`. */
  ghost function WithoutCloses(actions: seq<Action>, r: nat): seq<Action> {
    if actions == [] then []
    else (if actions[0] == Close(r) then [] else [actions[0]]) + WithoutCloses(actions[1..], r)
  }

  lemma ClosedStays(s: State, a: Action, r: nat)
    requires r in s.requests && s.requests[r].phase.Closed?
    ensures r in Apply(s, a).requests && Apply(s, a).requests[r].phase == s.requests[r].phase
    ensures a == Close(r) ==> Apply(s, a) == s
  {
  }

  /** Once a stream was closed, closing it again any number of times, at any point of any run,
      makes no difference to anything. */
  lemma {:induction false} OnlyFirstCloseCounts(s: State, actions: seq<Action>, r: nat)
    requires r in s.requests && s.requests[r].phase.Closed?
    ensures Exec(s, actions) == Exec(s, WithoutCloses(actions, r))
    decreases |actions|
  {
    hide Apply;
    if actions != [] {
      var a, rest := actions[0], WithoutCloses(actions[1..], r);
      ClosedStays(s, a, r);
      OnlyFirstCloseCounts(Apply(s, a), actions[1..], r);
      assert ([a] + rest)[1..] == rest && [] + rest == rest;
    }
  }

  // ----- Who may take a node -----

  /** The request has found the node suitable, or took it. */
  predicate Linked(s: State, r: nat, node: nat) {
    r in s.requests &&
    match s.requests[r].phase
    case Looking(candidates) => node in candidates
    case Failed => false
    case Calling(n) => n == node
    case Finished(n) => n == node
    case Reading(n) => n == node
    case Closed(n) => n == node
  }

  /** A request holds or considers only nodes that were listed, healthy and below their limit
      when it looked at them. */
  lemma {:induction false} FoundSuitable(s: State, actions: seq<Action>, r: nat, node: nat) returns (n: nat)
    requires !Linked(s, r, node) && Linked(Exec(s, actions), r, node)
    ensures n < |actions| && actions[n] == Inspect(r, node)
    ensures var t := Exec(s, actions[..n]);
      && node in t.live && node in t.nodes
      && t.nodes[node].healthy && t.nodes[node].active < t.nodes[node].maxConn
    decreases |actions|
  {
    if actions != [] {
      var a, rest := actions[0], actions[1..];
      if Linked(Apply(s, a), r, node) {
        n := 0;
        assert Exec(s, actions[..0]) == s;
      } else {
        hide Apply;
        var m := FoundSuitable(Apply(s, a), rest, r, node);
        n := m + 1;
        assert actions[..n][0] == a && actions[..n][1..] == rest[..m];
      }
    }
  }

  lemma {:induction false} StaysSick(s: State, actions: seq<Action>, node: nat)
    requires node in s.nodes && !s.nodes[node].healthy && SetHealth(node, true) !in actions
    ensures node in Exec(s, actions).nodes && !Exec(s, actions).nodes[node].healthy
    decreases |actions|
  {
    if actions != [] {
      assert actions[0] in actions;
      OneStepSick(s, actions[0], node);
      hide Apply;
      StaysSick(Apply(s, actions[0]), actions[1..], node);
    }
  }

  lemma OneStepSick(s: State, a: Action, node: nat)
    requires node in s.nodes && !s.nodes[node].healthy && a != SetHealth(node, true)
    ensures node in Apply(s, a).nodes && !Apply(s, a).nodes[node].healthy
  {
  }

  /** Once a node was marked unhealthy, no request finds it any more, whatever happens, until it
      is marked healthy again; a refresh brings new node objects and does not revive it. */
  lemma UnhealthyIsNotTaken(s: State, actions: seq<Action>, r: nat, node: nat)
    requires node in s.live && node in s.nodes && !Linked(s, r, node)
    requires SetHealth(node, true) !in actions
    ensures !Linked(Exec(Apply(s, SetHealth(node, false)), actions), r, node)
  {
    hide Exec;
    var t := Apply(s, SetHealth(node, false));
    assert !Linked(t, r, node);
    if Linked(Exec(t, actions), r, node) {
      var n := FoundSuitable(t, actions, r, node);
      StaysSick(t, actions[..n], node);
    }
  }

  // ----- The bound -----

  /** At most `k` requests at a time stand between finding a node suitable and taking it. */
  ghost predicate Within(s: State, k: nat) { forall o: nat :: Count(s, Pending, o) <= k }

  ghost predicate AlwaysWithin(s: State, actions: seq<Action>, k: nat)
    decreases |actions|
  {
    Within(s, k) && (actions != [] ==> AlwaysWithin(Apply(s, actions[0]), actions[1..], k))
  }

  function Most(maxConn: int, k: nat): int { if maxConn - 1 + k > 0 then maxConn - 1 + k else 0 }

  ghost predicate Capped(s: State, k: nat) {
    forall o | o in s.nodes :: s.nodes[o].active + Count(s, Pending, o) <= Most(s.nodes[o].maxConn, k)
  }

  lemma StepCapped(s: State, a: Action, k: nat)
    requires Invariant(s) && Capped(s, k) && Within(Apply(s, a), k)
    ensures Capped(Apply(s, a), k)
  {
    hide Count;
    var t := Apply(s, a);
    forall o | o in t.nodes ensures t.nodes[o].active + Count(t, Pending, o) <= Most(t.nodes[o].maxConn, k) {
      assert Count(t, Pending, o) <= k;
      if a.Refresh? || a.SetHealth? {
        SameRequests(s, t, o);
        if o !in s.nodes { NoneHoldNewNodes(s, o); }
      } else if a.r in t.requests {
        Changed(s, a.r, t.requests[a.r], Pending, o);
        SameRequests(t, WithRequest(s, a.r, t.requests[a.r]), o);
      }
    }
  }

  lemma {:induction false} RunCapped(s: State, actions: seq<Action>, k: nat)
    requires Invariant(s) && Capped(s, k) && AlwaysWithin(s, actions, k)
    ensures Capped(Exec(s, actions), k)
    decreases |actions|
  {
    hide Apply, Invariant, Capped, Within;
    if actions != [] {
      var t := Apply(s, actions[0]);
      StepInvariant(s, actions[0]);
      StepCapped(s, actions[0], k);
      RunCapped(t, actions[1..], k);
    }
  }

  /** The limit of a node is overshot by at most as many requests, less one, as decide at the
      same time. */
  lemma ActiveBound(actions: seq<Action>, k: nat, node: nat)
    requires AlwaysWithin(INITIAL, actions, k) && node in Exec(INITIAL, actions).nodes
    ensures var n := Exec(INITIAL, actions).nodes[node]; n.active <= Most(n.maxConn, k)
  {
    InitialInvariant();
    RunCapped(INITIAL, actions, k);
  }

  // ----- The bound is reached -----

  lemma {:induction false} ExecAppend(s: State, xs: seq<Action>, ys: seq<Action>, k: nat)
    ensures Exec(s, xs + ys) == Exec(Exec(s, xs), ys)
    ensures AlwaysWithin(s, xs, k) && AlwaysWithin(Exec(s, xs), ys, k) ==> AlwaysWithin(s, xs + ys, k)
    decreases |xs|
  {
    hide Apply, Within;
    if xs == [] {
      assert xs + ys == ys;
    } else {
      ExecAppend(Apply(s, xs[0]), xs[1..], ys, k);
      assert (xs + ys)[1..] == xs[1..] + ys;
    }
  }

  /** A node object nobody uses or considers, and request numbers that are free. */
  ghost predicate Free(s: State, o: nat, first: nat) {
    && o in s.nodes && o in s.live && s.nodes[o].healthy && s.nodes[o].active == 0
    && Count(s, Pending, o) == 0
    && forall r | r in s.requests :: r < first
  }

  /** `s` with `held` more requests that hold node `o` and `waiting` more that have found it
      suitable, numbered from `first` on. */
  ghost function Crowd(s: State, o: nat, first: nat, held: nat, waiting: nat): State
    requires o in s.nodes
  {
    State(s.nodes[o := s.nodes[o].(active := held)], s.live,
          s.requests + Newcomers(o, first, first + held, first + held + waiting))
  }

  ghost function Newcomers(o: nat, first: nat, taken: nat, all: nat): map<nat, Request> {
    map r: nat | first <= r < all && Numbered(r, all) :: Request(if r < taken then Calling(o) else Looking({o}), false)
  }

  predicate Numbered(r: nat, n: nat) { r < n }

  lemma NoCrowd(s: State, o: nat, first: nat)
    requires Free(s, o, first)
    ensures Crowd(s, o, first, 0, 0) == s
  {
    assert s.requests + Newcomers(o, first, first, first) == s.requests;
  }

  lemma {:induction false} CrowdCount(s: State, o: nat, first: nat, held: nat, waiting: nat, p: nat)
    requires o in s.nodes && Free(s, o, first)
    ensures Count(Crowd(s, o, first, held, waiting), Pending, p) ==
            Count(s, Pending, p) + if p == o then waiting else 0
    decreases waiting
  {
    hide *;
    if waiting == 0 {
      NobodyWaits(s, o, first, held, p);
    } else {
      CrowdCount(s, o, first, held, waiting - 1, p);
      OneMoreInCrowd(s, o, first, held, waiting - 1, p);
    }
  }

  lemma NobodyWaits(s: State, o: nat, first: nat, held: nat, p: nat)
    requires o in s.nodes && Free(s, o, first)
    ensures Count(Crowd(s, o, first, held, 0), Pending, p) == Count(s, Pending, p)
  {
    assert Among(Crowd(s, o, first, held, 0).requests, Pending, p) == Among(s.requests, Pending, p);
  }

  lemma OneMoreInCrowd(s: State, o: nat, first: nat, held: nat, waiting: nat, p: nat)
    requires o in s.nodes && Free(s, o, first)
    ensures Count(Crowd(s, o, first, held, waiting + 1), Pending, p) ==
            Count(Crowd(s, o, first, held, waiting), Pending, p) + (if p == o then 1 else 0)
  {
    var r, q := first + held + waiting, Request(Looking({o}), false);
    var before := Crowd(s, o, first, held, waiting).requests;
    assert Crowd(s, o, first, held, waiting + 1).requests == before[r := q] && r !in before;
    hide Crowd, Newcomers, Among;
    CountChange(before, r, q, Pending, p);
  }

  lemma CrowdWithin(s: State, o: nat, first: nat, held: nat, waiting: nat, k: nat)
    requires Free(s, o, first) && Within(s, k) && waiting <= k
    ensures Within(Crowd(s, o, first, held, waiting), k)
  {
    hide Crowd;
    forall p: nat ensures Count(Crowd(s, o, first, held, waiting), Pending, p) <= k {
      CrowdCount(s, o, first, held, waiting, p);
      assert Count(s, Pending, p) <= k;
    }
  }

  /** While there is room, one more request may arrive and find the node suitable. */
  lemma OneMoreWaits(s: State, o: nat, first: nat, held: nat, waiting: nat, k: nat)
    requires Free(s, o, first) && Within(s, k) && held < s.nodes[o].maxConn && waiting < k
    ensures var t, r := Crowd(s, o, first, held, waiting), first + held + waiting;
      Exec(t, [Arrive(r), Inspect(r, o)]) == Crowd(s, o, first, held, waiting + 1)
      && AlwaysWithin(t, [Arrive(r), Inspect(r, o)], k)
  {
    var t, r := Crowd(s, o, first, held, waiting), first + held + waiting;
    var arrived := Apply(t, Arrive(r));
    WaitingSteps(s, o, first, held, waiting);
    CrowdWithin(s, o, first, held, waiting, k);
    CrowdWithin(s, o, first, held, waiting + 1, k);
    hide Apply, Crowd;
    TwoSteps(t, Arrive(r), Inspect(r, o), k);
    forall p: nat ensures Count(arrived, Pending, p) <= k {
      Changed(t, r, Request(Looking({}), false), Pending, p);
      assert Count(t, Pending, p) <= k;
    }
  }

  lemma WaitingSteps(s: State, o: nat, first: nat, held: nat, waiting: nat)
    requires Free(s, o, first) && held < s.nodes[o].maxConn
    ensures var t, r := Crowd(s, o, first, held, waiting), first + held + waiting;
      && r !in t.requests
      && Apply(t, Arrive(r)) == WithRequest(t, r, Request(Looking({}), false))
      && Apply(Apply(t, Arrive(r)), Inspect(r, o)) == Crowd(s, o, first, held, waiting + 1)
  {
    var t, r := Crowd(s, o, first, held, waiting), first + held + waiting;
    assert {} + {o} == {o};
    var found := Apply(Apply(t, Arrive(r)), Inspect(r, o));
    assert found.requests == Crowd(s, o, first, held, waiting + 1).requests;
  }

  lemma TwoSteps(s: State, a: Action, b: Action, k: nat)
    ensures Exec(s, [a, b]) == Apply(Apply(s, a), b)
    ensures Within(s, k) && Within(Apply(s, a), k) && Within(Apply(Apply(s, a), b), k) ==> AlwaysWithin(s, [a, b], k)
  {
    hide Apply, Within;
    assert [a, b][1..] == [b] && [b][1..] == [];
    assert Exec(Apply(s, a), [b]) == Exec(Apply(Apply(s, a), b), []);
    assert AlwaysWithin(Apply(s, a), [b], k) <==>
           Within(Apply(s, a), k) && AlwaysWithin(Apply(Apply(s, a), b), [], k);
  }

  /** A request that found the node suitable may take it, whoever took it in the meantime. */
  lemma OneMoreTakes(s: State, o: nat, first: nat, held: nat, waiting: nat, k: nat)
    requires Free(s, o, first) && Within(s, k) && 0 < waiting <= k
    ensures Exec(Crowd(s, o, first, held, waiting), [Take(first + held, o)]) ==
        Crowd(s, o, first, held + 1, waiting - 1)
    ensures AlwaysWithin(Crowd(s, o, first, held, waiting), [Take(first + held, o)], k)
  {
    hide Apply, Crowd, Within, Count, Exec, AlwaysWithin;
    TakingStep(s, o, first, held, waiting);
    CrowdWithin(s, o, first, held, waiting, k);
    CrowdWithin(s, o, first, held + 1, waiting - 1, k);
    OneStep(Crowd(s, o, first, held, waiting), Take(first + held, o), k);
  }

  lemma TakingStep(s: State, o: nat, first: nat, held: nat, waiting: nat)
    requires Free(s, o, first) && 0 < waiting
    ensures Apply(Crowd(s, o, first, held, waiting), Take(first + held, o)) == Crowd(s, o, first, held + 1, waiting - 1)
  {
    hide Count;
    var t, u := Crowd(s, o, first, held, waiting), Crowd(s, o, first, held + 1, waiting - 1);
    assert Apply(t, Take(first + held, o)).requests == u.requests;
    assert Apply(t, Take(first + held, o)).nodes == u.nodes;
  }

  lemma OneStep(s: State, a: Action, k: nat)
    ensures Exec(s, [a]) == Apply(s, a)
    ensures Within(s, k) && Within(Apply(s, a), k) ==> AlwaysWithin(s, [a], k)
  {
    hide Apply, Within;
    assert [a][1..] == [];
    assert Exec(Apply(s, a), []) == Apply(s, a);
  }

  ghost predicate NoRefresh(actions: seq<Action>) { forall a | a in actions :: !a.Refresh? }

  /** A run within `k` and without a refresh leads from one state to the other. */
  ghost predicate Leads(s: State, actions: seq<Action>, t: State, k: nat) {
    Exec(s, actions) == t && AlwaysWithin(s, actions, k) && NoRefresh(actions)
  }

  lemma LeadsNowhere(s: State, k: nat)
    requires Within(s, k)
    ensures Leads(s, [], s, k)
  {
  }

  lemma LeadsBy(s: State, actions: seq<Action>, k: nat)
    requires AlwaysWithin(s, actions, k) && NoRefresh(actions)
    ensures Leads(s, actions, Exec(s, actions), k)
  {
  }

  lemma LeadsOn(s: State, xs: seq<Action>, t: State, ys: seq<Action>, u: State, k: nat)
    requires Leads(s, xs, t, k) && Leads(t, ys, u, k)
    ensures Leads(s, xs + ys, u, k)
  {
    ExecAppend(s, xs, ys, k);
  }

  lemma {:induction false} FillUp(s: State, o: nat, first: nat, held: nat, k: nat) returns (actions: seq<Action>)
    requires Free(s, o, first) && Within(s, k) && 0 < k && held < s.nodes[o].maxConn
    ensures Leads(s, actions, Crowd(s, o, first, held, 0), k)
    decreases held
  {
    hide Crowd, Apply, Within, Count, Leads;
    NoCrowd(s, o, first);
    if held == 0 {
      actions := [];
      LeadsNowhere(s, k);
    } else {
      actions := FillUp(s, o, first, held - 1, k);
      var r := first + held - 1;
      OneMoreWaits(s, o, first, held - 1, 0, k);
      OneMoreTakes(s, o, first, held - 1, 1, k);
      LeadsBy(Crowd(s, o, first, held - 1, 0), [Arrive(r), Inspect(r, o)], k);
      LeadsBy(Crowd(s, o, first, held - 1, 1), [Take(r, o)], k);
      LeadsOn(s, actions, Crowd(s, o, first, held - 1, 0), [Arrive(r), Inspect(r, o)],
          Crowd(s, o, first, held - 1, 1), k);
      LeadsOn(s, actions + [Arrive(r), Inspect(r, o)], Crowd(s, o, first, held - 1, 1),
              [Take(r, o)], Crowd(s, o, first, held, 0), k);
      actions := actions + [Arrive(r), Inspect(r, o)] + [Take(r, o)];
    }
  }

  lemma {:induction false} CrowdGathers(s: State, o: nat, first: nat, held: nat, waiting: nat, k: nat)
    returns (actions: seq<Action>)
    requires Free(s, o, first) && Within(s, k) && held < s.nodes[o].maxConn && waiting <= k
    ensures Leads(Crowd(s, o, first, held, 0), actions, Crowd(s, o, first, held, waiting), k)
    decreases waiting
  {
    hide Crowd, Apply, Within, Count, Leads;
    var t := Crowd(s, o, first, held, 0);
    if waiting == 0 {
      actions := [];
      CrowdWithin(s, o, first, held, 0, k);
      LeadsNowhere(t, k);
    } else {
      actions := CrowdGathers(s, o, first, held, waiting - 1, k);
      var r := first + held + waiting - 1;
      OneMoreWaits(s, o, first, held, waiting - 1, k);
      LeadsBy(Crowd(s, o, first, held, waiting - 1), [Arrive(r), Inspect(r, o)], k);
      LeadsOn(t, actions, Crowd(s, o, first, held, waiting - 1),
              [Arrive(r), Inspect(r, o)], Crowd(s, o, first, held, waiting), k);
      actions := actions + [Arrive(r), Inspect(r, o)];
    }
  }

  lemma {:induction false} CrowdTakes(s: State, o: nat, first: nat, held: nat, waiting: nat, k: nat)
    returns (actions: seq<Action>)
    requires Free(s, o, first) && Within(s, k) && waiting <= k
    ensures Leads(Crowd(s, o, first, held, waiting), actions, Crowd(s, o, first, held + waiting, 0), k)
    decreases waiting
  {
    hide Crowd, Apply, Within, Count, Leads;
    if waiting == 0 {
      actions := [];
      CrowdWithin(s, o, first, held, 0, k);
      LeadsNowhere(Crowd(s, o, first, held, 0), k);
    } else {
      OneMoreTakes(s, o, first, held, waiting, k);
      LeadsBy(Crowd(s, o, first, held, waiting), [Take(first + held, o)], k);
      var rest := CrowdTakes(s, o, first, held + 1, waiting - 1, k);
      LeadsOn(Crowd(s, o, first, held, waiting), [Take(first + held, o)], Crowd(s, o, first, held + 1, waiting - 1),
              rest, Crowd(s, o, first, held + waiting, 0), k);
      actions := [Take(first + held, o)] + rest;
    }
  }

  /** From any state, new requests can take a free node object up to the bound, whatever the
      others do meanwhile. */
  lemma Overfill(s: State, o: nat, first: nat, k: nat) returns (actions: seq<Action>)
    requires Free(s, o, first) && Within(s, k) && k >= 1 && s.nodes[o].maxConn >= 1
    ensures Leads(s, actions, Crowd(s, o, first, s.nodes[o].maxConn - 1 + k, 0), k)
  {
    hide Leads, Crowd, Within;
    var held := s.nodes[o].maxConn - 1;
    var fill := FillUp(s, o, first, held, k);
    var gather := CrowdGathers(s, o, first, held, k, k);
    var take := CrowdTakes(s, o, first, held, k, k);
    LeadsOn(s, fill, Crowd(s, o, first, held, 0), gather, Crowd(s, o, first, held, k), k);
    LeadsOn(s, fill + gather, Crowd(s, o, first, held, k), take, Crowd(s, o, first, held + k, 0), k);
    actions := fill + gather + take;
  }

  lemma Startup(maxConn: int, k: nat)
    ensures var start := [Refresh(map[0 := Config(1, maxConn)])];
      && Exec(INITIAL, start) == State(map[0 := NodeState(1, maxConn, true, 0)], {0}, map[])
      && AlwaysWithin(INITIAL, start, k)
      && Free(Exec(INITIAL, start), 0, 0) && Within(Exec(INITIAL, start), k)
  {
    var a := Refresh(map[0 := Config(1, maxConn)]);
    assert Apply(INITIAL, a).nodes == map[0 := NodeState(1, maxConn, true, 0)];
    OneStep(INITIAL, a, k);
    forall p: nat ensures Among(map[], Pending, p) == {} { }
  }

  /** The bound cannot be improved: for every limit and every k some interleaving reaches it. */
  lemma BoundIsTight(maxConn: int, k: nat) returns (actions: seq<Action>)
    requires maxConn >= 1 && k >= 1
    ensures AlwaysWithin(INITIAL, actions, k)
    ensures 0 in Exec(INITIAL, actions).nodes
    ensures Exec(INITIAL, actions).nodes[0] == NodeState(1, maxConn, true, maxConn - 1 + k)
  {
    hide Exec, AlwaysWithin, Within, Free;
    var start := [Refresh(map[0 := Config(1, maxConn)])];
    Startup(maxConn, k);
    var more := Overfill(Exec(INITIAL, start), 0, 0, k);
    ExecAppend(INITIAL, start, more, k);
    actions := start + more;
  }
}
