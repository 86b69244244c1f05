/**
 What a refresh of the node list means for a backend: its limit is counted for every node
 object anew, and the leases on the old objects go on.
 */
module BackendRefresh {
  import opened Counting
  import opened BalancerProtocol

  predicate HoldsBackend(s: State, phase: Phase, id: int) {
    (phase.Calling? || phase.Reading?) && phase.node in s.nodes && s.nodes[phase.node].id == id
  }

  ghost function BackendHolders(s: State, id: int): set<nat> {
    set r | r in s.requests && HoldsBackend(s, s.requests[r].phase, id)
  }

  /** The requests a backend serves, over all its node objects. */
  ghost function BackendLeases(s: State, id: int): nat { |BackendHolders(s, id)| }

  /** No request holds, or has already found suitable, a node object of the backend other than `o`. */
  ghost predicate OthersUnused(s: State, id: int, o: nat) {
    forall r, p | r in s.requests && p in s.nodes && s.nodes[p].id == id && p != o ::
      !Counts(Leased, s.requests[r].phase, p) && !Counts(Pending, s.requests[r].phase, p)
  }

  ghost predicate Unused(s: State, id: int) {
    forall r, p | r in s.requests && p in s.nodes && s.nodes[p].id == id ::
      !Counts(Leased, s.requests[r].phase, p) && !Counts(Pending, s.requests[r].phase, p)
  }

  /** Object `o` is the only one of the backend that requests can still find, with limit `m`. */
  ghost predicate Only(s: State, id: int, o: nat, m: int) {
    && o in s.nodes && s.nodes[o].id == id && s.nodes[o].maxConn == m
    && (forall p | p in s.live && p in s.nodes && s.nodes[p].id == id :: p == o)
    && OthersUnused(s, id, o)
  }

  lemma StepOnly(s: State, a: Action, id: int, o: nat, m: int)
    requires Only(s, id, o, m) && !a.Refresh?
    ensures Only(Apply(s, a), id, o, m)
  {
  }

  lemma {:induction false} RunOnly(s: State, actions: seq<Action>, id: int, o: nat, m: int)
    requires Only(s, id, o, m) && NoRefresh(actions)
    ensures Only(Exec(s, actions), id, o, m)
    decreases |actions|
  {
    hide Apply, Only;
    if actions != [] {
      assert actions[0] in actions;
      StepOnly(s, actions[0], id, o, m);
      RunOnly(Apply(s, actions[0]), actions[1..], id, o, m);
    }
  }

  lemma OnlyLeases(s: State, id: int, o: nat, m: int)
    requires Only(s, id, o, m)
    ensures BackendLeases(s, id) == Count(s, Leased, o)
  {
    assert forall r | r in BackendHolders(s, id) :: Counts(Leased, s.requests[r].phase, s.requests[r].phase.node);
    assert BackendHolders(s, id) == Among(s.requests, Leased, o);
  }

  /** A request that holds an old object comes on top of all those that hold the new one. */
  lemma OldLeaseCounts(s: State, id: int, o: nat, q: nat, p: nat)
    requires o in s.nodes && s.nodes[o].id == id && p in s.nodes && s.nodes[p].id == id && p != o
    requires q in s.requests && Counts(Leased, s.requests[q].phase, p)
    ensures BackendLeases(s, id) > Count(s, Leased, o)
  {
    var new_ := Among(s.requests, Leased, o);
    assert q !in new_ && new_ + {q} <= BackendHolders(s, id);
    Subset(new_ + {q}, BackendHolders(s, id));
  }

  lemma LastState(s: State, actions: seq<Action>, k: nat)
    requires AlwaysWithin(s, actions, k)
    ensures Within(Exec(s, actions), k)
    decreases |actions|
  {
    hide Within, Apply;
    if actions != [] { LastState(Apply(s, actions[0]), actions[1..], k); }
  }

  /** The refresh brings one object `o` for backend `id`, with limit `m`. */
  ghost predicate Brings(s: State, configs: map<nat, Config>, id: int, o: nat, m: int) {
    && configs.Keys !! s.nodes.Keys && o in configs && configs[o] == Config(id, m)
    && forall p | p in configs && configs[p].id == id :: p == o
  }

  lemma Refreshed(s: State, configs: map<nat, Config>, id: int, o: nat, m: int, k: nat)
    requires Invariant(s) && Within(s, k) && Brings(s, configs, id, o, m)
    ensures var t := Apply(s, Refresh(configs));
      && Invariant(t) && Within(t, k) && t.requests == s.requests
      && (forall p | p in s.nodes :: p in t.nodes && t.nodes[p] == s.nodes[p])
      && o in t.nodes && t.nodes[o] == NodeState(id, m, true, 0) && o in t.live && o !in s.nodes
      && Count(t, Pending, o) == 0
      && (Unused(s, id) ==> Only(t, id, o, m))
  {
    var t := Apply(s, Refresh(configs));
    StepInvariant(s, Refresh(configs));
    NoneHoldNewNodes(s, o);
    forall p ensures Count(t, Pending, p) == Count(s, Pending, p) { SameRequests(s, t, p); }
  }

  /** After the refresh nothing was left of the old objects: the bound of one object is that of
      the backend. */
  lemma RefreshSafe(t: State, actions: seq<Action>, id: int, o: nat, m: int, k: nat)
    requires Invariant(t) && Capped(t, k) && Only(t, id, o, m) && m >= 1 && k >= 1
    requires NoRefresh(actions) && AlwaysWithin(t, actions, k)
    ensures BackendLeases(Exec(t, actions), id) <= m - 1 + k
  {
    hide Apply, Exec, AlwaysWithin;
    RunOnly(t, actions, id, o, m);
    RunInvariant(t, actions);
    RunCapped(t, actions, k);
    OnlyLeases(Exec(t, actions), id, o, m);
  }

  /** A request that has found an old object suitable takes it after all. */
  lemma OldOneTakes(t: State, q: nat, p: nat, o: nat, k: nat) returns (actions: seq<Action>)
    requires Invariant(t) && Within(t, k) && p in t.nodes && o in t.nodes && p != o
    requires q in t.requests && (Counts(Leased, t.requests[q].phase, p) || Counts(Pending, t.requests[q].phase, p))
    ensures var u := Exec(t, actions);
      && Leads(t, actions, u, k) && Within(u, k)
      && u.nodes.Keys == t.nodes.Keys && u.live == t.live && u.nodes[o] == t.nodes[o] && u.nodes[p].id == t.nodes[p].id
      && u.requests.Keys == t.requests.Keys && Counts(Leased, u.requests[q].phase, p)
      && Count(u, Pending, o) <= Count(t, Pending, o)
  {
    if Counts(Leased, t.requests[q].phase, p) {
      actions := [];
    } else {
      actions := [Take(q, p)];
      var u := Apply(t, Take(q, p));
      TakenState(t, q, p);
      forall n: nat ensures Count(u, Pending, n) <= Count(t, Pending, n) {
        Changed(t, q, u.requests[q], Pending, n);
        SameRequests(u, WithRequest(t, q, u.requests[q]), n);
      }
      forall n: nat ensures Count(u, Pending, n) <= k { assert Count(t, Pending, n) <= k; }
      OneStep(t, Take(q, p), k);
    }
  }

  lemma TakenState(t: State, q: nat, p: nat)
    requires p in t.nodes && q in t.requests && Counts(Pending, t.requests[q].phase, p)
    ensures Apply(t, Take(q, p)) ==
            State(t.nodes[p := t.nodes[p].(active := t.nodes[p].active + 1)], t.live,
                  t.requests[q := Request(Calling(p), t.requests[q].clamping)])
  {
  }

  /** An old object in use, or about to be: the backend can be driven beyond the bound. */
  lemma RefreshUnsafe(t: State, id: int, o: nat, m: int, q: nat, p: nat, k: nat) returns (actions: seq<Action>)
    requires Invariant(t) && Within(t, k) && k >= 1 && m >= 1
    requires o in t.nodes && t.nodes[o] == NodeState(id, m, true, 0) && o in t.live && Count(t, Pending, o) == 0
    requires p in t.nodes && t.nodes[p].id == id && p != o
    requires q in t.requests && (Counts(Leased, t.requests[q].phase, p) || Counts(Pending, t.requests[q].phase, p))
    ensures NoRefresh(actions) && AlwaysWithin(t, actions, k)
    ensures BackendLeases(Exec(t, actions), id) > m - 1 + k
  {
    hide Exec, AlwaysWithin, Within, Crowd, Count, Leads, Apply;
    var take := OldOneTakes(t, q, p, o, k);
    var u := Exec(t, take);
    var first := Beyond(u.requests.Keys);
    var more := Overfill(u, o, first, k);
    var v := Crowd(u, o, first, m - 1 + k, 0);
    LeadsOn(t, take, u, more, v, k);
    actions := take + more;
    LeadsTo(t, actions, v, k);
    RunInvariant(t, actions);
    CrowdKeeps(u, o, first, m - 1 + k, q, p);
    OldLeaseCounts(v, id, o, q, p);
  }

  lemma LeadsTo(s: State, actions: seq<Action>, t: State, k: nat)
    requires Leads(s, actions, t, k)
    ensures Exec(s, actions) == t && AlwaysWithin(s, actions, k) && NoRefresh(actions)
  {
  }

  lemma CrowdKeeps(s: State, o: nat, first: nat, held: nat, q: nat, p: nat)
    requires Free(s, o, first) && q in s.requests && p in s.nodes && p != o
    ensures var t := Crowd(s, o, first, held, 0);
      && q in t.requests && t.requests[q] == s.requests[q]
      && o in t.nodes && t.nodes[o] == s.nodes[o].(active := held) && p in t.nodes && t.nodes[p] == s.nodes[p]
  {
  }

  /** A refresh that replaces a backend's objects by one new object keeps the backend within the
      bound of that object, whatever follows up to the next refresh, exactly when no request
      holds, or has already found suitable, one of the old objects. */
  lemma RefreshSafeIffUnused(actions: seq<Action>, configs: map<nat, Config>, id: int, o: nat, m: int, k: nat)
    requires AlwaysWithin(INITIAL, actions, k) && k >= 1 && m >= 1
    requires Brings(Exec(INITIAL, actions), configs, id, o, m)
    ensures var s := Exec(INITIAL, actions);
      var t := Apply(s, Refresh(configs));
      (forall more | NoRefresh(more) && AlwaysWithin(t, more, k) :: BackendLeases(Exec(t, more), id) <= m - 1 + k)
      <==> Unused(s, id)
  {
    InitialInvariant();
    RunInvariant(INITIAL, actions);
    RunCapped(INITIAL, actions, k);
    LastState(INITIAL, actions, k);
    hide Exec, AlwaysWithin, Apply, Within;
    var s := Exec(INITIAL, actions);
    var t := Apply(s, Refresh(configs));
    Refreshed(s, configs, id, o, m, k);
    StepCapped(s, Refresh(configs), k);
    if Unused(s, id) {
      forall more | NoRefresh(more) && AlwaysWithin(t, more, k) ensures BackendLeases(Exec(t, more), id) <= m - 1 + k {
        RefreshSafe(t, more, id, o, m, k);
      }
    } else {
      var q, p :| q in s.requests && p in s.nodes && s.nodes[p].id == id
                  && (Counts(Leased, s.requests[q].phase, p) || Counts(Pending, s.requests[q].phase, p));
      var more := RefreshUnsafe(t, id, o, m, q, p, k);
    }
  }

  /** A refresh starts counting from zero: the leases on the old node objects stay, so a
      backend that admits one request serves two, although no two requests ever decide at the
      same time. */
  lemma RefreshForgetsLeases()
    ensures var actions := Admission(0) + Admission(1);
      var s := Exec(INITIAL, actions);
      && s.nodes == map[0 := NodeState(7, 1, true, 1), 1 := NodeState(7, 1, true, 1)]
      && Is(s, 0, Calling(0)) && Is(s, 1, Calling(1))
      && AlwaysWithin(INITIAL, actions, 1)
  {
    hide Admission, Exec, AlwaysWithin;
    Admit(INITIAL, 0);
    Admit(Exec(INITIAL, Admission(0)), 1);
    ExecAppend(INITIAL, Admission(0), Admission(1), 1);
  }

  /** A refresh to one new object `o` of the same backend, which admits one request at a time,
      and a request that takes it. */
  function Admission(o: nat): seq<Action> {
    [Refresh(map[o := Config(7, 1)]), Arrive(o), Inspect(o, o), Take(o, o)]
  }

  ghost predicate NobodyLooks(s: State) { forall r | r in s.requests :: !s.requests[r].phase.Looking? }

  lemma Admit(s: State, o: nat)
    requires o !in s.nodes && o !in s.requests && NobodyLooks(s)
    ensures var t := Exec(s, Admission(o));
      t.nodes == s.nodes[o := NodeState(7, 1, true, 1)] && t.requests == s.requests[o := Request(Calling(o), false)]
    ensures AlwaysWithin(s, Admission(o), 1)
  {
    var a, b, c, d := Refresh(map[o := Config(7, 1)]), Arrive(o), Inspect(o, o), Take(o, o);
    AdmitSteps(s, o);
    var s1 := Apply(s, a);
    var s2 := Apply(s1, b);
    var s3 := Apply(s2, c);
    hide Apply;
    var s4 := Apply(s3, d);
    FewLook(s, s.requests, o, Request(Failed, false));
    FewLook(s1, s.requests, o, Request(Failed, false));
    FewLook(s2, s.requests, o, Request(Looking({}), false));
    FewLook(s3, s.requests, o, Request(Looking({o}), false));
    FewLook(s4, s.requests, o, Request(Calling(o), false));
    hide Within;
    TwoSteps(s, a, b, 1);
    TwoSteps(s2, c, d, 1);
    ExecAppend(s, [a, b], [c, d], 1);
    assert Admission(o) == [a, b] + [c, d];
  }

  lemma AdmitSteps(s: State, o: nat)
    requires o !in s.nodes && o !in s.requests
    ensures var s1 := Apply(s, Refresh(map[o := Config(7, 1)]));
      var s2 := Apply(s1, Arrive(o));
      var s3 := Apply(s2, Inspect(o, o));
      var s4 := Apply(s3, Take(o, o));
      && s1.requests == s.requests
      && s2.requests == s.requests[o := Request(Looking({}), false)]
      && s3.requests == s.requests[o := Request(Looking({o}), false)]
      && s4.requests == s.requests[o := Request(Calling(o), false)]
      && s4.nodes == s.nodes[o := NodeState(7, 1, true, 1)]
  {
    var free := s.nodes[o := NodeState(7, 1, true, 0)];
    var s1 := Apply(s, Refresh(map[o := Config(7, 1)]));
    assert s1.nodes == free && s1.live == {o};
    var s2 := Apply(s1, Arrive(o));
    assert {} + {o} == {o};
    assert Apply(s2, Inspect(o, o)).requests == s.requests[o := Request(Looking({o}), false)];
    assert Apply(Apply(s2, Inspect(o, o)), Take(o, o)).requests == s.requests[o := Request(Calling(o), false)];
  }

  lemma FewLook(s: State, others: map<nat, Request>, r: nat, q: Request)
    requires forall o | o in others :: !others[o].phase.Looking?
    requires s.requests == others || s.requests == others[r := q]
    ensures Within(s, 1)
  {
    forall o: nat ensures Count(s, Pending, o) <= 1 {
      assert Among(others, Pending, o) == {};
      CountChange(others, r, q, Pending, o);
    }
  }
}
