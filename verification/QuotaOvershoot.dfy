/**
 How far a quota can be overshot: requests are checked against a rule long before their usage
 is recorded, and other requests pass the check in between. One rule is followed; the other
 rules of the user only turn requests away.
 */
module QuotaOvershoot {
  import opened Wrappers
  import opened Counting
  import opened TokenQuota

  datatype Phase = InFlight | Refused | Finished

  datatype State = State(keys: Option<Keys>, requests: map<nat, Phase>)

  const INITIAL := State(None, map[])

  /** `Leave` is a request that another rule refuses or that reports no usage. */
  datatype Action =
    | Pass(r: nat, at: int)
    | Report(r: nat, at: int, tokens: int)
    | Leave(r: nat)
    | Evict

  predicate Flies(s: State, r: nat) { r in s.requests && s.requests[r] == InFlight }

  /** One step; the two keys of the cycle change together. An action that is not possible
      changes nothing. */
  function Apply(rule: Rule, s: State, a: Action): State {
    match a
    case Pass(r, at) =>
      if r in s.requests then s
      else
        var (keys, exceeded) := Check(s.keys, rule, at);
        State(keys, s.requests[r := if exceeded then Refused else InFlight])
    case Report(r, at, tokens) =>
      if Flies(s, r) then State(Record(s.keys, rule, at, tokens), s.requests[r := Finished]) else s
    case Leave(r) => if Flies(s, r) then s.(requests := s.requests[r := Finished]) else s
    case Evict => s.(keys := None)
  }

  ghost function Exec(rule: Rule, s: State, actions: seq<Action>): State
    decreases |actions|
  {
    if actions == [] then s else Exec(rule, Apply(rule, s, actions[0]), actions[1..])
  }

  ghost function Flying(requests: map<nat, Phase>): set<nat> { set r | r in requests && requests[r] == InFlight }

  ghost function Count(s: State): nat { |Flying(s.requests)| }

  lemma CountChange(requests: map<nat, Phase>, r: nat, p: Phase)
    ensures |Flying(requests[r := p])| ==
            |Flying(requests)| - (if r in requests && requests[r] == InFlight then 1 else 0) +
                (if p == InFlight then 1 else 0)
  {
    SizeChange(Flying(requests), Flying(requests[r := p]), r);
  }

  /** No more than `k` requests between check and record, each with at most `t` tokens. */
  ghost predicate Allowed(rule: Rule, s: State, a: Action, k: nat, t: nat) {
    (a.Report? ==> 0 <= a.tokens <= t) && Count(Apply(rule, s, a)) <= k
  }

  ghost predicate Orderly(rule: Rule, s: State, actions: seq<Action>, k: nat, t: nat)
    decreases |actions|
  {
    actions != [] ==>
      Allowed(rule, s, actions[0], k, t) && Orderly(rule, Apply(rule, s, actions[0]), actions[1..], k, t)
  }

  function UsedNow(keys: Option<Keys>): int { if keys.Some? then keys.value.usage else 0 }

  /** What is used and what is under way stay below the bound together. */
  ghost predicate Bounded(rule: Rule, s: State, k: nat, t: nat) {
    UsedNow(s.keys) >= 0 && UsedNow(s.keys) + Count(s) * t <= rule.maxTokens - 1 + k * t
  }

  lemma Times(x: int, y: int, t: nat)
    requires x <= y
    ensures x * t <= y * t
  {
  }

  lemma OneFewer(x: int, t: nat)
    ensures (x - 1) * t == x * t - t
  {
  }

  lemma CheckedUsage(keys: Option<Keys>, rule: Rule, at: int)
    requires rule.maxTokens >= 1 && UsedNow(keys) >= 0
    ensures var (after, exceeded) := Check(keys, rule, at);
      0 <= UsedNow(after) <= UsedNow(keys) && (!exceeded ==> UsedNow(after) <= rule.maxTokens - 1)
  {
  }

  lemma RecordedUsage(keys: Option<Keys>, rule: Rule, at: int, tokens: int)
    requires UsedNow(keys) >= 0 && tokens >= 0
    ensures 0 <= UsedNow(Record(keys, rule, at, tokens)) <= UsedNow(keys) + tokens
  {
  }

  lemma StepBounded(rule: Rule, s: State, a: Action, k: nat, t: nat)
    requires rule.maxTokens >= 1 && Bounded(rule, s, k, t) && Allowed(rule, s, a, k, t)
    ensures Bounded(rule, Apply(rule, s, a), k, t)
  {
    hide Check, Record, Flying;
    var s' := Apply(rule, s, a);
    match a {
      case Pass(r, at) =>
        CheckedUsage(s.keys, rule, at);
        if r in s'.requests { CountChange(s.requests, r, s'.requests[r]); }
        Times(Count(s'), k, t);
      case Report(r, at, tokens) =>
        CountChange(s.requests, r, Finished);
        RecordedUsage(s.keys, rule, at, tokens);
        OneFewer(Count(s), t);
      case Leave(r) =>
        CountChange(s.requests, r, Finished);
        OneFewer(Count(s), t);
      case Evict =>
    }
  }

  lemma {:induction false} RunBounded(rule: Rule, s: State, actions: seq<Action>, k: nat, t: nat)
    requires rule.maxTokens >= 1 && Bounded(rule, s, k, t) && Orderly(rule, s, actions, k, t)
    ensures Bounded(rule, Exec(rule, s, actions), k, t)
    decreases |actions|
  {
    hide Apply, Bounded, Allowed;
    if actions != [] {
      StepBounded(rule, s, actions[0], k, t);
      RunBounded(rule, Apply(rule, s, actions[0]), actions[1..], k, t);
    }
  }

  /** In every interleaving, whatever the clock and across all cycles: with at most `k` requests
      under way that use at most `t` tokens each, the quota is overshot by less than k times t. */
  lemma OvershootBound(rule: Rule, actions: seq<Action>, k: nat, t: nat)
    requires rule.maxTokens >= 1 && Orderly(rule, INITIAL, actions, k, t)
    ensures 0 <= UsedNow(Exec(rule, INITIAL, actions).keys) <= rule.maxTokens - 1 + k * t
  {
    assert Flying(map[]) == {};
    Times(0, k, t);
    RunBounded(rule, INITIAL, actions, k, t);
    Times(0, Count(Exec(rule, INITIAL, actions)), t);
  }

  // ----- The bound is reached -----

  lemma {:induction false} ExecAppend(rule: Rule, s: State, xs: seq<Action>, ys: seq<Action>, k: nat, t: nat)
    ensures Exec(rule, s, xs + ys) == Exec(rule, Exec(rule, s, xs), ys)
    ensures Orderly(rule, s, xs, k, t) && Orderly(rule, Exec(rule, s, xs), ys, k, t) ==> Orderly(rule, s, xs + ys, k, t)
    decreases |xs|
  {
    hide Apply, Allowed;
    if xs == [] {
      assert xs + ys == ys;
    } else {
      ExecAppend(rule, Apply(rule, s, xs[0]), xs[1..], ys, k, t);
      assert (xs + ys)[1..] == xs[1..] + ys;
    }
  }

  lemma OneStep(rule: Rule, s: State, a: Action, k: nat, t: nat)
    ensures Exec(rule, s, [a]) == Apply(rule, s, a)
    ensures Allowed(rule, s, a, k, t) ==> Orderly(rule, s, [a], k, t)
  {
    hide Apply, Allowed;
    assert [a][1..] == [];
    assert Exec(rule, Apply(rule, s, a), []) == Apply(rule, s, a);
  }

  /** `done` requests have reported `used` tokens in all, `waiting` more passed the check. */
  ghost function Stage(done: nat, waiting: nat, used: int): State {
    State(if done == 0 then None else Some(Keys(0, used, 0)), Requests(done, done + waiting))
  }

  ghost function Requests(done: nat, all: nat): map<nat, Phase> {
    map r: nat | r < all && Numbered(r, all) :: if r < done then Finished else InFlight
  }

  /** The requests are numbered from zero. */
  predicate Numbered(r: nat, n: nat) { r < n }

  lemma {:induction false} StageCount(done: nat, waiting: nat, used: int)
    ensures Count(Stage(done, waiting, used)) == waiting
    decreases waiting
  {
    if waiting == 0 {
      assert Flying(Requests(done, done)) == {};
    } else {
      var r := done + waiting - 1;
      StageCount(done, waiting - 1, used);
      CountChange(Requests(done, r), r, InFlight);
      assert Requests(done, r)[r := InFlight] == Requests(done, done + waiting);
    }
  }

  /** While the quota lasts, one more request may pass. */
  lemma OnePasses(rule: Rule, done: nat, waiting: nat, used: int, k: nat, t: nat)
    requires used < rule.maxTokens && waiting < k
    ensures Exec(rule, Stage(done, waiting, used), [Pass(done + waiting, 0)]) == Stage(done, waiting + 1, used)
    ensures Orderly(rule, Stage(done, waiting, used), [Pass(done + waiting, 0)], k, t)
  {
    var s, a := Stage(done, waiting, used), Pass(done + waiting, 0);
    assert PeriodEnd(rule, 0) > 0;
    assert Apply(rule, s, a).requests == Requests(done, done + waiting + 1);
    assert Apply(rule, s, a) == Stage(done, waiting + 1, used);
    StageCount(done, waiting + 1, used);
    OneStep(rule, s, a, k, t);
  }

  /** A request that passed may report, however much was used in the meantime. */
  lemma OneReports(rule: Rule, done: nat, waiting: nat, used: int, tokens: int, k: nat, t: nat)
    requires 0 < waiting <= k && 0 <= tokens <= t && (done == 0 ==> used == 0)
    ensures Exec(rule, Stage(done, waiting, used), [Report(done, 0, tokens)]) ==
        Stage(done + 1, waiting - 1, used + tokens)
    ensures Orderly(rule, Stage(done, waiting, used), [Report(done, 0, tokens)], k, t)
  {
    var s, a := Stage(done, waiting, used), Report(done, 0, tokens);
    assert PeriodEnd(rule, 0) > 0 && 0 / SECOND == 0;
    assert Apply(rule, s, a).requests == Requests(done + 1, done + waiting);
    assert Apply(rule, s, a) == Stage(done + 1, waiting - 1, used + tokens);
    StageCount(done + 1, waiting - 1, used + tokens);
    OneStep(rule, s, a, k, t);
  }

  lemma {:induction false} UseUp(rule: Rule, used: nat, k: nat, t: nat) returns (actions: seq<Action>)
    requires used < rule.maxTokens && k >= 1 && t >= 1
    ensures Exec(rule, Stage(0, 0, 0), actions) == Stage(used, 0, used) && Orderly(rule, Stage(0, 0, 0), actions, k, t)
    decreases used
  {
    hide Apply, Allowed, Stage;
    if used == 0 {
      actions := [];
    } else {
      actions := UseUp(rule, used - 1, k, t);
      var r := used - 1;
      OnePasses(rule, r, 0, r, k, t);
      OneReports(rule, r, 1, r, 1, k, t);
      ExecAppend(rule, Stage(0, 0, 0), actions, [Pass(r, 0)], k, t);
      ExecAppend(rule, Stage(0, 0, 0), actions + [Pass(r, 0)], [Report(r, 0, 1)], k, t);
      actions := actions + [Pass(r, 0)] + [Report(r, 0, 1)];
    }
  }

  lemma {:induction false} Gather(rule: Rule, done: nat, used: int, waiting: nat, k: nat, t: nat)
      returns (actions: seq<Action>)
    requires used < rule.maxTokens && waiting <= k
    ensures Exec(rule, Stage(done, 0, used), actions) == Stage(done, waiting, used)
    ensures Orderly(rule, Stage(done, 0, used), actions, k, t)
    decreases waiting
  {
    hide Apply, Allowed, Stage;
    if waiting == 0 {
      actions := [];
    } else {
      actions := Gather(rule, done, used, waiting - 1, k, t);
      OnePasses(rule, done, waiting - 1, used, k, t);
      ExecAppend(rule, Stage(done, 0, used), actions, [Pass(done + waiting - 1, 0)], k, t);
      actions := actions + [Pass(done + waiting - 1, 0)];
    }
  }

  lemma {:induction false} ReportAll(rule: Rule, done: nat, waiting: nat, used: int, k: nat, t: nat)
      returns (actions: seq<Action>)
    requires waiting <= k && (done == 0 ==> used == 0)
    ensures Exec(rule, Stage(done, waiting, used), actions) == Stage(done + waiting, 0, used + waiting * t)
    ensures Orderly(rule, Stage(done, waiting, used), actions, k, t)
    decreases waiting
  {
    hide Apply, Allowed, Stage;
    if waiting == 0 {
      actions := [];
    } else {
      OneReports(rule, done, waiting, used, t, k, t);
      var rest := ReportAll(rule, done + 1, waiting - 1, used + t, k, t);
      ExecAppend(rule, Stage(done, waiting, used), [Report(done, 0, t)], rest, k, t);
      OneFewer(waiting, t);
      actions := [Report(done, 0, t)] + rest;
    }
  }

  lemma NothingYet()
    ensures INITIAL == Stage(0, 0, 0)
  {
    assert Requests(0, 0) == map[];
  }

  /** The bound cannot be improved: for all values some run reaches it. */
  lemma OvershootIsTight(rule: Rule, k: nat, t: nat) returns (actions: seq<Action>)
    requires rule.maxTokens >= 1 && k >= 1 && t >= 1
    ensures Orderly(rule, INITIAL, actions, k, t)
    ensures UsedNow(Exec(rule, INITIAL, actions).keys) == rule.maxTokens - 1 + k * t
  {
    hide Exec, Orderly;
    var used := rule.maxTokens - 1;
    NothingYet();
    var fill := UseUp(rule, used, k, t);
    var gather := Gather(rule, used, used, k, k, t);
    var report := ReportAll(rule, used, k, used, k, t);
    ExecAppend(rule, INITIAL, fill, gather, k, t);
    ExecAppend(rule, INITIAL, fill + gather, report, k, t);
    actions := fill + gather + report;
  }
}
