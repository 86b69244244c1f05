/**
 Token quotas over elastic cycles. A cycle is stored as a start time and a usage counter that
 appear with the first record, are thrown away by the first check after the cycle's end, and
 may be evicted by the store an hour later. Against it stands the simple meaning of a quota:
 the sum of the tokens recorded since the current window opened.

 Times are nanoseconds; the stored start time is in whole seconds.
 */
module TokenQuota {
  import opened Wrappers

  const SECOND := 1_000_000_000
  const HOUR := 3600 * SECOND

  datatype Rule = Rule(id: int, period: string, periodHours: int, maxTokens: int)

  /** The configured hours, or those of the label. */
  function EffectiveHours(rule: Rule): (h: int)
    ensures h > 0
  {
    if rule.periodHours > 0 then rule.periodHours
    else match rule.period
      case "weekly" => 168
      case "monthly" => 720
      case _ => 24
  }

  /** How long a window of the rule lasts, in nanoseconds: the configured hours of 3600 seconds,
      or a week, thirty days or a day by its label. */
  ghost predicate Lasts(rule: Rule, length: int) {
    && (rule.periodHours > 0 ==> length == rule.periodHours * 3600 * 1_000_000_000)
    && (rule.periodHours <= 0 && rule.period == "weekly" ==> length == 7 * 24 * 3600 * 1_000_000_000)
    && (rule.periodHours <= 0 && rule.period == "monthly" ==> length == 30 * 24 * 3600 * 1_000_000_000)
    && (rule.periodHours <= 0 && rule.period != "weekly" && rule.period != "monthly" ==>
          length == 24 * 3600 * 1_000_000_000)
  }

  lemma LastsHours(rule: Rule, length: int)
    ensures Lasts(rule, length) <==> length == EffectiveHours(rule) * HOUR
  {
  }

  /** The two keys of a rule's cycle; `written` is when the store last set them to expire. */
  datatype Keys = Keys(start: int, usage: int, written: int)

  function PeriodEnd(rule: Rule, start: int): int { start * SECOND + EffectiveHours(rule) * HOUR }

  function Check(keys: Option<Keys>, rule: Rule, now: int): (Option<Keys>, bool) {
    if keys.None? then (None, false)
    else if now > PeriodEnd(rule, keys.value.start) then (None, false)
    else (keys, keys.value.usage >= rule.maxTokens)
  }

  function Record(keys: Option<Keys>, rule: Rule, now: int, tokens: int): Option<Keys> {
    if keys.None? || now > PeriodEnd(rule, keys.value.start) then Some(Keys(now / SECOND, tokens, now))
    else Some(keys.value.(usage := keys.value.usage + tokens))
  }

  /** The store drops keys one hour after the period, counted from when they were set. */
  predicate MayEvict(keys: Option<Keys>, rule: Rule, now: int) {
    keys.Some? && now >= keys.value.written + EffectiveHours(rule) * HOUR + HOUR
  }

  // ----- The simple meaning -----

  datatype Entry = Entry(at: int, tokens: int)

  /** The record that opened the current window: the first one, or the first after the end of
      the window before. */
  function Opener(rule: Rule, h: seq<Entry>): (k: nat)
    requires h != []
    ensures k < |h|
  {
    var n := |h| - 1;
    if n == 0 then 0
    else
      var k := Opener(rule, h[..n]);
      if h[n].at > PeriodEnd(rule, h[k].at / SECOND) then n else k
  }

  function Sum(h: seq<Entry>): int {
    if h == [] then 0 else Sum(h[..|h| - 1]) + h[|h| - 1].tokens
  }

  function WindowEnd(rule: Rule, h: seq<Entry>): int
    requires h != []
  {
    PeriodEnd(rule, h[Opener(rule, h)].at / SECOND)
  }

  /** The tokens recorded since the current window opened, nothing once it is over. */
  function Used(rule: Rule, h: seq<Entry>, now: int): int {
    if h == [] || now > WindowEnd(rule, h) then 0 else Sum(h[Opener(rule, h)..])
  }

  /** The second a time falls into. */
  function StartSecond(at: int): int { at / 1_000_000_000 * 1_000_000_000 }

  lemma PeriodEnds(rule: Rule, at: int, length: int)
    requires Lasts(rule, length)
    ensures PeriodEnd(rule, at / SECOND) == StartSecond(at) + length
  {
    LastsHours(rule, length);
  }

  /** What the opener is: every later record falls into its window, which lasts as long as the
      rule says from the second of the opener on, and it falls outside the window that was open
      before it. */
  lemma {:induction false} OpenerMeaning(rule: Rule, h: seq<Entry>, length: int)
    requires h != [] && Lasts(rule, length)
    ensures var k := Opener(rule, h);
      && WindowEnd(rule, h) == StartSecond(h[k].at) + length
      && (forall j | k < j < |h| :: h[j].at <= StartSecond(h[k].at) + length)
      && (k > 0 ==> h[k].at > StartSecond(h[Opener(rule, h[..k])].at) + length)
    decreases |h|
  {
    hide PeriodEnd, StartSecond, Lasts;
    var n := |h| - 1;
    PeriodEnds(rule, h[Opener(rule, h)].at, length);
    if n > 0 {
      OpenerMeaning(rule, h[..n], length);
      var k := Opener(rule, h[..n]);
      PeriodEnds(rule, h[k].at, length);
      if Opener(rule, h) == k {
        assert h[..n][..k] == h[..k];
      } else {
        assert h[..n][k] == h[k];
      }
    }
  }

  // ----- Refinement -----

  datatype Op = Recorded(at: int, tokens: int) | Checked(at: int) | Evicted(at: int)

  /** The keys after a history of operations. An eviction that is not due does not happen. */
  function Stored(rule: Rule, ops: seq<Op>): Option<Keys> {
    if ops == [] then None
    else
      var before := Stored(rule, ops[..|ops| - 1]);
      match ops[|ops| - 1]
      case Recorded(at, tokens) => Record(before, rule, at, tokens)
      case Checked(at) => Check(before, rule, at).0
      case Evicted(at) => if MayEvict(before, rule, at) then None else before
  }

  function Records(ops: seq<Op>): seq<Entry> {
    if ops == [] then []
    else
      var last := ops[|ops| - 1];
      Records(ops[..|ops| - 1]) + (if last.Recorded? then [Entry(last.at, last.tokens)] else [])
  }

  /** The clock does not run backwards, and has not passed `now`. */
  ghost predicate Ordered(ops: seq<Op>, now: int) {
    && (forall i | 0 <= i < |ops| :: 0 <= ops[i].at <= now)
    && forall i, j | 0 <= i < j < |ops| :: ops[i].at <= ops[j].at
  }

  /** The keys, if they are there, hold the current window; if they are not, it is over. */
  ghost predicate Holds(keys: Option<Keys>, rule: Rule, h: seq<Entry>, now: int) {
    if keys.None? then h == [] || now > WindowEnd(rule, h)
    else
      && h != []
      && keys.value.start == h[Opener(rule, h)].at / SECOND
      && keys.value.usage == Sum(h[Opener(rule, h)..])
      && keys.value.written == h[Opener(rule, h)].at
  }

  lemma OneMoreRecord(keys: Option<Keys>, rule: Rule, h: seq<Entry>, at: int, tokens: int)
    requires Holds(keys, rule, h, at)
    ensures Holds(Record(keys, rule, at, tokens), rule, h + [Entry(at, tokens)], at)
  {
    hide PeriodEnd;
    var h' := h + [Entry(at, tokens)];
    assert h'[..|h|] == h;
    if h == [] || at > WindowEnd(rule, h) {
      assert Opener(rule, h') == |h|;
      assert h'[|h|..] == [Entry(at, tokens)];
      assert [Entry(at, tokens)][..0] == [] && Sum([Entry(at, tokens)]) == tokens;
    } else {
      var k := Opener(rule, h);
      assert Opener(rule, h') == k;
      assert h'[k..][..|h| - k] == h[k..];
    }
  }

  /** An eviction that is due comes after the end of the window. */
  lemma EvictedIsOver(rule: Rule, start: int, written: int, now: int)
    requires start == written / SECOND && now >= written + EffectiveHours(rule) * HOUR + HOUR
    ensures now > PeriodEnd(rule, start)
  {
  }

  lemma Later(keys: Option<Keys>, rule: Rule, h: seq<Entry>, now: int, later: int)
    requires Holds(keys, rule, h, now) && now <= later
    ensures Holds(keys, rule, h, later)
  {
    hide PeriodEnd;
  }

  lemma {:induction false} Refines(rule: Rule, ops: seq<Op>, now: int)
    requires Ordered(ops, now)
    ensures Holds(Stored(rule, ops), rule, Records(ops), now)
    decreases |ops|
  {
    hide Record, Opener, Sum, PeriodEnd;
    if ops != [] {
      var n := |ops| - 1;
      var at := ops[n].at;
      var h := Records(ops[..n]);
      var before := Stored(rule, ops[..n]);
      Refines(rule, ops[..n], at);
      assert h + [] == h;
      match ops[n] {
        case Recorded(_, tokens) =>
          OneMoreRecord(before, rule, h, at, tokens);
          Later(Record(before, rule, at, tokens), rule, Records(ops), at, now);
        case Checked(_) => Later(Check(before, rule, at).0, rule, h, at, now);
        case Evicted(_) =>
          if MayEvict(before, rule, at) { EvictedIsOver(rule, before.value.start, before.value.written, at); }
          Later(if MayEvict(before, rule, at) then None else before, rule, h, at, now);
      }
    }
  }

  /** After any history the verdict of a check is that of the simple meaning. */
  lemma CheckMeansUsed(rule: Rule, ops: seq<Op>, now: int)
    requires Ordered(ops, now) && rule.maxTokens >= 1
    ensures Check(Stored(rule, ops), rule, now).1 <==> Used(rule, Records(ops), now) >= rule.maxTokens
  {
    hide Opener, Sum, PeriodEnd, Stored, Records;
    Refines(rule, ops, now);
  }

  /** After any history, a check says exceeded exactly when the window of the opening record,
      which is as long as the rule says, is not over and the tokens recorded in it reach the
      limit. */
  lemma ExceededUntil(rule: Rule, ops: seq<Op>, now: int, length: int)
    requires Ordered(ops, now) && rule.maxTokens >= 1 && Lasts(rule, length) && Records(ops) != []
    ensures var h := Records(ops);
      var k := Opener(rule, h);
      Check(Stored(rule, ops), rule, now).1 <==>
        now <= StartSecond(h[k].at) + length && Sum(h[k..]) >= rule.maxTokens
  {
    hide Opener, Sum, PeriodEnd, Stored, Records, Check, StartSecond, Lasts;
    CheckMeansUsed(rule, ops, now);
    OpenerMeaning(rule, Records(ops), length);
  }

  /** A single record that reaches the limit: the rule refuses up to the end of the window that
      starts with the second of the record, and no longer. */
  lemma RefusedUntil(rule: Rule, at: int, tokens: int, now: int, length: int)
    requires 0 <= at <= now && tokens >= rule.maxTokens >= 1 && Lasts(rule, length)
    ensures Check(Stored(rule, [Recorded(at, tokens)]), rule, now).1 <==> now <= StartSecond(at) + length
  {
    hide Check, Stored, Records, StartSecond, Lasts, Sum;
    OneRecord(at, tokens);
    ExceededUntil(rule, [Recorded(at, tokens)], now, length);
  }

  lemma OneRecord(at: int, tokens: int)
    ensures Records([Recorded(at, tokens)]) == [Entry(at, tokens)] && Sum([Entry(at, tokens)][0..]) == tokens
  {
    assert [Recorded(at, tokens)][..0] == [] && [Entry(at, tokens)][..0] == [];
    assert [Entry(at, tokens)][0..] == [Entry(at, tokens)];
  }

  /** Neither checks, which delete keys, nor evictions can be noticed: only the records count. */
  lemma OnlyRecordsCount(rule: Rule, ops: seq<Op>, others: seq<Op>, now: int)
    requires Ordered(ops, now) && Ordered(others, now) && rule.maxTokens >= 1
    requires Records(ops) == Records(others)
    ensures Check(Stored(rule, ops), rule, now).1 == Check(Stored(rule, others), rule, now).1
  {
    hide Check, Stored, Records, Used;
    CheckMeansUsed(rule, ops, now);
    CheckMeansUsed(rule, others, now);
  }

  // ----- What the user is shown -----

  datatype Progress = Progress(used: int, remaining: int, percent: int, exceeded: bool)

  function ShownUsage(keys: Option<Keys>, rule: Rule, now: int): int {
    if keys.Some? && now < PeriodEnd(rule, keys.value.start) then keys.value.usage else 0
  }

  function ShownExceeded(keys: Option<Keys>, rule: Rule, now: int): bool {
    ShownUsage(keys, rule, now) >= rule.maxTokens
  }

  /** The display and the check agree except at the very instant the period ends: there the
      cycle is over for the display and still counts for the check. */
  lemma DisplayAgreesIff(keys: Option<Keys>, rule: Rule, now: int)
    requires rule.maxTokens >= 1
    ensures ShownExceeded(keys, rule, now) != Check(keys, rule, now).1 <==>
            keys.Some? && now == PeriodEnd(rule, keys.value.start) && keys.value.usage >= rule.maxTokens
    ensures ShownExceeded(keys, rule, now) ==> Check(keys, rule, now).1
  {
  }

  /** A limit of 100 tokens a day, used up at time zero: at the very end of the day the display
      shows an empty cycle, and the check still refuses. */
  lemma DisplayDisagreesExample()
    ensures var rule := Rule(1, "daily", 24, 100);
      var keys := Stored(rule, [Recorded(0, 100)]);
      && Check(keys, rule, 24 * HOUR).1 && !ShownExceeded(keys, rule, 24 * HOUR)
      && ShownUsage(keys, rule, 24 * HOUR) == 0
  {
    var rule := Rule(1, "daily", 24, 100);
    assert [Recorded(0, 100)][..0] == [];
    assert Stored(rule, [Recorded(0, 100)]) == Some(Keys(0, 100, 0));
  }

  // ----- The service -----

  ghost predicate UniqueIds(rules: seq<Rule>) {
    forall i, j | 0 <= i < j < |rules| :: rules[i].id != rules[j].id
  }

  /** The cycle keys of one user, by rule. A request sees one instant. */
  class CycleStore {
    var cycles: map<int, Keys>

    constructor ()
      ensures cycles == map[]
    {
      cycles := map[];
    }

    function Lookup(id: int): Option<Keys>
      reads this
    {
      if id in cycles then Some(cycles[id]) else None
    }

    method IsRuleExceeded(rule: Rule, now: int) returns (exceeded: bool)
      modifies this
      ensures (Lookup(rule.id), exceeded) == Check(old(Lookup(rule.id)), rule, now)
      ensures forall id | id != rule.id :: Lookup(id) == old(Lookup(id))
    {
      if rule.id !in cycles { return false; }
      var start := cycles[rule.id].start;
      if now > start * SECOND + EffectiveHours(rule) * HOUR {
        cycles := cycles - {rule.id};
        return false;
      }
      return cycles[rule.id].usage >= rule.maxTokens;
    }

    /** Sufficient exactly when no rule with a limit is exceeded. Every cycle is either left
        alone or treated as a check treats it. */
    method CheckAllQuotas(limits: seq<Rule>, now: int) returns (ok: bool)
      requires UniqueIds(limits)
      modifies this
      ensures ok <==> forall rule | rule in limits && rule.maxTokens > 0 :: !Check(old(Lookup(rule.id)), rule, now).1
      ensures forall rule | rule in limits ::
                Lookup(rule.id) == old(Lookup(rule.id)) || Lookup(rule.id) == Check(old(Lookup(rule.id)), rule, now).0
      ensures forall id | (forall rule | rule in limits :: rule.id != id) :: Lookup(id) == old(Lookup(id))
    {
      hide Check;
      for i := 0 to |limits|
        invariant forall j | 0 <= j < i && limits[j].maxTokens > 0 ::
            !Check(old(Lookup(limits[j].id)), limits[j], now).1
        invariant forall j | 0 <= j < i ::
                    Lookup(limits[j].id) == old(Lookup(limits[j].id)) ||
                    Lookup(limits[j].id) == Check(old(Lookup(limits[j].id)), limits[j], now).0
        invariant forall id | (forall j | 0 <= j < i :: limits[j].id != id) :: Lookup(id) == old(Lookup(id))
      {
        if limits[i].maxTokens <= 0 { continue; }
        var exceeded := IsRuleExceeded(limits[i], now);
        if exceeded {
          assert limits[i] in limits;
          return false;
        }
      }
      return true;
    }

    method RecordRuleUsage(rule: Rule, now: int, tokens: int)
      modifies this
      ensures Lookup(rule.id) == Record(old(Lookup(rule.id)), rule, now, tokens)
      ensures forall id | id != rule.id :: Lookup(id) == old(Lookup(id))
    {
      if rule.id !in cycles {
        cycles := cycles[rule.id := Keys(now / SECOND, tokens, now)];
        return;
      }
      var start := cycles[rule.id].start;
      if now > start * SECOND + EffectiveHours(rule) * HOUR {
        cycles := cycles[rule.id := Keys(now / SECOND, tokens, now)];
        return;
      }
      cycles := cycles[rule.id := cycles[rule.id].(usage := cycles[rule.id].usage + tokens)];
    }

    method RecordCycleUsage(limits: seq<Rule>, now: int, tokens: int)
      requires UniqueIds(limits)
      modifies this
      ensures forall rule | rule in limits ::
                Lookup(rule.id) ==
                if rule.maxTokens > 0 then Record(old(Lookup(rule.id)), rule, now, tokens) else old(Lookup(rule.id))
      ensures forall id | (forall rule | rule in limits :: rule.id != id) :: Lookup(id) == old(Lookup(id))
    {
      hide Record;
      for i := 0 to |limits|
        invariant forall j | 0 <= j < i ::
                    Lookup(limits[j].id) ==
                    if limits[j].maxTokens > 0 then Record(old(Lookup(limits[j].id)), limits[j], now, tokens)
                    else old(Lookup(limits[j].id))
        invariant forall id | (forall j | 0 <= j < i :: limits[j].id != id) :: Lookup(id) == old(Lookup(id))
      {
        if limits[i].maxTokens <= 0 { continue; }
        RecordRuleUsage(limits[i], now, tokens);
      }
    }

    /** The progress of the rules; a rule without a limit shows nothing and never counts. */
    method GetLimitProgress(limits: seq<Rule>, now: int) returns (items: seq<Progress>, anyExceeded: bool)
      ensures |items| == |limits|
      ensures anyExceeded <==> exists i | 0 <= i < |limits| :: limits[i].maxTokens > 0 && items[i].exceeded
      ensures forall i | 0 <= i < |limits| && limits[i].maxTokens > 0 ::
                && items[i].used == ShownUsage(Lookup(limits[i].id), limits[i], now)
                && items[i].exceeded == ShownExceeded(Lookup(limits[i].id), limits[i], now)
                && Shows(items[i], limits[i].maxTokens)
    {
      items, anyExceeded := [], false;
      for i := 0 to |limits|
        invariant |items| == i
        invariant anyExceeded <==> exists j | 0 <= j < i :: limits[j].maxTokens > 0 && items[j].exceeded
        invariant forall j | 0 <= j < i && limits[j].maxTokens > 0 ::
                    && items[j].used == ShownUsage(Lookup(limits[j].id), limits[j], now)
                    && items[j].exceeded == ShownExceeded(Lookup(limits[j].id), limits[j], now)
                    && Shows(items[j], limits[j].maxTokens)
      {
        var item := ItemOf(limits[i], now);
        items := items + [item];
        if limits[i].maxTokens > 0 && item.exceeded { anyExceeded := true; }
      }
    }

    method ItemOf(limit: Rule, now: int) returns (item: Progress)
      ensures limit.maxTokens > 0 ==>
                && item.used == ShownUsage(Lookup(limit.id), limit, now)
                && item.exceeded == ShownExceeded(Lookup(limit.id), limit, now)
                && Shows(item, limit.maxTokens)
    {
      if limit.maxTokens <= 0 { return Progress(0, 0, 0, false); }
      var used := 0;
      if limit.id in cycles {
        var periodEnd := cycles[limit.id].start * SECOND + EffectiveHours(limit) * HOUR;
        if now < periodEnd { used := cycles[limit.id].usage; }
      }
      var remaining := limit.maxTokens - used;
      if remaining < 0 { remaining := 0; }
      var percent := Quotient(used * 100, limit.maxTokens);
      Percent(used, limit.maxTokens);
      if percent > 100 { percent := 100; }
      return Progress(used, remaining, percent, used >= limit.maxTokens);
    }
  }

  /** The numbers of a shown item agree: what is used and what remains are the limit while it is
      not exceeded, and the percentage is the used part in whole per cent, at most 100. */
  predicate Shows(item: Progress, max: int) {
    && (item.exceeded <==> item.used >= max)
    && item.remaining == (if item.exceeded then 0 else max - item.used)
    && (item.exceeded <==> item.percent == 100) && item.percent <= 100
    && (0 <= item.used < max ==> item.percent * max <= item.used * 100 < (item.percent + 1) * max)
    && (item.used < 0 ==> (item.percent - 1) * max < item.used * 100 <= item.percent * max)
  }

  /** Division that rounds towards zero; a negative token count makes a negative usage. */
  function Quotient(a: int, b: int): int
    requires b > 0
  {
    if a >= 0 then a / b else -(-a / b)
  }

  lemma Percent(used: int, max: int)
    requires max > 0
    ensures var q := Quotient(used * 100, max);
      && (q >= 100 <==> used >= max)
      && (0 <= used ==> q * max <= used * 100 < (q + 1) * max)
      && (used < 0 ==> (q - 1) * max < used * 100 <= q * max)
  {
    if used < 0 {
      var p := -(used * 100) / max;
      assert p * max <= -(used * 100) < (p + 1) * max;
      assert -p * max == -(p * max) && (-p - 1) * max == -((p + 1) * max);
      return;
    }
    var q := used * 100 / max;
    assert q * max <= used * 100 < (q + 1) * max;
    if q < 100 { TimesOrder(q + 1, 100, max); } else { TimesOrder(100, q, max); }
  }

  lemma TimesOrder(x: int, y: int, m: int)
    requires x <= y && m > 0
    ensures x * m <= y * m
  {
  }
}
