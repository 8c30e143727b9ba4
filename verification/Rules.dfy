// The rule engine's guardrails over whole histories of evaluations: the daily
// action cap in every 24-hour window, the per-run cap, and the growth of a
// budget that the two together allow. Evaluations of one rule are serial.
module Rules {
  import opened Prelude

  const DAY := 24 * 60 * 60 * 1000

  datatype ActionType = Alert | Pause | Scale

  datatype Rule = Rule(
    action: ActionType,
    accountScope: bool,
    autoExecute: bool,
    scalePct: int,
    maxScalePct: int,
    maxActionsPerRun: int,
    dailyActionCap: int)

  // How one attempt went: the Meta call, then the saving of its audit row.
  datatype Outcome =
    | CallFails                // recorded as a failure
    | Done                     // applied and recorded
    | AppliedRowLost           // applied, success row not saved, recorded as a failure
    | AppliedRunAborts         // applied, neither row saved: the run stops
    | FailsRunAborts           // not applied, failure row not saved: the run stops

  datatype Attempt = Attempt(at: int, outcome: Outcome)

  // One attempt as it happened. `row` is the success flag of the saved audit
  // row; an alert row is saved with its own action name.
  datatype Entry = Entry(at: int, entity: Option<string>, mutation: bool, applied: bool, budget: Option<int>,
                         row: Option<bool>)

  datatype World = World(clock: int, log: seq<Entry>, budgets: map<string, int>)

  // ---- one scale -----------------------------------------------------------------

  function Abs(x: int): int {
    if x >= 0 then x else -x
  }

  function ClampPct(pct: int, max: int): int {
    Max(Min(pct, Abs(max)), -Abs(max))
  }

  // Math.round(current * (1 + pct / 100)), halves up, and at least one.
  function NextBudget(rule: Rule, current: int): int {
    Max((2 * current * (100 + ClampPct(rule.scalePct, rule.maxScalePct)) + 100) / 200, 1)
  }

  // One scale leaves a budget of at least one and at most f * current + 1, for
  // f = 1 + |maxScalePct| / 100.
  lemma OneScaleIsBounded(rule: Rule, current: nat)
    ensures 1 <= NextBudget(rule, current)
    ensures 100 * NextBudget(rule, current) <= (100 + Abs(rule.maxScalePct)) * current + 100
  {
    var pct, b := ClampPct(rule.scalePct, rule.maxScalePct), Abs(rule.maxScalePct);
    MulMonotone(current, pct, b);
    var change, x := current * pct, 2 * current * (100 + pct) + 100;
    Expand(current, pct);
    Expand(current, b);
    assert x == 200 * current + 2 * change + 100;
    FloorBelow(x);
  }

  // next is current scaled by the rule's percent: scalePct, cut to maxScalePct on
  // either side; rounded halves up; and at least one.
  predicate Scales(rule: Rule, current: int, next: int) {
    var bound := if rule.maxScalePct < 0 then -rule.maxScalePct else rule.maxScalePct;
    var pct := if -bound <= rule.scalePct <= bound then rule.scalePct else if rule.scalePct < 0 then -bound else bound;
    var wanted := 2 * current * (100 + pct) + 100;
    && next >= 1
    && (next == 1 ==> wanted < 400)
    && (next > 1 ==> 200 * next <= wanted < 200 * next + 200)
  }

  // No other budget is the scaled one.
  lemma ScalesOnce(rule: Rule, current: int, a: int, b: int)
    requires Scales(rule, current, a) && Scales(rule, current, b)
    ensures a == b
  {
  }

  // A rule that scales up never lowers a budget of at least one, and one that
  // scales down never raises it.
  predicate ScalesItsWay(rule: Rule, current: int, next: int) {
    && (rule.scalePct >= 0 && current >= 1 ==> next >= current)
    && (rule.scalePct <= 0 && current >= 1 ==> next <= current)
  }

  lemma OneScaleComputes(rule: Rule, current: int)
    ensures Scales(rule, current, NextBudget(rule, current))
    ensures ScalesItsWay(rule, current, NextBudget(rule, current))
  {
    var pct := ClampPct(rule.scalePct, rule.maxScalePct);
    var wanted := 2 * current * (100 + pct) + 100;
    assert 200 * (wanted / 200) <= wanted < 200 * (wanted / 200) + 200;
    if current >= 1 {
      Expand(current, pct);
      if pct >= 0 {
        MulMonotone(current, 0, pct);
      }
      if pct <= 0 {
        MulMonotone(current, pct, 0);
      }
    }
  }

  lemma MulMonotone(current: nat, pct: int, b: int)
    requires pct <= b
    ensures current * pct <= current * b
  {
    assert current * (b - pct) >= 0;
  }

  lemma Expand(current: nat, pct: int)
    ensures (100 + pct) * current == 100 * current + current * pct
    ensures 2 * current * (100 + pct) == 200 * current + 2 * (current * pct)
  {
  }

  lemma FloorBelow(x: int)
    ensures 200 * (x / 200) <= x
  {
  }

  // ---- one evaluation --------------------------------------------------------------

  predicate Counted(e: Entry, since: int) {
    e.mutation && e.row == Some(true) && e.at > since
  }

  function UsedSince(log: seq<Entry>, since: int): nat {
    |Filter(log, (e: Entry) => Counted(e, since))|
  }

  function RunCap(rule: Rule, log: seq<Entry>, now: int): int {
    Min(rule.maxActionsPerRun, Max(rule.dailyActionCap - UsedSince(log, now - DAY), 0))
  }

  predicate Aborts(o: Outcome) {
    o.AppliedRunAborts? || o.FailsRunAborts?
  }

  // The audit row an attempt leaves: its success flag, or none saved.
  function RowOf(o: Outcome): Option<bool> {
    match o
    case Done => Some(true)
    case CallFails => Some(false)
    case AppliedRowLost => Some(false)
    case _ => None
  }

  predicate AppliedBy(o: Outcome) {
    o.Done? || o.AppliedRowLost? || o.AppliedRunAborts?
  }

  // Scaling an entity with no known budget throws before anything is called.
  function Resolved(rule: Rule, loaded: map<string, int>, entity: string, o: Outcome): Outcome {
    if rule.action.Scale? && entity !in loaded then (if Aborts(o) then FailsRunAborts else CallFails) else o
  }

  function Attempted(rule: Rule, w: World, loaded: map<string, int>, entity: string, a: Attempt): World {
    var o := Resolved(rule, loaded, entity, a.outcome);
    var budget := if AppliedBy(o) && rule.action.Scale? && entity in loaded
                  then Some(NextBudget(rule, loaded[entity])) else None;
    World(a.at,
          w.log + [Entry(a.at, Some(entity), true, AppliedBy(o), budget, RowOf(o))],
          if budget.Some? then w.budgets[entity := budget.value] else w.budgets)
  }

  // The loop over the breaches that fit under the cap.
  function Mutated(rule: Rule, w: World, loaded: map<string, int>, breaches: seq<Option<string>>,
                   attempts: seq<Attempt>): World
    requires |attempts| == |breaches|
    decreases |breaches|
  {
    if breaches == [] then w
    else if breaches[0].None? then Mutated(rule, w, loaded, breaches[1..], attempts[1..])
    else
      var w1 := Attempted(rule, w, loaded, breaches[0].value, attempts[0]);
      if Aborts(Resolved(rule, loaded, breaches[0].value, attempts[0].outcome)) then w1
      else Mutated(rule, w1, loaded, breaches[1..], attempts[1..])
  }

  // Array.prototype.slice(0, n).
  function SliceTo<T>(xs: seq<T>, n: int): seq<T> {
    if n >= |xs| then xs
    else if n >= 0 then xs[..n]
    else if |xs| + n >= 0 then xs[..|xs| + n]
    else []
  }

  function Alerts(breaches: seq<Option<string>>, at: int): seq<Entry> {
    if breaches == [] then []
    else [Entry(at, breaches[0], false, false, None, Some(true))] + Alerts(breaches[1..], at)
  }

  predicate ActsOnBreach(rule: Rule) {
    !rule.action.Alert? && rule.autoExecute && !rule.accountScope
  }

  function Evaluated(rule: Rule, w: World, breaches: seq<Option<string>>, now: int, attempts: seq<Attempt>): World
    requires |attempts| == |breaches|
  {
    if !ActsOnBreach(rule) then World(now, w.log + Alerts(SliceTo(breaches, rule.maxActionsPerRun), now), w.budgets)
    else
      var cap := RunCap(rule, w.log, now);
      if cap <= 0 then w.(clock := now)
      else Mutated(rule, w.(clock := now), w.budgets, SliceTo(breaches, cap), SliceTo(attempts, cap))
  }

  // Attempts happen in order, after the run read the clock.
  ghost predicate Timely(attempts: seq<Attempt>, now: int) {
    && (forall a | a in attempts :: a.at >= now)
    && (forall i, j | 0 <= i <= j < |attempts| :: attempts[i].at <= attempts[j].at)
  }

  // ---- the cap over every window ----------------------------------------------------

  // Successful actions recorded in the half-open day (start, start + 24h].
  predicate InWindow(e: Entry, start: int) {
    Counted(e, start) && e.at <= start + DAY
  }

  function WindowCount(log: seq<Entry>, start: int): nat {
    |Filter(log, (e: Entry) => InWindow(e, start))|
  }

  lemma WindowAppend(log: seq<Entry>, more: seq<Entry>, start: int)
    ensures WindowCount(log + more, start) == WindowCount(log, start) + WindowCount(more, start)
  {
    FilterAppend(log, more, (e: Entry) => InWindow(e, start));
  }

  lemma {:induction false} WindowWithinUsed(log: seq<Entry>, start: int, since: int)
    requires since <= start
    ensures WindowCount(log, start) <= UsedSince(log, since)
  {
    if log != [] {
      WindowWithinUsed(log[1..], start, since);
    }
  }

  // What a run appends: attempted mutations, none before the run, none after it.
  ghost predicate Appended(added: seq<Entry>, now: int, clock: int) {
    forall e | e in added :: now <= e.at <= clock && e.mutation && (e.row == Some(true) ==> e.applied)
  }

  lemma AttemptAppends(rule: Rule, w: World, loaded: map<string, int>, entity: string, a: Attempt, now: int)
    requires a.at >= now && a.at >= w.clock
    ensures
      var w1 := Attempted(rule, w, loaded, entity, a);
      && |w1.log| == |w.log| + 1 && w1.log == w.log + [w1.log[|w.log|]]
      && w1.clock == a.at && Appended([w1.log[|w.log|]], now, a.at)
  {
  }

  lemma TimelyTail(attempts: seq<Attempt>, now: int)
    requires Timely(attempts, now) && attempts != []
    ensures Timely(attempts[1..], now)
    ensures attempts[0].at >= now && forall a | a in attempts[1..] :: a.at >= attempts[0].at
  {
    assert attempts[0] in attempts;
    assert forall a | a in attempts[1..] :: a in attempts;
    assert forall i | 0 <= i < |attempts[1..]| :: attempts[1..][i].at >= attempts[0].at;
  }

  lemma {:induction false} MutatedAppends(rule: Rule, w: World, loaded: map<string, int>,
                                          breaches: seq<Option<string>>, attempts: seq<Attempt>, now: int)
    returns (added: seq<Entry>)
    requires |attempts| == |breaches| && Timely(attempts, now) && w.clock >= now
    requires forall a | a in attempts :: a.at >= w.clock
    ensures Mutated(rule, w, loaded, breaches, attempts).log == w.log + added
    ensures |added| <= |breaches|
    ensures Mutated(rule, w, loaded, breaches, attempts).clock >= w.clock
    ensures Appended(added, now, Mutated(rule, w, loaded, breaches, attempts).clock)
    decreases |breaches|
  {
    if breaches == [] {
      added := [];
    } else {
      TimelyTail(attempts, now);
      assert attempts[0] in attempts;
      if breaches[0].None? {
        added := MutatedAppends(rule, w, loaded, breaches[1..], attempts[1..], now);
      } else {
        var w1 := Attempted(rule, w, loaded, breaches[0].value, attempts[0]);
        AttemptAppends(rule, w, loaded, breaches[0].value, attempts[0], now);
        var first := w1.log[|w.log|];
        if Aborts(Resolved(rule, loaded, breaches[0].value, attempts[0].outcome)) {
          added := [first];
        } else {
          var rest := MutatedAppends(rule, w1, loaded, breaches[1..], attempts[1..], now);
          added := [first] + rest;
          assert w.log + added == w1.log + rest;
        }
      }
    }
  }

  lemma {:induction false} AlertsFacts(breaches: seq<Option<string>>, at: int)
    ensures forall e | e in Alerts(breaches, at) :: e.at == at && !e.mutation && !e.applied
    ensures |Alerts(breaches, at)| == |breaches|
  {
    if breaches != [] {
      AlertsFacts(breaches[1..], at);
    }
  }

  lemma SliceFacts<T>(xs: seq<T>, n: int)
    requires n >= 0
    ensures |SliceTo(xs, n)| == Min(n, |xs|)
    ensures forall i | 0 <= i < |SliceTo(xs, n)| :: SliceTo(xs, n)[i] == xs[i]
  {
  }

  lemma TimelySlice(attempts: seq<Attempt>, now: int, n: int)
    requires Timely(attempts, now) && n >= 0
    ensures Timely(SliceTo(attempts, n), now)
  {
    SliceFacts(attempts, n);
    assert forall a | a in SliceTo(attempts, n) :: a in attempts;
  }

  // What one evaluation appends to the history.
  ghost predicate RunAdds(rule: Rule, w: World, now: int, w': World, added: seq<Entry>) {
    && w'.log == w.log + added
    && w'.clock >= now
    && (forall e | e in added :: now <= e.at <= w'.clock && (e.row == Some(true) && e.mutation ==> e.applied)
          && (e.applied ==> e.mutation))
    && (!ActsOnBreach(rule) ==> forall e | e in added :: !e.mutation)
    && (ActsOnBreach(rule) ==> |added| <= Max(0, rule.maxActionsPerRun))
    && (ActsOnBreach(rule) ==> |added| <= Max(0, rule.dailyActionCap - UsedSince(w.log, now - DAY)))
  }

  lemma EvaluationAppends(rule: Rule, w: World, breaches: seq<Option<string>>, now: int, attempts: seq<Attempt>)
    returns (added: seq<Entry>)
    requires |attempts| == |breaches| && Timely(attempts, now) && now >= w.clock
    ensures RunAdds(rule, w, now, Evaluated(rule, w, breaches, now, attempts), added)
  {
    if !ActsOnBreach(rule) {
      added := Alerts(SliceTo(breaches, rule.maxActionsPerRun), now);
      AlertsFacts(SliceTo(breaches, rule.maxActionsPerRun), now);
    } else {
      var cap := RunCap(rule, w.log, now);
      if cap <= 0 {
        added := [];
      } else {
        SliceFacts(breaches, cap);
        TimelySlice(attempts, now, cap);
        added := MutatedAppends(rule, w.(clock := now), w.budgets, SliceTo(breaches, cap), SliceTo(attempts, cap), now);
      }
    }
  }

  ghost predicate CapHolds(rule: Rule, log: seq<Entry>) {
    forall start: int :: WindowCount(log, start) <= Max(0, rule.dailyActionCap)
  }

  ghost predicate Inv(rule: Rule, w: World) {
    && (forall e | e in w.log ::
          e.at <= w.clock && (e.mutation && e.row == Some(true) ==> e.applied) && (e.applied ==> e.mutation))
    && CapHolds(rule, w.log)
  }

  lemma QuietWindow(added: seq<Entry>, start: int)
    requires forall e | e in added :: !e.mutation || e.at > start + DAY
    ensures WindowCount(added, start) == 0
  {
    FilterNone(added, (e: Entry) => InWindow(e, start));
  }

  lemma CapStep(rule: Rule, w: World, now: int, w': World, added: seq<Entry>, start: int)
    requires Inv(rule, w) && RunAdds(rule, w, now, w', added)
    ensures WindowCount(w'.log, start) <= Max(0, rule.dailyActionCap)
  {
    WindowAppend(w.log, added, start);
    assert WindowCount(w.log, start) <= Max(0, rule.dailyActionCap);
    if !ActsOnBreach(rule) || start + DAY < now {
      QuietWindow(added, start);
    } else if added != [] {
      WindowWithinUsed(w.log, start, now - DAY);
    }
  }

  lemma EvaluationKeepsInv(rule: Rule, w: World, breaches: seq<Option<string>>, now: int, attempts: seq<Attempt>)
    requires Inv(rule, w) && |attempts| == |breaches| && Timely(attempts, now) && now >= w.clock
    ensures Inv(rule, Evaluated(rule, w, breaches, now, attempts))
  {
    var w' := Evaluated(rule, w, breaches, now, attempts);
    var added := EvaluationAppends(rule, w, breaches, now, attempts);
    forall start: int ensures WindowCount(w'.log, start) <= Max(0, rule.dailyActionCap) {
      CapStep(rule, w, now, w', added, start);
    }
  }

  // ---- histories ---------------------------------------------------------------------

  datatype Evaluation = Evaluation(now: int, breaches: seq<Option<string>>, attempts: seq<Attempt>)

  ghost predicate Serial(w: World, ev: Evaluation) {
    |ev.attempts| == |ev.breaches| && Timely(ev.attempts, ev.now) && ev.now >= w.clock
  }

  ghost predicate History(rule: Rule, worlds: seq<World>, evaluations: seq<Evaluation>) {
    && |worlds| == |evaluations| + 1
    && worlds[0].log == []
    && forall i | 0 <= i < |evaluations| ::
         && Serial(worlds[i], evaluations[i])
         && worlds[i + 1] == Evaluated(rule, worlds[i], evaluations[i].breaches,
                                       evaluations[i].now, evaluations[i].attempts)
  }

  lemma {:induction false} HistoryKeepsInv(rule: Rule, worlds: seq<World>, evaluations: seq<Evaluation>, i: nat)
    requires History(rule, worlds, evaluations) && i < |worlds|
    ensures Inv(rule, worlds[i])
  {
    if i > 0 {
      HistoryKeepsInv(rule, worlds, evaluations, i - 1);
      var ev := evaluations[i - 1];
      EvaluationKeepsInv(rule, worlds[i - 1], ev.breaches, ev.now, ev.attempts);
    }
  }

  // Over every sequence of serial evaluations, every 24 hours (not only those
  // ending at a run) hold at most dailyActionCap recorded successes.
  lemma EveryDayIsCapped(rule: Rule, worlds: seq<World>, evaluations: seq<Evaluation>, i: nat, start: int)
    requires History(rule, worlds, evaluations) && i < |worlds|
    ensures WindowCount(worlds[i].log, start) <= Max(0, rule.dailyActionCap)
    ensures |Filter(worlds[i].log, (e: Entry) => e.mutation && e.row == Some(true) && start < e.at <= start + 86400000)|
         <= Max(0, rule.dailyActionCap)
  {
    HistoryKeepsInv(rule, worlds, evaluations, i);
    FilterEqual(worlds[i].log, (e: Entry) => e.mutation && e.row == Some(true) && start < e.at <= start + 86400000,
                (e: Entry) => InWindow(e, start));
  }

  predicate InDay(e: Entry, start: int) {
    start < e.at <= start + DAY
  }

  // Applied, but the success row was never saved: invisible to the daily count.
  predicate RowLost(e: Entry) {
    e.applied && e.row != Some(true)
  }

  function AppliedIn(log: seq<Entry>, start: int): nat {
    |Filter(log, (e: Entry) => e.applied && InDay(e, start))|
  }

  function LostIn(log: seq<Entry>, start: int): nat {
    |Filter(log, (e: Entry) => RowLost(e) && InDay(e, start))|
  }

  lemma {:induction false} AppliedSplits(log: seq<Entry>, start: int)
    requires forall e | e in log :: (e.mutation && e.row == Some(true) ==> e.applied) && (e.applied ==> e.mutation)
    ensures AppliedIn(log, start) == WindowCount(log, start) + LostIn(log, start)
  {
    if log != [] {
      AppliedSplits(log[1..], start);
    }
  }

  // What the cap counts are recorded successes. Actions actually applied in a day
  // exceed them by exactly those whose success row was lost, so the cap holds of
  // the actions themselves up to those.
  lemma AppliedWithinCapAndLost(rule: Rule, worlds: seq<World>, evaluations: seq<Evaluation>, i: nat, start: int)
    requires History(rule, worlds, evaluations) && i < |worlds|
    ensures AppliedIn(worlds[i].log, start) == WindowCount(worlds[i].log, start) + LostIn(worlds[i].log, start)
    ensures AppliedIn(worlds[i].log, start) <= Max(0, rule.dailyActionCap) + LostIn(worlds[i].log, start)
  {
    HistoryKeepsInv(rule, worlds, evaluations, i);
    AppliedSplits(worlds[i].log, start);
  }

  // With the first success row lost, a cap of one lets two pauses through in a day.
  lemma LostRowPassesCap()
    ensures
      var rule := Rule(Pause, false, true, 0, 25, 1, 1);
      var w0 := World(0, [], map[]);
      var w1 := Evaluated(rule, w0, [Some("a")], 1, [Attempt(1, AppliedRowLost)]);
      var w2 := Evaluated(rule, w1, [Some("b")], 2, [Attempt(2, Done)]);
      && AppliedIn(w2.log, 0) == 2 && rule.dailyActionCap == 1
  {
    var rule := Rule(Pause, false, true, 0, 25, 1, 1);
    var w0 := World(0, [], map[]);
    var w1 := Evaluated(rule, w0, [Some("a")], 1, [Attempt(1, AppliedRowLost)]);
    assert UsedSince([], 1 - DAY) == 0;
    OneBreach(rule, w0, "a", 1, AppliedRowLost);
    FilterNone(w1.log, (e: Entry) => Counted(e, 2 - DAY));
    assert UsedSince(w1.log, 2 - DAY) == 0;
    OneBreach(rule, w1, "b", 2, Done);
    var w2 := Evaluated(rule, w1, [Some("b")], 2, [Attempt(2, Done)]);
    FilterAll(w2.log, (e: Entry) => e.applied && InDay(e, 0));
  }

  // And each run attempts at most maxActionsPerRun; an alert-only rule none.
  lemma EveryRunIsCapped(rule: Rule, worlds: seq<World>, evaluations: seq<Evaluation>, i: nat)
    requires History(rule, worlds, evaluations) && i < |evaluations|
    ensures worlds[i].log <= worlds[i + 1].log
    ensures ActsOnBreach(rule) ==> |worlds[i + 1].log| - |worlds[i].log| <= Max(0, rule.maxActionsPerRun)
    ensures !ActsOnBreach(rule) ==> worlds[i + 1].budgets == worlds[i].budgets
    ensures !ActsOnBreach(rule) ==> forall e | e in worlds[i + 1].log[|worlds[i].log|..] :: !e.applied
  {
    var ev := evaluations[i];
    var added := EvaluationAppends(rule, worlds[i], ev.breaches, ev.now, ev.attempts);
    assert worlds[i + 1].log[|worlds[i].log|..] == added;
  }

  // ---- what one evaluation does ------------------------------------------------------

  // A budget in the log is the loaded one scaled, and every applied scale logs one.
  predicate LogsItsScale(rule: Rule, loaded: map<string, int>, e: Entry) {
    && (e.budget.Some? ==>
          && rule.action == Scale && e.applied && e.entity.Some? && e.entity.value in loaded
          && Scales(rule, loaded[e.entity.value], e.budget.value)
          && ScalesItsWay(rule, loaded[e.entity.value], e.budget.value))
    && (rule.action == Scale && e.applied ==> e.budget.Some?)
  }

  // The first n breaches that name an entity.
  function Targets(breaches: seq<Option<string>>): seq<Option<string>> {
    Filter(breaches, (b: Option<string>) => b.Some?)
  }

  function EntitiesOf(log: seq<Entry>): seq<Option<string>> {
    seq(|log|, i requires 0 <= i < |log| => log[i].entity)
  }

  // The run stops after an attempt whose failure could not be recorded either.
  predicate Stops(e: Entry) {
    e.row.None?
  }

  // Mutations attempted, in order, on these breaches' entities: on all of them, or
  // up to the one that stopped the run.
  ghost predicate Attempts(breaches: seq<Option<string>>, added: seq<Entry>) {
    && EntitiesOf(added) <= Targets(breaches)
    && (forall i | 0 <= i < |added| - 1 :: !Stops(added[i]))
    && (|added| < |Targets(breaches)| ==> added != [] && Stops(added[|added| - 1]))
  }

  // What an evaluation adds, by the kind of rule and the room under both caps.
  ghost predicate Does(rule: Rule, w: World, breaches: seq<Option<string>>, now: int, added: seq<Entry>) {
    var used := |Filter(w.log, (e: Entry) => e.mutation && e.row == Some(true) && e.at > now - 24 * 60 * 60 * 1000)|;
    var room := if rule.maxActionsPerRun <= rule.dailyActionCap - used then rule.maxActionsPerRun
                else rule.dailyActionCap - used;
    var acts := rule.action != Alert && rule.autoExecute && !rule.accountScope;
    && (forall e | e in added :: e.mutation == acts && LogsItsScale(rule, w.budgets, e))
    && (acts && room <= 0 ==> added == [])
    && (acts && room > 0 ==> Attempts(if room < |breaches| then breaches[..room] else breaches, added))
    && (!acts ==> EntitiesOf(added) == SliceTo(breaches, rule.maxActionsPerRun))
    && (!acts ==> forall e | e in added :: !e.applied && e.row == Some(true))
  }

  lemma {:induction false} AlertsNameBreaches(breaches: seq<Option<string>>, at: int)
    ensures EntitiesOf(Alerts(breaches, at)) == breaches
    ensures forall e | e in Alerts(breaches, at) :: !e.applied && !e.mutation && e.row == Some(true) && e.budget.None?
  {
    if breaches != [] {
      AlertsNameBreaches(breaches[1..], at);
      assert EntitiesOf(Alerts(breaches, at))[1..] == EntitiesOf(Alerts(breaches[1..], at));
    }
  }

  lemma AttemptDoes(rule: Rule, w: World, loaded: map<string, int>, entity: string, a: Attempt)
    ensures
      var w1 := Attempted(rule, w, loaded, entity, a);
      && |w1.log| == |w.log| + 1 && w1.log == w.log + [w1.log[|w.log|]]
      && w1.log[|w.log|].entity == Some(entity) && w1.log[|w.log|].mutation
      && LogsItsScale(rule, loaded, w1.log[|w.log|])
      && (Stops(w1.log[|w.log|]) <==> Aborts(Resolved(rule, loaded, entity, a.outcome)))
  {
    if entity in loaded {
      OneScaleComputes(rule, loaded[entity]);
    }
  }

  lemma AttemptsCons(breaches: seq<Option<string>>, first: Entry, rest: seq<Entry>)
    requires breaches != [] && breaches[0].Some? && first.entity == breaches[0] && !Stops(first)
    requires Attempts(breaches[1..], rest)
    ensures Attempts(breaches, [first] + rest)
  {
    var added := [first] + rest;
    assert Targets(breaches) == [breaches[0]] + Targets(breaches[1..]);
    assert EntitiesOf(added) == [breaches[0]] + EntitiesOf(rest);
  }

  lemma AttemptsStop(breaches: seq<Option<string>>, first: Entry)
    requires breaches != [] && breaches[0].Some? && first.entity == breaches[0] && Stops(first)
    ensures Attempts(breaches, [first])
  {
    assert Targets(breaches) == [breaches[0]] + Targets(breaches[1..]);
    assert EntitiesOf([first]) == [breaches[0]];
  }

  lemma {:induction false} MutatedDoes(rule: Rule, w: World, loaded: map<string, int>,
                                       breaches: seq<Option<string>>, attempts: seq<Attempt>)
    returns (added: seq<Entry>)
    requires |attempts| == |breaches|
    ensures Mutated(rule, w, loaded, breaches, attempts).log == w.log + added
    ensures Attempts(breaches, added)
    ensures forall e | e in added :: e.mutation && LogsItsScale(rule, loaded, e)
    decreases |breaches|
  {
    if breaches == [] {
      added := [];
    } else if breaches[0].None? {
      added := MutatedDoes(rule, w, loaded, breaches[1..], attempts[1..]);
      assert Targets(breaches) == Targets(breaches[1..]);
    } else {
      var w1 := Attempted(rule, w, loaded, breaches[0].value, attempts[0]);
      AttemptDoes(rule, w, loaded, breaches[0].value, attempts[0]);
      var first := w1.log[|w.log|];
      if Stops(first) {
        added := [first];
        AttemptsStop(breaches, first);
      } else {
        var rest := MutatedDoes(rule, w1, loaded, breaches[1..], attempts[1..]);
        added := [first] + rest;
        assert w.log + added == w1.log + rest;
        AttemptsCons(breaches, first, rest);
      }
    }
  }

  // Every evaluation does exactly that: alerts, or as many attempts as the caps leave
  // room for, on the first breaches, each budget scaled as the rule says.
  lemma EvaluationDoes(rule: Rule, w: World, breaches: seq<Option<string>>, now: int, attempts: seq<Attempt>)
    requires |attempts| == |breaches|
    ensures
      var w' := Evaluated(rule, w, breaches, now, attempts);
      w.log <= w'.log && Does(rule, w, breaches, now, w'.log[|w.log|..])
  {
    var w' := Evaluated(rule, w, breaches, now, attempts);
    FilterEqual(w.log, (e: Entry) => e.mutation && e.row == Some(true) && e.at > now - 24 * 60 * 60 * 1000,
                (e: Entry) => Counted(e, now - DAY));
    if !ActsOnBreach(rule) {
      AlertsNameBreaches(SliceTo(breaches, rule.maxActionsPerRun), now);
      assert w'.log[|w.log|..] == Alerts(SliceTo(breaches, rule.maxActionsPerRun), now);
    } else {
      var cap := RunCap(rule, w.log, now);
      if cap > 0 {
        var added := MutatedDoes(rule, w.(clock := now), w.budgets, SliceTo(breaches, cap), SliceTo(attempts, cap));
        assert w'.log[|w.log|..] == added;
      }
    }
  }

  // Over all histories, each evaluation from where the one before left off.
  lemma EveryRunDoes(rule: Rule, worlds: seq<World>, evaluations: seq<Evaluation>, i: nat)
    requires History(rule, worlds, evaluations) && i < |evaluations|
    ensures worlds[i].log <= worlds[i + 1].log
    ensures Does(rule, worlds[i], evaluations[i].breaches, evaluations[i].now, worlds[i + 1].log[|worlds[i].log|..])
  {
    EvaluationDoes(rule, worlds[i], evaluations[i].breaches, evaluations[i].now, evaluations[i].attempts);
  }

  // The day must be half-open: with both ends included, twice the cap fits.
  lemma ClosedDayHoldsTwice()
    ensures
      var rule := Rule(Pause, false, true, 0, 25, 1, 1);
      var w0 := World(0, [], map[]);
      var w1 := Evaluated(rule, w0, [Some("a")], 0, [Attempt(0, Done)]);
      var w2 := Evaluated(rule, w1, [Some("b")], DAY, [Attempt(DAY, Done)]);
      && |Filter(w2.log, (e: Entry) => e.row == Some(true) && 0 <= e.at <= DAY)| == 2
      && rule.dailyActionCap == 1
  {
    var rule := Rule(Pause, false, true, 0, 25, 1, 1);
    var w0 := World(0, [], map[]);
    var w1 := Evaluated(rule, w0, [Some("a")], 0, [Attempt(0, Done)]);
    var first, second := Entry(0, Some("a"), true, true, None, Some(true)),
                         Entry(DAY, Some("b"), true, true, None, Some(true));
    assert UsedSince([], 0 - DAY) == 0;
    OneBreach(rule, w0, "a", 0, Done);
    assert w1.log == [first];
    FilterNone([first], (e: Entry) => Counted(e, 0));
    assert UsedSince(w1.log, DAY - DAY) == 0;
    OneBreach(rule, w1, "b", DAY, Done);
    var w2 := Evaluated(rule, w1, [Some("b")], DAY, [Attempt(DAY, Done)]);
    assert w2.log == [first] + [second];
    FilterAll(w2.log, (e: Entry) => e.row == Some(true) && 0 <= e.at <= DAY);
  }

  lemma OneBreach(rule: Rule, w: World, entity: string, now: int, o: Outcome)
    requires rule.action.Pause? && ActsOnBreach(rule) && RunCap(rule, w.log, now) == 1 && !Aborts(o)
    ensures Evaluated(rule, w, [Some(entity)], now, [Attempt(now, o)])
         == World(now, w.log + [Entry(now, Some(entity), true, AppliedBy(o), None, RowOf(o))], w.budgets)
  {
    var breaches, attempts := [Some(entity)], [Attempt(now, o)];
    assert SliceTo(breaches, 1) == breaches && SliceTo(attempts, 1) == attempts;
    var w1 := Attempted(rule, w.(clock := now), w.budgets, entity, attempts[0]);
    assert breaches[1..] == [] && attempts[1..] == [];
    assert Mutated(rule, w1, w.budgets, breaches[1..], attempts[1..]) == w1;
  }
}
