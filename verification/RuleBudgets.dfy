// What the cap and the clamp allow together: how far one rule can move a daily
// budget within any 24 hours, when only that rule changes it.
module RuleBudgets {
  import opened Prelude
  import opened Rules

  // The budgets after a history, replayed from the audit entries.
  function Replay(initial: map<string, int>, log: seq<Entry>): map<string, int> {
    if log == [] then initial
    else
      var e := log[|log| - 1];
      var before := Replay(initial, log[..|log| - 1]);
      if e.budget.Some? && e.entity.Some? then before[e.entity.value := e.budget.value] else before
  }

  // One scale: at least one, and at most f times what it replaced, plus one,
  // for f = 1 + |maxScalePct| / 100.
  predicate Grows(rule: Rule, before: int, after: int) {
    after >= 1 && 100 * after <= (100 + Abs(rule.maxScalePct)) * before + 100
  }

  ghost predicate Moderate(rule: Rule, before: map<string, int>, e: Entry) {
    e.budget.Some? ==>
      && e.applied && e.entity.Some? && e.entity.value in before
      && Grows(rule, before[e.entity.value], e.budget.value)
  }

  ghost predicate Nonnegative(budgets: map<string, int>) {
    forall k | k in budgets :: budgets[k] >= 0
  }

  ghost predicate LogModerate(rule: Rule, initial: map<string, int>, log: seq<Entry>) {
    forall i | 0 <= i < |log| :: Moderate(rule, Replay(initial, log[..i]), log[i])
  }

  ghost predicate BudgetInv(rule: Rule, initial: map<string, int>, w: World) {
    && w.budgets == Replay(initial, w.log)
    && Nonnegative(w.budgets)
    && LogModerate(rule, initial, w.log)
  }

  lemma ReplaySnoc(initial: map<string, int>, log: seq<Entry>, e: Entry)
    ensures Replay(initial, log + [e]) ==
            if e.budget.Some? && e.entity.Some? then Replay(initial, log)[e.entity.value := e.budget.value]
            else Replay(initial, log)
  {
    assert (log + [e])[..|log|] == log;
  }

  lemma ModerateSnoc(rule: Rule, initial: map<string, int>, log: seq<Entry>, e: Entry)
    requires LogModerate(rule, initial, log) && Moderate(rule, Replay(initial, log), e)
    ensures LogModerate(rule, initial, log + [e])
  {
    var all := log + [e];
    forall i | 0 <= i < |all| ensures Moderate(rule, Replay(initial, all[..i]), all[i]) {
      if i < |log| {
        assert all[..i] == log[..i];
      } else {
        assert all[..i] == log;
      }
    }
  }

  // Within a run the loaded figure of an entity is its budget, or the rule has
  // already scaled it from that figure.
  ghost predicate Current(rule: Rule, loaded: map<string, int>, budgets: map<string, int>) {
    forall k | k in loaded :: k in budgets && (budgets[k] == loaded[k] || budgets[k] == NextBudget(rule, loaded[k]))
  }

  // Scaling the loaded figure again writes the same budget again.
  lemma ScaleGrows(rule: Rule, loaded: nat, before: nat)
    requires before == loaded || before == NextBudget(rule, loaded)
    ensures Grows(rule, before, NextBudget(rule, loaded))
  {
    OneScaleIsBounded(rule, loaded);
    assert Abs(rule.maxScalePct) * before >= 0;
    assert (100 + Abs(rule.maxScalePct)) * before == 100 * before + Abs(rule.maxScalePct) * before;
  }

  lemma AttemptKeepsBudgets(rule: Rule, initial: map<string, int>, w: World, loaded: map<string, int>,
                            entity: string, a: Attempt)
    requires BudgetInv(rule, initial, w) && Nonnegative(loaded) && Current(rule, loaded, w.budgets)
    ensures BudgetInv(rule, initial, Attempted(rule, w, loaded, entity, a))
    ensures Current(rule, loaded, Attempted(rule, w, loaded, entity, a).budgets)
  {
    var e := Attempted(rule, w, loaded, entity, a).log[|w.log|];
    if e.budget.Some? {
      ScaleGrows(rule, loaded[entity], w.budgets[entity]);
    }
    ReplaySnoc(initial, w.log, e);
    ModerateSnoc(rule, initial, w.log, e);
  }

  lemma {:induction false} MutatedKeepsBudgets(rule: Rule, initial: map<string, int>, w: World,
                                               loaded: map<string, int>,
                                               breaches: seq<Option<string>>, attempts: seq<Attempt>)
    requires |attempts| == |breaches|
    requires BudgetInv(rule, initial, w) && Nonnegative(loaded) && Current(rule, loaded, w.budgets)
    ensures BudgetInv(rule, initial, Mutated(rule, w, loaded, breaches, attempts))
    decreases |breaches|
  {
    if breaches == [] {
    } else if breaches[0].None? {
      MutatedKeepsBudgets(rule, initial, w, loaded, breaches[1..], attempts[1..]);
    } else {
      AttemptKeepsBudgets(rule, initial, w, loaded, breaches[0].value, attempts[0]);
      if !Aborts(Resolved(rule, loaded, breaches[0].value, attempts[0].outcome)) {
        MutatedKeepsBudgets(rule, initial, Attempted(rule, w, loaded, breaches[0].value, attempts[0]), loaded,
                            breaches[1..], attempts[1..]);
      }
    }
  }

  // Entries that write no budget leave the replay alone.
  lemma PlainSnoc(rule: Rule, initial: map<string, int>, log: seq<Entry>, e: Entry)
    requires LogModerate(rule, initial, log) && e.budget.None?
    ensures LogModerate(rule, initial, log + [e])
    ensures Replay(initial, log + [e]) == Replay(initial, log)
  {
    ReplaySnoc(initial, log, e);
    ModerateSnoc(rule, initial, log, e);
  }

  lemma {:induction false} PlainEntries(rule: Rule, initial: map<string, int>, log: seq<Entry>, more: seq<Entry>)
    requires LogModerate(rule, initial, log)
    requires forall e | e in more :: e.budget.None?
    ensures LogModerate(rule, initial, log + more)
    ensures Replay(initial, log + more) == Replay(initial, log)
    decreases |more|
  {
    if more == [] {
      assert log + more == log;
    } else {
      var init, last := more[..|more| - 1], more[|more| - 1];
      assert forall e | e in init :: e in more;
      PlainEntries(rule, initial, log, init);
      assert log + more == log + init + [last];
      PlainSnoc(rule, initial, log + init, last);
    }
  }

  lemma {:induction false} AlertsArePlain(breaches: seq<Option<string>>, at: int)
    ensures forall e | e in Alerts(breaches, at) :: e.budget.None?
  {
    if breaches != [] {
      AlertsArePlain(breaches[1..], at);
    }
  }

  lemma EvaluationKeepsBudgets(rule: Rule, initial: map<string, int>, w: World, breaches: seq<Option<string>>, now: int,
                               attempts: seq<Attempt>)
    requires |attempts| == |breaches| && BudgetInv(rule, initial, w)
    ensures BudgetInv(rule, initial, Evaluated(rule, w, breaches, now, attempts))
  {
    if !ActsOnBreach(rule) {
      var alerts := Alerts(SliceTo(breaches, rule.maxActionsPerRun), now);
      AlertsArePlain(SliceTo(breaches, rule.maxActionsPerRun), now);
      PlainEntries(rule, initial, w.log, alerts);
    } else {
      var cap := RunCap(rule, w.log, now);
      if cap > 0 {
        MutatedKeepsBudgets(rule, initial, w.(clock := now), w.budgets, SliceTo(breaches, cap), SliceTo(attempts, cap));
      }
    }
  }

  lemma {:induction false} HistoryKeepsBudgets(rule: Rule, worlds: seq<World>, evaluations: seq<Evaluation>, i: nat)
    requires History(rule, worlds, evaluations) && Nonnegative(worlds[0].budgets) && i < |worlds|
    ensures BudgetInv(rule, worlds[0].budgets, worlds[i])
  {
    if i > 0 {
      HistoryKeepsBudgets(rule, worlds, evaluations, i - 1);
      var ev := evaluations[i - 1];
      EvaluationKeepsBudgets(rule, worlds[0].budgets, worlds[i - 1], ev.breaches, ev.now, ev.attempts);
    }
  }

  // ---- compounding -------------------------------------------------------------------

  function Factor(rule: Rule): real {
    1.0 + Abs(rule.maxScalePct) as real / 100.0
  }

  function Pow(f: real, k: nat): real {
    if k == 0 then 1.0 else f * Pow(f, k - 1)
  }

  // k scales take a budget b0 to at most f^k * (b0 + k).
  predicate Reaches(rule: Rule, b0: int, k: nat, b: int) {
    b as real <= Pow(Factor(rule), k) * (b0 as real + k as real)
  }

  lemma FactorAtLeastOne(rule: Rule, x: real)
    requires x >= 0.0
    ensures Factor(rule) * x >= x
  {
    var extra := Abs(rule.maxScalePct) as real / 100.0;
    assert extra * x >= 0.0;
    assert (1.0 + extra) * x == x + extra * x;
  }

  lemma {:induction false} PowAtLeastOne(rule: Rule, k: nat)
    ensures Pow(Factor(rule), k) >= 1.0
  {
    if k > 0 {
      PowAtLeastOne(rule, k - 1);
      FactorAtLeastOne(rule, Pow(Factor(rule), k - 1));
    }
  }

  lemma {:induction false} RealProduct(m: nat, n: nat)
    ensures (m * n) as real == m as real * n as real
  {
    if n > 0 {
      RealProduct(m, n - 1);
      assert m * n == m * (n - 1) + m;
      assert m as real * n as real == m as real * (n - 1) as real + m as real;
    }
  }

  lemma GrowsInReals(rule: Rule, before: nat, after: int)
    requires Grows(rule, before, after)
    ensures after as real <= Factor(rule) * before as real + 1.0
  {
    var m := 100 + Abs(rule.maxScalePct);
    RealProduct(m, before);
    Hundredths(m as real, before as real);
    assert Factor(rule) == m as real / 100.0;
  }

  lemma Hundredths(m: real, x: real)
    ensures 100.0 * ((m / 100.0) * x) == m * x
  {
  }

  lemma ScaleLess(f: real, x: real, y: real)
    requires f >= 0.0 && x <= y
    ensures f * x <= f * y
  {
    assert f * (y - x) >= 0.0;
    assert f * (y - x) == f * y - f * x;
  }

  lemma Associate(f: real, p: real, x: real)
    ensures f * (p * x) == (f * p) * x
    ensures (f * p) * (x + 1.0) == (f * p) * x + f * p
  {
  }

  lemma ReachesStep(rule: Rule, b0: int, k: nat, before: nat, after: int)
    requires Reaches(rule, b0, k, before) && Grows(rule, before, after)
    ensures Reaches(rule, b0, k + 1, after)
  {
    var f, p, x := Factor(rule), Pow(Factor(rule), k), b0 as real + k as real;
    GrowsInReals(rule, before, after);
    ScaleLess(f, before as real, p * x);
    PowAtLeastOne(rule, k + 1);
    Associate(f, p, x);
    assert b0 as real + (k + 1) as real == x + 1.0;
    assert Pow(f, k + 1) == f * p;
  }

  lemma ReachesStart(rule: Rule, b: int)
    ensures Reaches(rule, b, 0, b)
  {
    assert Pow(Factor(rule), 0) == 1.0;
  }

  predicate Changes(e: Entry, entity: string) {
    e.budget.Some? && e.entity == Some(entity)
  }

  function ChangeCount(log: seq<Entry>, entity: string): nat {
    |Filter(log, (e: Entry) => Changes(e, entity))|
  }

  lemma ChangeCountSnoc(log: seq<Entry>, e: Entry, entity: string)
    ensures ChangeCount(log + [e], entity) == ChangeCount(log, entity) + if Changes(e, entity) then 1 else 0
  {
    var changes := (x: Entry) => Changes(x, entity);
    FilterAppend(log, [e], changes);
    if Changes(e, entity) {
      FilterAll([e], changes);
    } else {
      FilterNone([e], changes);
    }
  }

  lemma {:induction false} ReplayNonnegative(rule: Rule, initial: map<string, int>, log: seq<Entry>, j: nat)
    requires LogModerate(rule, initial, log) && Nonnegative(initial) && j <= |log|
    ensures Nonnegative(Replay(initial, log[..j]))
  {
    if j > 0 {
      ReplayNonnegative(rule, initial, log, j - 1);
      assert Moderate(rule, Replay(initial, log[..j - 1]), log[j - 1]);
      assert log[..j] == log[..j - 1] + [log[j - 1]];
      ReplaySnoc(initial, log[..j - 1], log[j - 1]);
    }
  }

  lemma GrowthStep(rule: Rule, initial: map<string, int>, before: seq<Entry>, part: seq<Entry>, e: Entry,
                   entity: string, b0: int)
    requires entity in Replay(initial, before) && Nonnegative(Replay(initial, before))
    requires Reaches(rule, b0, ChangeCount(part, entity), Replay(initial, before)[entity])
    requires Moderate(rule, Replay(initial, before), e)
    ensures entity in Replay(initial, before + [e])
    ensures Reaches(rule, b0, ChangeCount(part + [e], entity), Replay(initial, before + [e])[entity])
  {
    ReplaySnoc(initial, before, e);
    ChangeCountSnoc(part, e, entity);
    if Changes(e, entity) {
      ReachesStep(rule, b0, ChangeCount(part, entity), Replay(initial, before)[entity], e.budget.value);
    }
  }

  // From its value after i entries, the budget after j is within reach.
  ghost predicate WithinReach(rule: Rule, initial: map<string, int>, log: seq<Entry>, entity: string, b0: int, i: nat,
                              j: nat)
    requires i <= j <= |log|
  {
    && entity in Replay(initial, log[..j])
    && Reaches(rule, b0, ChangeCount(log[i..j], entity), Replay(initial, log[..j])[entity])
  }

  lemma GrowthNext(rule: Rule, initial: map<string, int>, log: seq<Entry>, entity: string, b0: int, i: nat, j: nat)
    requires LogModerate(rule, initial, log) && Nonnegative(initial) && i <= j < |log|
    requires WithinReach(rule, initial, log, entity, b0, i, j)
    ensures WithinReach(rule, initial, log, entity, b0, i, j + 1)
  {
    ReplayNonnegative(rule, initial, log, j);
    assert log[..j + 1] == log[..j] + [log[j]];
    assert log[i..j + 1] == log[i..j] + [log[j]];
    GrowthStep(rule, initial, log[..j], log[i..j], log[j], entity, b0);
  }

  lemma {:induction false} GrowthOver(rule: Rule, initial: map<string, int>, log: seq<Entry>, entity: string, i: nat,
                                      j: nat)
    requires LogModerate(rule, initial, log) && Nonnegative(initial) && i <= j <= |log|
    requires entity in Replay(initial, log[..i])
    ensures WithinReach(rule, initial, log, entity, Replay(initial, log[..i])[entity], i, j)
    decreases j
  {
    var b0 := Replay(initial, log[..i])[entity];
    if i == j {
      assert log[i..j] == [];
      ReachesStart(rule, b0);
    } else {
      GrowthOver(rule, initial, log, entity, i, j - 1);
      GrowthNext(rule, initial, log, entity, b0, i, j - 1);
    }
  }

  function LostCount(log: seq<Entry>): nat {
    |Filter(log, (e: Entry) => RowLost(e))|
  }

  lemma {:induction false} ChangesAreCounted(log: seq<Entry>, entity: string, start: int)
    requires forall e | e in log ::
               start < e.at <= start + DAY && (e.budget.Some? ==> e.applied) && (e.applied ==> e.mutation)
    ensures ChangeCount(log, entity) <= WindowCount(log, start) + LostCount(log)
  {
    if log != [] {
      ChangesAreCounted(log[1..], entity, start);
    }
  }

  lemma WindowOfPart(log: seq<Entry>, i: nat, j: nat, start: int)
    requires i <= j <= |log|
    ensures WindowCount(log[i..j], start) <= WindowCount(log, start)
  {
    assert log == log[..i] + log[i..j] + log[j..];
    WindowAppend(log[..i] + log[i..j], log[j..], start);
    WindowAppend(log[..i], log[i..j], start);
  }

  lemma EntryFacts(rule: Rule, initial: map<string, int>, w: World, x: nat)
    requires Inv(rule, w) && LogModerate(rule, initial, w.log) && x < |w.log|
    ensures (w.log[x].budget.Some? ==> w.log[x].applied) && (w.log[x].applied ==> w.log[x].mutation)
  {
    assert Moderate(rule, Replay(initial, w.log[..x]), w.log[x]);
    assert w.log[x] in w.log;
  }

  lemma PartIsCounted(rule: Rule, initial: map<string, int>, w: World, entity: string, start: int, i: nat, j: nat)
    requires Inv(rule, w) && LogModerate(rule, initial, w.log) && i <= j <= |w.log|
    requires forall e | e in w.log[i..j] :: start < e.at <= start + DAY
    ensures ChangeCount(w.log[i..j], entity) <= Max(0, rule.dailyActionCap) + LostCount(w.log[i..j])
  {
    var part := w.log[i..j];
    forall e | e in part ensures (e.budget.Some? ==> e.applied) && (e.applied ==> e.mutation) {
      var x :| 0 <= x < |part| && part[x] == e;
      EntryFacts(rule, initial, w, i + x);
    }
    ChangesAreCounted(part, entity, start);
    WindowOfPart(w.log, i, j, start);
    assert WindowCount(w.log, start) <= Max(0, rule.dailyActionCap);
  }

  // If only this rule changes an entity, a budget B read at the start of any 24
  // hours ends them at most f^k * (B + k), where k is at most the daily cap
  // plus the applied actions whose success row was lost.
  lemma DailyGrowthIsBounded(rule: Rule, worlds: seq<World>, evaluations: seq<Evaluation>, n: nat, entity: string,
                             start: int, i: nat, j: nat) returns (k: nat)
    requires History(rule, worlds, evaluations) && Nonnegative(worlds[0].budgets) && n < |worlds|
    requires i <= j <= |worlds[n].log|
    requires forall e | e in worlds[n].log[i..j] :: start < e.at <= start + DAY
    requires entity in Replay(worlds[0].budgets, worlds[n].log[..i])
    ensures k <= Max(0, rule.dailyActionCap) + LostCount(worlds[n].log[i..j])
    ensures entity in Replay(worlds[0].budgets, worlds[n].log[..j])
    ensures Reaches(rule, Replay(worlds[0].budgets, worlds[n].log[..i])[entity], k,
                    Replay(worlds[0].budgets, worlds[n].log[..j])[entity])
    ensures worlds[n].budgets == Replay(worlds[0].budgets, worlds[n].log)
  {
    var w := worlds[n];
    HistoryKeepsInv(rule, worlds, evaluations, n);
    HistoryKeepsBudgets(rule, worlds, evaluations, n);
    GrowthOver(rule, worlds[0].budgets, w.log, entity, i, j);
    k := ChangeCount(w.log[i..j], entity);
    PartIsCounted(rule, worlds[0].budgets, w, entity, start, i, j);
  }
}
