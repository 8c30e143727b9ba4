// The engine as an object: the audit log and the account's budgets are changed
// attempt by attempt, and each evaluation is proved to be the Rules step.
module RulesService {
  import opened Prelude
  import opened Rules

  class RulesService {
    const rule: Rule
    var clock: int
    var log: seq<Entry>
    var budgets: map<string, int>

    ghost function Model(): World
      reads this
    {
      World(clock, log, budgets)
    }

    constructor (rule: Rule, budgets: map<string, int>, now: int)
      ensures this.rule == rule && Model() == World(now, [], budgets)
      ensures Inv(rule, Model())
    {
      this.rule, this.budgets, clock, log := rule, budgets, now, [];
    }

    // One breach: apply, then record; a failed record is retried as a failure,
    // and if that fails too the whole run stops.
    method Attempt(loaded: map<string, int>, entity: string, a: Attempt) returns (aborted: bool)
      modifies this
      ensures Model() == Attempted(rule, old(Model()), loaded, entity, a)
      ensures aborted == Aborts(Resolved(rule, loaded, entity, a.outcome))
    {
      var outcome := Resolved(rule, loaded, entity, a.outcome);
      var budget: Option<int> := None;
      if AppliedBy(outcome) {
        if rule.action.Scale? {
          if entity in loaded {
            var next := NextBudget(rule, loaded[entity]);
            budgets := budgets[entity := next];
            budget := Some(next);
          }
        }
      }
      log := log + [Entry(a.at, Some(entity), true, AppliedBy(outcome), budget, RowOf(outcome))];
      clock := a.at;
      aborted := Aborts(outcome);
    }

    method ExecuteMutations(breaches: seq<Option<string>>, now: int, attempts: seq<Attempt>)
      requires |attempts| == |breaches| && ActsOnBreach(rule)
      modifies this
      ensures Model() == Evaluated(rule, old(Model()), breaches, now, attempts)
      ensures old(log) <= log && Does(rule, old(Model()), breaches, now, log[|old(log)|..])
    {
      EvaluationDoes(rule, Model(), breaches, now, attempts);
      var usedToday := UsedSince(log, now - DAY);
      var remainingDaily := Max(rule.dailyActionCap - usedToday, 0);
      var cap := Min(rule.maxActionsPerRun, remainingDaily);
      clock := now;
      if cap <= 0 {
        return;
      }
      var loaded := budgets;
      var todo, script := SliceTo(breaches, cap), SliceTo(attempts, cap);
      ghost var start := Model();
      var i := 0;
      while i < |todo|
        invariant i <= |todo| == |script|
        invariant Mutated(rule, Model(), loaded, todo[i..], script[i..]) == Mutated(rule, start, loaded, todo, script)
      {
        assert todo[i..][1..] == todo[i + 1..] && script[i..][1..] == script[i + 1..];
        if todo[i].Some? {
          var aborted := Attempt(loaded, todo[i].value, script[i]);
          if aborted {
            return;
          }
        }
        i := i + 1;
      }
    }

    method EvaluateRule(breaches: seq<Option<string>>, now: int, attempts: seq<Attempt>)
      requires Inv(rule, Model())
      requires |attempts| == |breaches| && Timely(attempts, now) && now >= clock
      modifies this
      ensures Model() == Evaluated(rule, old(Model()), breaches, now, attempts)
      ensures old(log) <= log && Does(rule, old(Model()), breaches, now, log[|old(log)|..])
      ensures Inv(rule, Model())
    {
      EvaluationDoes(rule, Model(), breaches, now, attempts);
      EvaluationKeepsInv(rule, Model(), breaches, now, attempts);
      if ActsOnBreach(rule) {
        ExecuteMutations(breaches, now, attempts);
      } else {
        log := log + Alerts(SliceTo(breaches, rule.maxActionsPerRun), now);
        clock := now;
      }
    }
  }
}
