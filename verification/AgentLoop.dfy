// AiService.run's loop, driven by an arbitrary provider: what each request's
// transcript looks like, what is executed, audited, metered and left pending.
module AgentLoop {
  import opened Prelude

  const MAX_PASSES := 6
  const MAX_TRUNCATED_RETRIES := 1
  const NOT_EXECUTED := "Not executed yet"
  const NOT_RUN := "Not run"

  // ---- the neutral protocol ---------------------------------------------------

  datatype Call = Call(id: string, name: string, input: string)

  datatype ToolResult = ToolResult(id: string, name: string, content: string, isError: bool)

  // The provider's own content: text, a tool call, or a block with no neutral
  // equivalent (thinking, server-side MCP).
  datatype Block = TextBlock(text: string) | CallBlock(call: Call) | OtherBlock(kind: string)

  datatype Message =
    | User(content: string)
    | Assistant(content: string, calls: seq<Call>, raw: Option<seq<Block>>)
    | Tool(results: seq<ToolResult>)

  datatype Stop = End | ToolUse | Pause | Truncated

  datatype Usage = Usage(input: nat, output: nat, cacheWrites: nat, cacheReads: nat, cost: Option<real>,
                         model: Option<string>)

  datatype Action = Action(app: string, tool: string, isError: bool)

  datatype Response = Response(text: string, calls: seq<Call>, remote: seq<Action>, usage: Usage, stop: Stop,
                               raw: seq<Block>)

  // What one create call does. The provider may do anything on each call.
  datatype Outcome = Reply(response: Response) | McpUnreachable | Failure

  type Provider = nat -> Outcome

  datatype ToolOutcome = ToolOutcome(content: string, isError: bool)

  // The n-th executed call's outcome, whatever it is.
  type ToolWorld = nat -> ToolOutcome

  // Either connected apps are bridged into tools (name -> app), or servers are
  // handed to the provider.
  datatype Connectors = Bridged(apps: map<string, string>) | Remote(servers: nat)

  datatype Config = Config(
    connectors: Connectors,
    metaWrites: set<string>,
    localApps: map<string, string>,
    buttons: bool)

  // ---- one tool call ----------------------------------------------------------

  datatype Dispatch = ToBridge(call: Call) | ToLocal(call: Call) | Deferred(call: Call)

  predicate IsBridged(cfg: Config, name: string) {
    cfg.connectors.Bridged? && name in cfg.connectors.apps
  }

  // In button mode a Meta write is deferred to an approval, never dispatched.
  function Route(cfg: Config, call: Call): Dispatch {
    if IsBridged(cfg, call.name) then ToBridge(call)
    else if cfg.buttons && call.name in cfg.metaWrites then Deferred(call)
    else ToLocal(call)
  }

  function ResultOf(cfg: Config, tools: ToolWorld, k: nat, call: Call): ToolResult {
    if Route(cfg, call).Deferred? then ToolResult(call.id, call.name, NOT_EXECUTED, false)
    else ToolResult(call.id, call.name, tools(k).content, tools(k).isError)
  }

  function AppFor(cfg: Config, name: string): string {
    if IsBridged(cfg, name) then cfg.connectors.apps[name]
    else if name in cfg.localApps then cfg.localApps[name]
    else "spaces"
  }

  function ActionOf(cfg: Config, tools: ToolWorld, k: nat, call: Call): Action {
    Action(AppFor(cfg, call.name), call.name, ResultOf(cfg, tools, k, call).isError)
  }

  function Results(cfg: Config, tools: ToolWorld, k: nat, calls: seq<Call>): seq<ToolResult>
    decreases |calls|
  {
    if calls == [] then [] else [ResultOf(cfg, tools, k, calls[0])] + Results(cfg, tools, k + 1, calls[1..])
  }

  function ActionsFor(cfg: Config, tools: ToolWorld, k: nat, calls: seq<Call>): seq<Action>
    decreases |calls|
  {
    if calls == [] then [] else [ActionOf(cfg, tools, k, calls[0])] + ActionsFor(cfg, tools, k + 1, calls[1..])
  }

  function Routes(cfg: Config, calls: seq<Call>): seq<Dispatch> {
    if calls == [] then [] else [Route(cfg, calls[0])] + Routes(cfg, calls[1..])
  }

  function Refusals(calls: seq<Call>): seq<ToolResult> {
    if calls == [] then []
    else [ToolResult(calls[0].id, calls[0].name, NOT_RUN, true)] + Refusals(calls[1..])
  }

  // ---- a whole run, as a function of the replies received ---------------------

  predicate Executes(r: Response) {
    r.stop.ToolUse? && r.calls != []
  }

  predicate CutOff(r: Response) {
    r.stop.Truncated? && r.calls != []
  }

  function Executed(responses: seq<Response>): seq<Call> {
    if responses == [] then []
    else
      var r := responses[|responses| - 1];
      Executed(responses[..|responses| - 1]) + if Executes(r) then r.calls else []
  }

  function CutOffs(responses: seq<Response>): nat {
    |Filter(responses, (r: Response) => CutOff(r))|
  }

  // What the transcript gains from the last reply.
  function Turns(cfg: Config, tools: ToolWorld, responses: seq<Response>): seq<Message>
    requires responses != []
  {
    var r := responses[|responses| - 1];
    var k := |Executed(responses[..|responses| - 1])|;
    if Executes(r) then [Assistant(r.text, r.calls, Some(r.raw)), Tool(Results(cfg, tools, k, r.calls))]
    else if CutOff(r) && CutOffs(responses) <= MAX_TRUNCATED_RETRIES then
      [Assistant(r.text, r.calls, Some(r.raw)), Tool(Refusals(r.calls))]
    else if r.stop.Pause? then [Assistant(r.text, [], Some(r.raw))]
    else []
  }

  function Transcript(cfg: Config, tools: ToolWorld, start: seq<Message>, responses: seq<Response>): seq<Message> {
    if responses == [] then start
    else Transcript(cfg, tools, start, responses[..|responses| - 1]) + Turns(cfg, tools, responses)
  }

  function Audit(cfg: Config, tools: ToolWorld, responses: seq<Response>): seq<Action> {
    if responses == [] then []
    else
      var r, before := responses[|responses| - 1], responses[..|responses| - 1];
      Audit(cfg, tools, before) + r.remote
      + if Executes(r) then ActionsFor(cfg, tools, |Executed(before)|, r.calls) else []
  }

  // The loop goes round again after these replies.
  predicate Continues(responses: seq<Response>)
    requires responses != []
  {
    var r := responses[|responses| - 1];
    Executes(r) || r.stop.Pause? || (CutOff(r) && CutOffs(responses) <= MAX_TRUNCATED_RETRIES)
  }

  datatype Metered = Metered(input: nat, output: nat, cacheWrites: nat, cacheReads: nat, cost: Option<real>,
                             model: Option<string>)

  function AddCost(total: Option<real>, next: Option<real>): Option<real> {
    if next.None? then total else Some(total.GetOr(0.0) + next.value)
  }

  function Meter(m: Metered, u: Usage): Metered {
    Metered(m.input + u.input, m.output + u.output, m.cacheWrites + u.cacheWrites, m.cacheReads + u.cacheReads,
            AddCost(m.cost, u.cost), if u.model.Some? && u.model.value != "" then u.model else m.model)
  }

  function MeterAll(responses: seq<Response>): Metered {
    if responses == [] then Metered(0, 0, 0, 0, None, None)
    else Meter(MeterAll(responses[..|responses| - 1]), responses[|responses| - 1].usage)
  }

  function ReportedCost(responses: seq<Response>): real {
    if responses == [] then 0.0
    else ReportedCost(responses[..|responses| - 1]) + responses[|responses| - 1].usage.cost.GetOr(0.0)
  }

  predicate NamesModel(r: Response) {
    r.usage.model.Some? && r.usage.model.value != ""
  }

  // m adds the replies up: tokens of each kind, the costs reported if any is, and
  // the model last named.
  ghost predicate SumsUp(m: Metered, responses: seq<Response>) {
    && m.input == SumBy(responses, (r: Response) => r.usage.input)
    && m.output == SumBy(responses, (r: Response) => r.usage.output)
    && m.cacheWrites == SumBy(responses, (r: Response) => r.usage.cacheWrites)
    && m.cacheReads == SumBy(responses, (r: Response) => r.usage.cacheReads)
    && (m.cost.None? <==> forall r | r in responses :: r.usage.cost.None?)
    && (m.cost.Some? ==> m.cost.value == ReportedCost(responses))
    && (m.model.None? <==> forall r | r in responses :: !NamesModel(r))
    && (m.model.Some? ==> LastNamed(responses, m.model.value))
  }

  ghost predicate LastNamed(responses: seq<Response>, name: string) {
    exists i | 0 <= i < |responses| ::
      && NamesModel(responses[i]) && responses[i].usage.model == Some(name)
      && forall j | i < j < |responses| :: !NamesModel(responses[j])
  }

  lemma TokensAddUp(responses: seq<Response>, r: Response)
    ensures SumBy(responses + [r], (x: Response) => x.usage.input)
         == SumBy(responses, (x: Response) => x.usage.input) + r.usage.input
    ensures SumBy(responses + [r], (x: Response) => x.usage.output)
         == SumBy(responses, (x: Response) => x.usage.output) + r.usage.output
    ensures SumBy(responses + [r], (x: Response) => x.usage.cacheWrites)
         == SumBy(responses, (x: Response) => x.usage.cacheWrites) + r.usage.cacheWrites
    ensures SumBy(responses + [r], (x: Response) => x.usage.cacheReads)
         == SumBy(responses, (x: Response) => x.usage.cacheReads) + r.usage.cacheReads
  {
    SumBySnoc(responses, r, (x: Response) => x.usage.input);
    SumBySnoc(responses, r, (x: Response) => x.usage.output);
    SumBySnoc(responses, r, (x: Response) => x.usage.cacheWrites);
    SumBySnoc(responses, r, (x: Response) => x.usage.cacheReads);
  }

  lemma CostsAddUp(responses: seq<Response>, r: Response, cost: Option<real>)
    requires cost.None? <==> forall x | x in responses :: x.usage.cost.None?
    requires cost.Some? ==> cost.value == ReportedCost(responses)
    ensures AddCost(cost, r.usage.cost).None? <==> forall x | x in responses + [r] :: x.usage.cost.None?
    ensures AddCost(cost, r.usage.cost).Some? ==> AddCost(cost, r.usage.cost).value == ReportedCost(responses + [r])
  {
    assert (responses + [r])[..|responses|] == responses;
    assert r in responses + [r] && forall x | x in responses :: x in responses + [r];
    if cost.None? {
      NothingReported(responses);
    }
  }

  lemma {:induction false} NothingReported(responses: seq<Response>)
    requires forall x | x in responses :: x.usage.cost.None?
    ensures ReportedCost(responses) == 0.0
  {
    if responses != [] {
      var init := responses[..|responses| - 1];
      assert responses[|responses| - 1] in responses && forall x | x in init :: x in responses;
      NothingReported(init);
    }
  }

  lemma ModelIsLast(responses: seq<Response>, r: Response, model: Option<string>)
    requires model.None? <==> forall x | x in responses :: !NamesModel(x)
    requires model.Some? ==> LastNamed(responses, model.value)
    ensures
      var next := if NamesModel(r) then r.usage.model else model;
      && (next.None? <==> forall x | x in responses + [r] :: !NamesModel(x))
      && (next.Some? ==> LastNamed(responses + [r], next.value))
  {
    var all := responses + [r];
    assert r in all && forall x | x in responses :: x in all;
    if NamesModel(r) {
      assert all[|responses|] == r;
      assert LastNamed(all, r.usage.model.value);
    } else if model.Some? {
      var i :| 0 <= i < |responses| && NamesModel(responses[i]) && responses[i].usage.model == Some(model.value)
               && forall j | i < j < |responses| :: !NamesModel(responses[j]);
      assert all[i] == responses[i];
      assert forall j | i < j < |all| :: !NamesModel(all[j]);
      assert LastNamed(all, model.value);
    }
  }

  // Metering reply by reply is adding them up.
  lemma {:induction false} MeterAllSumsUp(responses: seq<Response>)
    ensures SumsUp(MeterAll(responses), responses)
  {
    if responses != [] {
      var init, last := responses[..|responses| - 1], responses[|responses| - 1];
      MeterAllSumsUp(init);
      assert responses == init + [last];
      TokensAddUp(init, last);
      CostsAddUp(init, last, MeterAll(init).cost);
      ModelIsLast(init, last, MeterAll(init).model);
    }
  }

  // The replies among the first n create calls.
  function Replies(provider: Provider, n: nat): seq<Response> {
    if n == 0 then []
    else Replies(provider, n - 1) + if provider(n - 1).Reply? then [provider(n - 1).response] else []
  }

  datatype Request = Request(messages: seq<Message>, servers: nat)

  function FirstDeferred(routes: seq<Dispatch>): Option<Call> {
    if routes == [] then None
    else if routes[0].Deferred? then Some(routes[0].call)
    else FirstDeferred(routes[1..])
  }

  // ---- the loop ---------------------------------------------------------------

  lemma {:induction false} ResultsAppend(cfg: Config, tools: ToolWorld, k: nat, calls: seq<Call>, i: nat)
    requires i < |calls|
    ensures Results(cfg, tools, k, calls[..i + 1])
         == Results(cfg, tools, k, calls[..i]) + [ResultOf(cfg, tools, k + i, calls[i])]
    ensures ActionsFor(cfg, tools, k, calls[..i + 1])
         == ActionsFor(cfg, tools, k, calls[..i]) + [ActionOf(cfg, tools, k + i, calls[i])]
    ensures Routes(cfg, calls[..i + 1]) == Routes(cfg, calls[..i]) + [Route(cfg, calls[i])]
    decreases |calls|
  {
    if i > 0 {
      ResultsAppend(cfg, tools, k + 1, calls[1..], i - 1);
      assert calls[..i + 1][1..] == calls[1..][..i] && calls[..i][1..] == calls[1..][..i - 1];
    } else {
      assert calls[..1][1..] == [];
    }
  }

  lemma {:induction false} FirstDeferredAppend(a: seq<Dispatch>, b: seq<Dispatch>)
    ensures FirstDeferred(a + b) == if FirstDeferred(a).Some? then FirstDeferred(a) else FirstDeferred(b)
  {
    if a == [] {
      assert a + b == b;
    } else {
      assert (a + b)[1..] == a[1..] + b;
      FirstDeferredAppend(a[1..], b);
    }
  }

  // One call's answer, audit entry and fate: a bridged tool goes out to its app; of
  // the local ones a Meta write in button mode is not run and not an error, and any
  // other is run; what was run answers with its own outcome.
  ghost predicate Answered(cfg: Config, outcome: ToolOutcome, call: Call, result: ToolResult, action: Action,
                           d: Dispatch) {
    var bridged := cfg.connectors.Bridged? && call.name in cfg.connectors.apps;
    var held := !bridged && cfg.buttons && call.name in cfg.metaWrites;
    && result.id == call.id && result.name == call.name
    && result.content == (if held then "Not executed yet" else outcome.content)
    && result.isError == (!held && outcome.isError)
    && action.tool == call.name && action.isError == result.isError
    && (bridged ==> action.app == cfg.connectors.apps[call.name])
    && (!bridged && call.name in cfg.localApps ==> action.app == cfg.localApps[call.name])
    && d == (if bridged then ToBridge(call) else if held then Deferred(call) else ToLocal(call))
  }

  lemma {:induction false} CallsAnswered(cfg: Config, tools: ToolWorld, k: nat, calls: seq<Call>, i: nat)
    requires i < |calls|
    ensures |Results(cfg, tools, k, calls)| == |ActionsFor(cfg, tools, k, calls)| == |Routes(cfg, calls)| == |calls|
    ensures Answered(cfg, tools(k + i), calls[i], Results(cfg, tools, k, calls)[i], ActionsFor(cfg, tools, k, calls)[i],
                     Routes(cfg, calls)[i])
    decreases |calls|
  {
    if |calls| > 1 {
      CallsAnswered(cfg, tools, k + 1, calls[1..], if i > 0 then i - 1 else 0);
    }
    if i > 0 {
      assert calls[i] == calls[1..][i - 1];
    }
  }

  // Run every call of one reply, in order; the first deferred write is kept.
  method RunCalls(cfg: Config, tools: ToolWorld, k: nat, calls: seq<Call>, before: Option<Call>)
    returns (results: seq<ToolResult>, actions: seq<Action>, dispatched: seq<Dispatch>, pending: Option<Call>)
    ensures results == Results(cfg, tools, k, calls)
    ensures actions == ActionsFor(cfg, tools, k, calls)
    ensures dispatched == Routes(cfg, calls)
    ensures |results| == |actions| == |dispatched| == |calls|
    ensures forall i | 0 <= i < |calls| :: Answered(cfg, tools(k + i), calls[i], results[i], actions[i], dispatched[i])
    ensures pending == if before.Some? then before else FirstDeferred(Routes(cfg, calls))
  {
    results, actions, dispatched, pending := [], [], [], before;
    for i := 0 to |calls|
      invariant results == Results(cfg, tools, k, calls[..i])
      invariant actions == ActionsFor(cfg, tools, k, calls[..i])
      invariant dispatched == Routes(cfg, calls[..i])
      invariant pending == if before.Some? then before else FirstDeferred(Routes(cfg, calls[..i]))
    {
      ResultsAppend(cfg, tools, k, calls, i);
      FirstDeferredAppend(Routes(cfg, calls[..i]), [Route(cfg, calls[i])]);
      var call := calls[i];
      var route := Route(cfg, call);
      if route.Deferred? && pending.None? {
        pending := Some(call);
      }
      dispatched := dispatched + [route];
      results := results + [ResultOf(cfg, tools, k + i, call)];
      actions := actions + [ActionOf(cfg, tools, k + i, call)];
    }
    assert calls[..|calls|] == calls;
    forall i | 0 <= i < |calls|
      ensures |results| == |actions| == |dispatched| == |calls|
      ensures Answered(cfg, tools(k + i), calls[i], results[i], actions[i], dispatched[i])
    {
      CallsAnswered(cfg, tools, k, calls, i);
    }
  }

  lemma {:induction false} RefusalsFacts(calls: seq<Call>)
    ensures |Refusals(calls)| == |calls|
    ensures forall i | 0 <= i < |calls| ::
              Refusals(calls)[i].id == calls[i].id && Refusals(calls)[i].name == calls[i].name
                                        && Refusals(calls)[i].isError && Refusals(calls)[i].content == "Not run"
  {
    if calls != [] {
      RefusalsFacts(calls[1..]);
    }
  }

  lemma {:induction false} RoutesAppend(cfg: Config, a: seq<Call>, b: seq<Call>)
    ensures Routes(cfg, a + b) == Routes(cfg, a) + Routes(cfg, b)
  {
    if a == [] {
      assert a + b == b;
    } else {
      assert (a + b)[1..] == a[1..] + b;
      RoutesAppend(cfg, a[1..], b);
    }
  }

  datatype RunResult = Threw | Returned(actions: seq<Action>, pending: Option<Call>)

  // What the loop holds after these replies; all of it a function of them.
  ghost predicate LoopState(cfg: Config, tools: ToolWorld, start: seq<Message>, responses: seq<Response>,
                            messages: seq<Message>, actions: seq<Action>, dispatched: seq<Dispatch>,
                            pending: Option<Call>, truncations: nat) {
    && messages == Transcript(cfg, tools, start, responses)
    && actions == Audit(cfg, tools, responses)
    && dispatched == Routes(cfg, Executed(responses))
    && pending == FirstDeferred(dispatched)
    && truncations == CutOffs(responses)
  }

  lemma ReplyStep(cfg: Config, tools: ToolWorld, start: seq<Message>, before: seq<Response>, r: Response)
    ensures
      var after := before + [r];
      && Executed(after) == Executed(before) + (if Executes(r) then r.calls else [])
      && Audit(cfg, tools, after) == Audit(cfg, tools, before) + r.remote
           + (if Executes(r) then ActionsFor(cfg, tools, |Executed(before)|, r.calls) else [])
      && MeterAll(after) == Meter(MeterAll(before), r.usage)
      && CutOffs(after) == CutOffs(before) + (if CutOff(r) then 1 else 0)
      && Transcript(cfg, tools, start, after) == Transcript(cfg, tools, start, before) + Turns(cfg, tools, after)
  {
    var after := before + [r];
    assert after[..|after| - 1] == before;
    FilterAppend(before, [r], (x: Response) => CutOff(x));
    if CutOff(r) {
      FilterAll([r], (x: Response) => CutOff(x));
    } else {
      FilterNone([r], (x: Response) => CutOff(x));
    }
  }

  // One audit entry for each call, in order.
  ghost predicate AuditsCalls(actions: seq<Action>, calls: seq<Call>) {
    |actions| == |calls| && forall i | 0 <= i < |calls| :: actions[i].tool == calls[i].name
  }

  lemma {:induction false} ActionsAudit(cfg: Config, tools: ToolWorld, k: nat, calls: seq<Call>)
    ensures AuditsCalls(ActionsFor(cfg, tools, k, calls), calls)
    decreases |calls|
  {
    if calls != [] {
      ActionsAudit(cfg, tools, k + 1, calls[1..]);
    }
  }

  // What one more reply does: tool calls that are whole are run and followed up; cut
  // off, they are not run, and followed up the first time only; a pause is followed up
  // and runs nothing; any other reply is the last.
  lemma ReplyDecides(cfg: Config, tools: ToolWorld, before: seq<Response>, r: Response)
    ensures
      var after := before + [r];
      var called, cut := r.stop == ToolUse && r.calls != [], r.stop == Truncated && r.calls != [];
      && Executed(after) == Executed(before) + (if called then r.calls else [])
      && Audit(cfg, tools, before) + r.remote <= Audit(cfg, tools, after)
      && AuditsCalls(Audit(cfg, tools, after)[|Audit(cfg, tools, before)| + |r.remote|..],
                     if called then r.calls else [])
      && CutOffs(after) == CutOffs(before) + (if cut then 1 else 0)
      && (Continues(after) <==> called || (cut && CutOffs(before) == 0) || r.stop == Pause)
  {
    ReplyStep(cfg, tools, [], before, r);
    var shown := Audit(cfg, tools, before) + r.remote;
    var added := if Executes(r) then ActionsFor(cfg, tools, |Executed(before)|, r.calls) else [];
    assert Audit(cfg, tools, before + [r]) == shown + added;
    assert Audit(cfg, tools, before + [r])[|shown|..] == added;
    ActionsAudit(cfg, tools, |Executed(before)|, r.calls);
    assert (before + [r])[..|before|] == before;
  }

  // Act on one reply: run its calls, refuse cut-off ones once, re-send a pause.
  method FollowUp(cfg: Config, tools: ToolWorld, ghost start: seq<Message>, ghost before: seq<Response>, r: Response,
                  messages0: seq<Message>, actions0: seq<Action>, dispatched0: seq<Dispatch>, pending0: Option<Call>,
                  truncations0: nat)
    returns (again: bool, messages: seq<Message>, actions: seq<Action>, dispatched: seq<Dispatch>,
             pending: Option<Call>, truncations: nat)
    requires LoopState(cfg, tools, start, before, messages0, actions0, dispatched0, pending0, truncations0)
    ensures LoopState(cfg, tools, start, before + [r], messages, actions, dispatched, pending, truncations)
    ensures again == Continues(before + [r])
  {
    ReplyStep(cfg, tools, start, before, r);
    ghost var after := before + [r];
    assert after[..|after| - 1] == before;
    messages, actions, dispatched, pending, truncations :=
      messages0, actions0 + r.remote, dispatched0, pending0, truncations0;
    if r.stop.ToolUse? && r.calls != [] {
      RoutesLength(cfg, Executed(before));
      var results, audited, routes, first := RunCalls(cfg, tools, |dispatched|, r.calls, pending);
      RoutesAppend(cfg, Executed(before), r.calls);
      FirstDeferredAppend(dispatched, routes);
      actions := actions + audited;
      dispatched := dispatched + routes;
      pending := first;
      messages := messages + [Assistant(r.text, r.calls, Some(r.raw)), Tool(results)];
      return true, messages, actions, dispatched, pending, truncations;
    }
    assert Executed(before) + [] == Executed(before);
    if r.stop.Truncated? && r.calls != [] {
      truncations := truncations + 1;
      if truncations > MAX_TRUNCATED_RETRIES {
        assert messages + [] == messages;
        return false, messages, actions, dispatched, pending, truncations;
      }
      messages := messages + [Assistant(r.text, r.calls, Some(r.raw)), Tool(Refusals(r.calls))];
      return true, messages, actions, dispatched, pending, truncations;
    }
    if r.stop.Pause? {
      messages := messages + [Assistant(r.text, [], Some(r.raw))];
      return true, messages, actions, dispatched, pending, truncations;
    }
    assert messages + [] == messages;
    again := false;
  }

  // The create call, tried once more without servers if they are unreachable.
  method Create(provider: Provider, made: nat, servers: nat)
    returns (reply: Option<Response>, calls: nat, left: nat)
    ensures 1 <= calls <= 2 && (calls == 2 ==> provider(made).McpUnreachable? && servers > 0)
    ensures left == if calls == 2 then 0 else servers
    ensures reply.Some? ==> provider(made + calls - 1) == Reply(reply.value)
    ensures reply.None? ==> !provider(made + calls - 1).Reply?
    ensures reply.None? && calls == 1 ==> servers == 0 || !provider(made).McpUnreachable?
  {
    var outcome := provider(made);
    if outcome.Reply? {
      return Some(outcome.response), 1, servers;
    }
    if servers == 0 || !outcome.McpUnreachable? {
      return None, 1, servers;
    }
    outcome := provider(made + 1);
    reply := if outcome.Reply? then Some(outcome.response) else None;
    calls, left := 2, 0;
  }

  ghost predicate AllReply(provider: Provider, n: nat) {
    forall j | 0 <= j < n :: provider(j).Reply?
  }

  function Servers(cfg: Config): nat {
    if cfg.connectors.Remote? then cfg.connectors.servers else 0
  }

  // n calls with `replies` replies among them: all replied, or one was retried.
  ghost predicate Calls(provider: Provider, n: nat, responses: seq<Response>) {
    && responses == Replies(provider, n)
    && |responses| <= n <= |responses| + 1
    && (n == |responses| <==> AllReply(provider, n))
  }

  // The i-th request: the transcript of the replies before it, and the servers
  // for as long as every create call was answered.
  ghost function Expected(cfg: Config, tools: ToolWorld, start: seq<Message>, provider: Provider, i: nat): Request {
    Request(Transcript(cfg, tools, start, Replies(provider, i)), if AllReply(provider, i) then Servers(cfg) else 0)
  }

  ghost predicate SentAt(cfg: Config, tools: ToolWorld, start: seq<Message>, provider: Provider,
                         sent: seq<Request>, i: nat)
    requires i < |sent|
  {
    sent[i] == Expected(cfg, tools, start, provider, i)
  }

  ghost predicate SentSoFar(cfg: Config, tools: ToolWorld, start: seq<Message>, provider: Provider,
                            sent: seq<Request>) {
    forall i | 0 <= i < |sent| :: SentAt(cfg, tools, start, provider, sent, i)
  }

  // The requests one pass makes: one, or two when the servers were dropped.
  function Attempts(messages: seq<Message>, servers: nat, calls: nat): seq<Request> {
    if calls == 2 then [Request(messages, servers), Request(messages, 0)] else [Request(messages, servers)]
  }

  lemma SendOne(cfg: Config, tools: ToolWorld, start: seq<Message>, provider: Provider, sent: seq<Request>,
                next: Request)
    requires SentSoFar(cfg, tools, start, provider, sent)
    requires next == Expected(cfg, tools, start, provider, |sent|)
    ensures SentSoFar(cfg, tools, start, provider, sent + [next])
  {
    forall i | 0 <= i < |sent| + 1 ensures SentAt(cfg, tools, start, provider, sent + [next], i) {
      if i < |sent| {
        assert SentAt(cfg, tools, start, provider, sent, i);
      }
    }
  }

  lemma NoReply(provider: Provider, n: nat)
    requires !provider(n).Reply?
    ensures Replies(provider, n + 1) == Replies(provider, n) && !AllReply(provider, n + 1)
  {
    assert Replies(provider, n + 1) == Replies(provider, n) + [];
  }

  lemma PassSends(cfg: Config, tools: ToolWorld, start: seq<Message>, provider: Provider, sent: seq<Request>,
                  responses: seq<Response>, messages: seq<Message>, servers: nat, calls: nat)
    requires SentSoFar(cfg, tools, start, provider, sent) && responses == Replies(provider, |sent|)
    requires messages == Transcript(cfg, tools, start, responses)
    requires servers == if AllReply(provider, |sent|) then Servers(cfg) else 0
    requires 1 <= calls <= 2 && (calls == 2 ==> !provider(|sent|).Reply?)
    ensures SentSoFar(cfg, tools, start, provider, sent + Attempts(messages, servers, calls))
  {
    var one := Request(messages, servers);
    SendOne(cfg, tools, start, provider, sent, one);
    if calls == 2 {
      NoReply(provider, |sent|);
      SendOne(cfg, tools, start, provider, sent + [one], Request(messages, 0));
      assert sent + [one] + [Request(messages, 0)] == sent + Attempts(messages, servers, 2);
    }
  }

  lemma PassReplies(provider: Provider, n: nat, responses: seq<Response>, calls: nat, r: Response)
    requires Calls(provider, n, responses) && 1 <= calls <= 2
    requires calls == 2 ==> !provider(n).Reply? && AllReply(provider, n)
    requires provider(n + calls - 1) == Reply(r)
    ensures Calls(provider, n + calls, responses + [r])
    ensures AllReply(provider, n + calls) <==> calls == 1 && AllReply(provider, n)
  {
    if calls == 2 {
      NoReply(provider, n);
      assert !AllReply(provider, n + 2);
    }
  }

  ghost predicate ContinuesAfter(responses: seq<Response>, k: nat)
    requires 0 < k <= |responses|
  {
    Continues(responses[..k])
  }

  ghost predicate GoesOn(responses: seq<Response>, n: nat) {
    n <= |responses| && forall k | 0 < k <= n :: ContinuesAfter(responses, k)
  }

  lemma GoesOnStep(before: seq<Response>, r: Response)
    requires GoesOn(before, |before|)
    ensures GoesOn(before + [r], |before|)
    ensures Continues(before + [r]) ==> GoesOn(before + [r], |before| + 1)
  {
    var after := before + [r];
    assert after[..|after|] == after;
    forall k | 0 < k <= |before| ensures ContinuesAfter(after, k) {
      assert ContinuesAfter(before, k);
      assert after[..k] == before[..k];
    }
  }

  // A failed create call is made once more only if servers were attached to it
  // and could not be reached; every earlier call was answered then.
  ghost predicate Retryable(cfg: Config, provider: Provider, n: nat) {
    provider(n).McpUnreachable? && Servers(cfg) > 0 && AllReply(provider, n)
  }

  // Call j leads to another one, passes permitting.
  ghost predicate LeadsOn(cfg: Config, provider: Provider, j: nat) {
    if provider(j).Reply? then Replies(provider, j + 1) != [] && Continues(Replies(provider, j + 1))
    else Retryable(cfg, provider, j)
  }

  ghost predicate AllLeadOn(cfg: Config, provider: Provider, n: nat) {
    forall j | 0 <= j < n :: LeadsOn(cfg, provider, j)
  }

  // A run of n create calls: each of them leads on but the last, and the run
  // throws exactly when that one is not answered.
  ghost predicate Ends(cfg: Config, provider: Provider, n: nat, threw: bool) {
    && n > 0 && AllLeadOn(cfg, provider, n - 1)
    && |Replies(provider, n - 1)| < MAX_PASSES
    && (|Replies(provider, n)| == MAX_PASSES || !LeadsOn(cfg, provider, n - 1))
    && (threw <==> !provider(n - 1).Reply?)
  }

  lemma {:induction false} RepliesGrow(provider: Provider, m: nat, n: nat)
    requires m <= n
    ensures |Replies(provider, m)| <= |Replies(provider, n)|
    decreases n
  {
    if m < n {
      RepliesGrow(provider, m, n - 1);
    }
  }

  lemma EndsNoEarlier(cfg: Config, provider: Provider, m: nat, n: nat, a: bool, b: bool)
    requires Ends(cfg, provider, m, a) && Ends(cfg, provider, n, b)
    ensures m >= n
  {
    if m < n {
      RepliesGrow(provider, m, n - 1);
    }
  }

  // The provider's behaviour alone decides how many calls a run makes and
  // whether it throws.
  lemma EndsOnce(cfg: Config, provider: Provider, m: nat, n: nat, a: bool, b: bool)
    requires Ends(cfg, provider, m, a) && Ends(cfg, provider, n, b)
    ensures m == n && a == b
  {
    EndsNoEarlier(cfg, provider, m, n, a, b);
    EndsNoEarlier(cfg, provider, n, m, b, a);
  }

  // The calls made so far, between two passes; `again` when another is due.
  ghost predicate Trace(cfg: Config, provider: Provider, n: nat, responses: seq<Response>, servers: nat, again: bool) {
    && Calls(provider, n, responses)
    && servers == (if AllReply(provider, n) then Servers(cfg) else 0)
    && (again ==> AllLeadOn(cfg, provider, n))
    && (!again ==> n > 0 && AllLeadOn(cfg, provider, n - 1) && !LeadsOn(cfg, provider, n - 1))
    && (n > 0 ==> provider(n - 1).Reply? && |Replies(provider, n - 1)| + 1 == |responses|)
  }

  // What Create found out about its one or two calls.
  ghost predicate Created(provider: Provider, n: nat, servers: nat, calls: nat) {
    && 1 <= calls <= 2
    && (calls == 2 ==> provider(n).McpUnreachable? && servers > 0)
    && (calls == 1 && !provider(n).Reply? ==> servers == 0 || !provider(n).McpUnreachable?)
  }

  // All calls of a pass but the last lead on, and add no reply.
  lemma PassLeadsOn(cfg: Config, provider: Provider, n: nat, responses: seq<Response>, servers: nat, calls: nat)
    requires Trace(cfg, provider, n, responses, servers, true) && Created(provider, n, servers, calls)
    ensures AllLeadOn(cfg, provider, n + calls - 1)
    ensures Replies(provider, n + calls - 1) == responses
    ensures AllReply(provider, n + calls - 1) <==> calls == 1 && AllReply(provider, n)
  {
    if calls == 2 {
      NoReply(provider, n);
      assert Retryable(cfg, provider, n);
      assert LeadsOn(cfg, provider, n);
    }
  }

  lemma TraceReply(cfg: Config, provider: Provider, n: nat, responses: seq<Response>, servers: nat, calls: nat,
                   r: Response)
    requires Trace(cfg, provider, n, responses, servers, true) && Created(provider, n, servers, calls)
    requires provider(n + calls - 1) == Reply(r)
    ensures Trace(cfg, provider, n + calls, responses + [r], if calls == 2 then 0 else servers,
                  Continues(responses + [r]))
  {
    PassLeadsOn(cfg, provider, n, responses, servers, calls);
    PassReplies(provider, n, responses, calls, r);
    assert Replies(provider, n + calls) == responses + [r];
    assert LeadsOn(cfg, provider, n + calls - 1) <==> Continues(responses + [r]);
  }

  lemma TraceThrow(cfg: Config, provider: Provider, n: nat, responses: seq<Response>, servers: nat, calls: nat)
    requires Trace(cfg, provider, n, responses, servers, true) && Created(provider, n, servers, calls)
    requires |responses| < MAX_PASSES && !provider(n + calls - 1).Reply?
    ensures Ends(cfg, provider, n + calls, true) && Replies(provider, n + calls) == responses
  {
    PassLeadsOn(cfg, provider, n, responses, servers, calls);
    NoReply(provider, n + calls - 1);
    assert !Retryable(cfg, provider, n + calls - 1);
  }

  // The local variables of the loop.
  datatype Loop = Loop(
    messages: seq<Message>,
    actions: seq<Action>,
    dispatched: seq<Dispatch>,
    pending: Option<Call>,
    truncations: nat,
    servers: nat,
    sent: seq<Request>,
    responses: seq<Response>,
    totals: Metered,
    again: bool)

  ghost predicate LoopInv(cfg: Config, tools: ToolWorld, start: seq<Message>, provider: Provider, l: Loop) {
    && Trace(cfg, provider, |l.sent|, l.responses, l.servers, l.again)
    && SentSoFar(cfg, tools, start, provider, l.sent)
    && LoopState(cfg, tools, start, l.responses, l.messages, l.actions, l.dispatched, l.pending, l.truncations)
    && l.totals == MeterAll(l.responses)
    && (l.again ==> GoesOn(l.responses, |l.responses|))
    && (!l.again ==> l.responses != [] && GoesOn(l.responses, |l.responses| - 1) && !Continues(l.responses))
  }

  // One pass: a create call, then the follow-up. None when the run throws.
  method Pass(cfg: Config, tools: ToolWorld, ghost start: seq<Message>, provider: Provider, l: Loop)
    returns (next: Option<Loop>, sent: seq<Request>)
    requires LoopInv(cfg, tools, start, provider, l) && l.again && |l.responses| < MAX_PASSES
    ensures next.Some? ==> LoopInv(cfg, tools, start, provider, next.value)
    ensures next.Some? ==> next.value.sent == sent && |next.value.responses| == |l.responses| + 1
    ensures SentSoFar(cfg, tools, start, provider, sent)
    ensures next.None? ==> l.responses == Replies(provider, |sent|)
    ensures next.None? ==> |l.sent| < |sent| <= |l.sent| + 2 && (l.servers == 0 ==> |sent| == |l.sent| + 1)
    ensures next.None? ==> Ends(cfg, provider, |sent|, true)
  {
    var reply, calls, left := Create(provider, |l.sent|, l.servers);
    sent := l.sent + Attempts(l.messages, l.servers, calls);
    PassSends(cfg, tools, start, provider, l.sent, l.responses, l.messages, l.servers, calls);
    if reply.None? {
      TraceThrow(cfg, provider, |l.sent|, l.responses, l.servers, calls);
      return None, sent;
    }
    var r := reply.value;
    TraceReply(cfg, provider, |l.sent|, l.responses, l.servers, calls, r);
    ReplyStep(cfg, tools, start, l.responses, r);
    GoesOnStep(l.responses, r);
    var again, messages, actions, dispatched, pending, truncations :=
      FollowUp(cfg, tools, start, l.responses, r, l.messages, l.actions, l.dispatched, l.pending, l.truncations);
    next := Some(Loop(messages, actions, dispatched, pending, truncations, left, sent, l.responses + [r],
                      Meter(l.totals, r.usage), again));
  }

  lemma ReturnedEnds(cfg: Config, tools: ToolWorld, start: seq<Message>, provider: Provider, l: Loop)
    requires LoopInv(cfg, tools, start, provider, l) && 0 < |l.responses| <= MAX_PASSES
    requires l.again ==> |l.responses| == MAX_PASSES
    ensures l.sent != [] && Ends(cfg, provider, |l.sent|, false)
  {
  }

  // How the loop was left: by running its passes, or by a throw from one of them.
  ghost predicate LoopLeft(cfg: Config, tools: ToolWorld, start: seq<Message>, provider: Provider,
                           l: Loop, sent: seq<Request>, threw: bool) {
    && LoopInv(cfg, tools, start, provider, l)
    && 1 <= |sent| <= MAX_PASSES + 1 && SentSoFar(cfg, tools, start, provider, sent)
    && l.responses == Replies(provider, |sent|)
    && Ends(cfg, provider, |sent|, threw)
    && (threw ==> l.again)
    && (!threw ==> sent == l.sent && l.responses != [] && (l.again ==> |l.responses| == MAX_PASSES))
  }

  function FreshLoop(cfg: Config, start: seq<Message>): Loop {
    Loop(start, [], [], None, 0, Servers(cfg), [], [], Metered(0, 0, 0, 0, None, None), true)
  }

  lemma FreshInv(cfg: Config, tools: ToolWorld, start: seq<Message>, provider: Provider)
    ensures LoopInv(cfg, tools, start, provider, FreshLoop(cfg, start))
  {
  }

  lemma LeftByThrow(cfg: Config, tools: ToolWorld, start: seq<Message>, provider: Provider, l: Loop, sent: seq<Request>)
    requires LoopInv(cfg, tools, start, provider, l) && l.again && |l.responses| < MAX_PASSES
    requires SentSoFar(cfg, tools, start, provider, sent) && l.responses == Replies(provider, |sent|)
    requires |l.sent| < |sent| <= |l.sent| + 2 && (l.servers == 0 ==> |sent| == |l.sent| + 1)
    requires Ends(cfg, provider, |sent|, true)
    ensures LoopLeft(cfg, tools, start, provider, l, sent, true)
  {
  }

  lemma LeftByPasses(cfg: Config, tools: ToolWorld, start: seq<Message>, provider: Provider, l: Loop)
    requires LoopInv(cfg, tools, start, provider, l) && 0 < |l.responses| <= MAX_PASSES
    requires l.again ==> |l.responses| == MAX_PASSES
    ensures LoopLeft(cfg, tools, start, provider, l, l.sent, false)
  {
    ReturnedEnds(cfg, tools, start, provider, l);
  }

  method Passes(cfg: Config, tools: ToolWorld, start: seq<Message>, provider: Provider)
    returns (l: Loop, sent: seq<Request>, threw: bool)
    ensures LoopLeft(cfg, tools, start, provider, l, sent, threw)
  {
    l := FreshLoop(cfg, start);
    FreshInv(cfg, tools, start, provider);
    var i := 0;
    while i < MAX_PASSES && l.again
      invariant 0 <= i == |l.responses| <= MAX_PASSES
      invariant LoopInv(cfg, tools, start, provider, l)
    {
      var next, requests := Pass(cfg, tools, start, provider, l);
      if next.None? {
        LeftByThrow(cfg, tools, start, provider, l, requests);
        return l, requests, true;
      }
      l := next.value;
      i := i + 1;
    }
    LeftByPasses(cfg, tools, start, provider, l);
    return l, l.sent, false;
  }

  method Run(cfg: Config, tools: ToolWorld, start: seq<Message>, provider: Provider)
    returns (res: RunResult, sent: seq<Request>, responses: seq<Response>, dispatched: seq<Dispatch>,
             totals: Metered, recorded: Option<Metered>)
    // at most seven create calls, and at most one of a completed run's fails
    ensures 1 <= |sent| <= 7
    ensures SentSoFar(cfg, tools, start, provider, sent)
    ensures sent[0] == Request(start, if cfg.connectors.Remote? then cfg.connectors.servers else 0)
    ensures responses == Replies(provider, |sent|)
    ensures res.Returned? ==> Calls(provider, |sent|, responses)
    // it goes on exactly while a reply needs following up
    ensures responses != [] ==> GoesOn(responses, |responses| - 1)
    ensures res.Returned? ==> responses != [] && (|responses| == 6 || !Continues(responses))
    // the provider alone decides how many calls are made and whether the run throws
    ensures Ends(cfg, provider, |sent|, res.Threw?)
    // calls are executed once each, in order, and audited so
    ensures dispatched == Routes(cfg, Executed(responses))
    ensures res.Returned? ==> res.actions == Audit(cfg, tools, responses)
    ensures res.Returned? ==> res.pending == FirstDeferred(dispatched)
    // usage is the sum of all replies; a run whose last call fails records nothing
    ensures totals == MeterAll(responses) && SumsUp(totals, responses)
    ensures recorded ==
            if provider(|sent| - 1).Reply? && totals.input + totals.output > 0 then Some(totals) else None
    ensures recorded == if res.Returned? && totals.input + totals.output > 0 then Some(totals) else None
  {
    var l, requests, threw := Passes(cfg, tools, start, provider);
    MeterAllSumsUp(l.responses);
    assert SentAt(cfg, tools, start, provider, requests, 0);
    recorded := None;
    if threw {
      return Threw, requests, l.responses, l.dispatched, l.totals, None;
    }
    if l.totals.input + l.totals.output > 0 {
      recorded := Some(l.totals);
    }
    return Returned(l.actions, l.pending), requests, l.responses, l.dispatched, l.totals, recorded;
  }

  lemma RepliesOfTwo(provider: Provider, r: Response)
    requires provider(0) == Reply(r) && !provider(1).Reply?
    ensures Replies(provider, 0) == [] && Replies(provider, 1) == [r] && Replies(provider, 2) == [r]
  {
    assert Replies(provider, 1) == [] + [r];
    NoReply(provider, 1);
  }

  // A first reply that needs following up, then a failure: two calls are made, the
  // run throws, and the one reply received, whatever it used, is on no record.
  lemma ThrownRunLosesUsage(cfg: Config, provider: Provider, r: Response)
    requires provider(0) == Reply(r) && Continues([r]) && provider(1).Failure?
    ensures Ends(cfg, provider, 2, true)
    ensures Replies(provider, 2) == [r] && !provider(1).Reply?
  {
    RepliesOfTwo(provider, r);
    assert [r][..0] == [];
  }

  lemma {:induction false} RoutesLength(cfg: Config, calls: seq<Call>)
    ensures |Routes(cfg, calls)| == |calls|
    ensures forall i | 0 <= i < |calls| :: Routes(cfg, calls)[i] == Route(cfg, calls[i])
  {
    if calls != [] {
      RoutesLength(cfg, calls[1..]);
    }
  }
}
