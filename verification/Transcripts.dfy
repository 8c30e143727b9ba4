// The tool-call protocol over every run of the loop, and what each vendor's
// rendering makes of it.
module Transcripts {
  import opened Prelude
  import opened AgentLoop

  // ---- the neutral protocol -----------------------------------------------------

  // The results answer exactly these calls, in order.
  ghost predicate Answers(calls: seq<Call>, results: seq<ToolResult>) {
    && |results| == |calls|
    && forall k | 0 <= k < |calls| :: results[k].id == calls[k].id && results[k].name == calls[k].name
  }

  ghost predicate TurnOk(ms: seq<Message>, i: nat)
    requires i < |ms|
  {
    match ms[i]
    case User(_) => true
    case Assistant(_, calls, _) => calls != [] ==> i + 1 < |ms| && ms[i + 1].Tool? && Answers(calls, ms[i + 1].results)
    case Tool(_) => i > 0 && ms[i - 1].Assistant? && ms[i - 1].calls != []
  }

  // Every assistant turn with calls is followed at once by one tool turn
  // answering them; no tool turn appears otherwise.
  ghost predicate WellFormed(ms: seq<Message>) {
    forall i | 0 <= i < |ms| :: TurnOk(ms, i)
  }

  lemma WellFormedAppend(a: seq<Message>, b: seq<Message>)
    requires WellFormed(a) && WellFormed(b)
    ensures WellFormed(a + b)
  {
    var all := a + b;
    forall i | 0 <= i < |all| ensures TurnOk(all, i) {
      if i < |a| {
        assert TurnOk(a, i);
      } else {
        assert TurnOk(b, i - |a|);
      }
    }
  }

  lemma {:induction false} ResultsAnswer(cfg: Config, tools: ToolWorld, k: nat, calls: seq<Call>)
    ensures Answers(calls, Results(cfg, tools, k, calls))
    decreases |calls|
  {
    if calls != [] {
      ResultsAnswer(cfg, tools, k + 1, calls[1..]);
    }
  }

  lemma TurnsWellFormed(cfg: Config, tools: ToolWorld, responses: seq<Response>)
    requires responses != []
    ensures WellFormed(Turns(cfg, tools, responses))
  {
    var r := responses[|responses| - 1];
    ResultsAnswer(cfg, tools, |Executed(responses[..|responses| - 1])|, r.calls);
    RefusalsFacts(r.calls);
  }

  lemma {:induction false} TranscriptWellFormed(cfg: Config, tools: ToolWorld, start: seq<Message>,
                                                responses: seq<Response>)
    requires WellFormed(start)
    ensures WellFormed(Transcript(cfg, tools, start, responses))
  {
    if responses != [] {
      var before := responses[..|responses| - 1];
      TranscriptWellFormed(cfg, tools, start, before);
      TurnsWellFormed(cfg, tools, responses);
      WellFormedAppend(Transcript(cfg, tools, start, before), Turns(cfg, tools, responses));
    }
  }

  // Stored history replays as text turns only, then the prompt.
  datatype HistoryTurn = HistoryTurn(fromAssistant: bool, content: string)

  function Opening(history: seq<HistoryTurn>, prompt: string): seq<Message> {
    if history == [] then [User(prompt)]
    else
      [if history[0].fromAssistant then Assistant(history[0].content, [], None) else User(history[0].content)]
      + Opening(history[1..], prompt)
  }

  lemma {:induction false} OpeningPlain(history: seq<HistoryTurn>, prompt: string)
    ensures forall m | m in Opening(history, prompt) :: m.User? || (m.Assistant? && m.calls == [] && m.raw.None?)
  {
    if history != [] {
      OpeningPlain(history[1..], prompt);
    }
  }

  lemma OpeningWellFormed(history: seq<HistoryTurn>, prompt: string)
    ensures WellFormed(Opening(history, prompt))
  {
    OpeningPlain(history, prompt);
    var ms := Opening(history, prompt);
    forall i | 0 <= i < |ms| ensures TurnOk(ms, i) {
      assert ms[i] in ms;
    }
  }

  // The thread's turns in order, each as whoever said it said it, then the prompt.
  lemma {:induction false} OpeningReplays(history: seq<HistoryTurn>, prompt: string)
    ensures |Opening(history, prompt)| == |history| + 1
    ensures Opening(history, prompt)[|history|] == User(prompt)
    ensures forall i | 0 <= i < |history| :: Replays(history[i], Opening(history, prompt)[i])
  {
    if history != [] {
      OpeningReplays(history[1..], prompt);
    }
  }

  predicate Replays(turn: HistoryTurn, m: Message) {
    && (turn.fromAssistant <==> m.Assistant?)
    && (m.Assistant? ==> m.content == turn.content && m.calls == [] && m.raw.None?)
    && (!m.Assistant? ==> m == User(turn.content))
  }

  lemma {:induction false} TranscriptStarts(cfg: Config, tools: ToolWorld, start: seq<Message>,
                                            responses: seq<Response>)
    ensures start <= Transcript(cfg, tools, start, responses)
  {
    if responses != [] {
      TranscriptStarts(cfg, tools, start, responses[..|responses| - 1]);
    }
  }

  // A reply to follow up is replayed as it came: its text and its own blocks, with
  // its calls unless it only paused; a tool turn follows exactly then, with each call's
  // own outcome, or, if the reply was cut off, the refusal to run it.
  lemma ReplyIsReplayed(cfg: Config, tools: ToolWorld, responses: seq<Response>)
    requires responses != [] && Continues(responses)
    ensures
      var r, turns := responses[|responses| - 1], Turns(cfg, tools, responses);
      var called := r.calls != [] && (r.stop == ToolUse || r.stop == Truncated);
      && |turns| == (if called then 2 else 1)
      && turns[0] == Assistant(r.text, if called then r.calls else [], Some(r.raw))
      && (called ==> turns[1].Tool? && |turns[1].results| == |r.calls|)
      && (called && r.stop == Truncated ==> forall i | 0 <= i < |r.calls| ::
            turns[1].results[i] == ToolResult(r.calls[i].id, r.calls[i].name, "Not run", true))
      && (called && r.stop == ToolUse ==> forall i | 0 <= i < |r.calls| ::
            AnsweredBy(cfg, tools(|Executed(responses[..|responses| - 1])| + i), r.calls[i], turns[1].results[i]))
  {
    var r, k := responses[|responses| - 1], |Executed(responses[..|responses| - 1])|;
    RefusalsFacts(r.calls);
    forall i | 0 <= i < |r.calls|
      ensures |Results(cfg, tools, k, r.calls)| == |r.calls|
      ensures AnsweredBy(cfg, tools(k + i), r.calls[i], Results(cfg, tools, k, r.calls)[i])
    {
      CallsAnswered(cfg, tools, k, r.calls, i);
    }
  }

  // The outcome of the call, unless it is a Meta write held for approval.
  predicate AnsweredBy(cfg: Config, outcome: ToolOutcome, call: Call, result: ToolResult) {
    var bridged := cfg.connectors.Bridged? && call.name in cfg.connectors.apps;
    var held := !bridged && cfg.buttons && call.name in cfg.metaWrites;
    && result.id == call.id && result.name == call.name
    && result.content == (if held then "Not executed yet" else outcome.content)
    && result.isError == (!held && outcome.isError)
  }

  // The thread so far and then the prompt go out first, every later request starts
  // with them, and every one is well formed.
  ghost predicate Converses(history: seq<HistoryTurn>, prompt: string, sent: seq<Request>) {
    && |sent| > 0
    && |sent[0].messages| == |history| + 1 && sent[0].messages[|history|] == User(prompt)
    && (forall i | 0 <= i < |history| :: Replays(history[i], sent[0].messages[i]))
    && (forall i | 0 <= i < |sent| :: WellFormed(sent[i].messages) && sent[0].messages <= sent[i].messages)
  }

  lemma ConversationSent(cfg: Config, tools: ToolWorld, history: seq<HistoryTurn>, prompt: string, provider: Provider,
                         sent: seq<Request>)
    requires sent != [] && SentSoFar(cfg, tools, Opening(history, prompt), provider, sent)
    ensures Converses(history, prompt, sent)
  {
    var opening := Opening(history, prompt);
    OpeningWellFormed(history, prompt);
    OpeningReplays(history, prompt);
    assert SentAt(cfg, tools, opening, provider, sent, 0);
    forall i | 0 <= i < |sent| ensures WellFormed(sent[i].messages) && opening <= sent[i].messages {
      assert SentAt(cfg, tools, opening, provider, sent, i);
      TranscriptWellFormed(cfg, tools, opening, Replies(provider, i));
      TranscriptStarts(cfg, tools, opening, Replies(provider, i));
    }
  }

  // In button mode nothing dispatched to a local tool is a Meta write.
  lemma GateHolds(cfg: Config, calls: seq<Call>)
    ensures cfg.buttons ==> forall d | d in Routes(cfg, calls) && d.ToLocal? :: d.call.name !in cfg.metaWrites
  {
    RoutesLength(cfg, calls);
  }

  // For every provider behaviour, what is sent is the conversation.
  method RunConversation(cfg: Config, tools: ToolWorld, history: seq<HistoryTurn>, prompt: string, provider: Provider)
    returns (res: RunResult, sent: seq<Request>, responses: seq<Response>, dispatched: seq<Dispatch>)
    ensures 1 <= |sent| <= 7 && Converses(history, prompt, sent)
    ensures SentSoFar(cfg, tools, Opening(history, prompt), provider, sent)
    ensures responses == Replies(provider, |sent|) && Ends(cfg, provider, |sent|, res.Threw?)
    ensures res.Returned? ==> res.actions == Audit(cfg, tools, responses)
    ensures dispatched == Routes(cfg, Executed(responses))
    ensures cfg.buttons ==> forall d | d in dispatched && d.ToLocal? :: d.call.name !in cfg.metaWrites
    ensures res.Returned? ==> FirstWrite(cfg, Executed(responses), res.pending)
  {
    var totals, recorded;
    res, sent, responses, dispatched, totals, recorded := Run(cfg, tools, Opening(history, prompt), provider);
    ConversationSent(cfg, tools, history, prompt, provider, sent);
    GateHolds(cfg, Executed(responses));
    PendingIsFirstWrite(cfg, Executed(responses));
  }

  // ---- the write gate -----------------------------------------------------------

  predicate Gated(cfg: Config, call: Call) {
    cfg.buttons && call.name in cfg.metaWrites && !IsBridged(cfg, call.name)
  }

  // The pending action is the first gated write among the calls.
  ghost predicate FirstWrite(cfg: Config, calls: seq<Call>, pending: Option<Call>) {
    match pending
    case None => forall c | c in calls :: !Gated(cfg, c)
    case Some(p) => exists i | 0 <= i < |calls| ::
                      calls[i] == p && Gated(cfg, p) && forall j | 0 <= j < i :: !Gated(cfg, calls[j])
  }

  lemma {:induction false} PendingIsFirstWrite(cfg: Config, calls: seq<Call>)
    ensures FirstWrite(cfg, calls, FirstDeferred(Routes(cfg, calls)))
  {
    if calls != [] {
      var rest := calls[1..];
      PendingIsFirstWrite(cfg, rest);
      var pending := FirstDeferred(Routes(cfg, calls));
      assert Routes(cfg, calls)[1..] == Routes(cfg, rest);
      if Gated(cfg, calls[0]) {
        assert calls[0] == pending.value;
      } else if pending.Some? {
        var i :| 0 <= i < |rest| && rest[i] == pending.value && Gated(cfg, pending.value)
                 && forall j | 0 <= j < i :: !Gated(cfg, rest[j]);
        assert calls[i + 1] == pending.value;
        forall j | 0 <= j < i + 1 ensures !Gated(cfg, calls[j]) {
          assert j > 0 ==> calls[j] == rest[j - 1];
        }
      }
    }
  }

  // A call in a cut-off reply is refused in the transcript and never executed:
  // the reply adds nothing to the executed calls.
  lemma CutOffIsRefused(cfg: Config, tools: ToolWorld, before: seq<Response>, r: Response)
    requires CutOff(r)
    ensures Executed(before + [r]) == Executed(before)
    ensures Audit(cfg, tools, before + [r]) == Audit(cfg, tools, before) + r.remote
    ensures CutOffs(before) == 0 ==>
              Turns(cfg, tools, before + [r]) == [Assistant(r.text, r.calls, Some(r.raw)), Tool(Refusals(r.calls))]
    ensures CutOffs(before) > 0 ==> Turns(cfg, tools, before + [r]) == [] && !Continues(before + [r])
  {
    ReplyStep(cfg, tools, [], before, r);
    assert (before + [r])[..|before|] == before;
  }

  // ---- OpenAI: one tool message per result ------------------------------------------

  datatype OpenAi =
    | OaUser(content: string)
    | OaAssistant(text: Option<string>, calls: seq<Call>)
    | OaTool(callId: string, content: string)

  function OaResults(results: seq<ToolResult>): seq<OpenAi> {
    if results == [] then [] else [OaTool(results[0].id, results[0].content)] + OaResults(results[1..])
  }

  function OaTurn(m: Message): seq<OpenAi> {
    match m
    case User(content) => [OaUser(content)]
    case Assistant(content, calls, _) => [OaAssistant(if content == "" then None else Some(content), calls)]
    case Tool(results) => OaResults(results)
  }

  function ToOpenAi(ms: seq<Message>): seq<OpenAi> {
    if ms == [] then [] else OaTurn(ms[0]) + ToOpenAi(ms[1..])
  }

  lemma {:induction false} ToOpenAiSnoc(ms: seq<Message>, m: Message)
    ensures ToOpenAi(ms + [m]) == ToOpenAi(ms) + OaTurn(m)
  {
    if ms == [] {
      assert [m][1..] == [];
      assert ToOpenAi([m]) == OaTurn(m) + [];
      assert [] + [m] == [m];
    } else {
      assert (ms + [m])[1..] == ms[1..] + [m];
      ToOpenAiSnoc(ms[1..], m);
    }
  }

  lemma {:induction false} OaResultsSnoc(results: seq<ToolResult>, i: nat)
    requires i < |results|
    ensures OaResults(results[..i + 1]) == OaResults(results[..i]) + [OaTool(results[i].id, results[i].content)]
  {
    if i == 0 {
      assert results[..1][1..] == [];
    } else {
      OaResultsSnoc(results[1..], i - 1);
      assert results[..i + 1][1..] == results[1..][..i] && results[..i][1..] == results[1..][..i - 1];
    }
  }

  method RenderOpenAi(messages: seq<Message>) returns (rendered: seq<OpenAi>)
    ensures rendered == ToOpenAi(messages)
  {
    rendered := [];
    for i := 0 to |messages|
      invariant rendered == ToOpenAi(messages[..i])
    {
      ToOpenAiSnoc(messages[..i], messages[i]);
      assert messages[..i + 1] == messages[..i] + [messages[i]];
      match messages[i] {
        case User(content) => rendered := rendered + [OaUser(content)];
        case Assistant(content, calls, _) =>
          rendered := rendered + [OaAssistant(if content == "" then None else Some(content), calls)];
        case Tool(results) =>
          for j := 0 to |results|
            invariant rendered == ToOpenAi(messages[..i]) + OaResults(results[..j])
          {
            OaResultsSnoc(results, j);
            rendered := rendered + [OaTool(results[j].id, results[j].content)];
          }
          assert results[..|results|] == results;
      }
    }
    assert messages[..|messages|] == messages;
  }

  // Each call id gets exactly one tool message, in order, before the next
  // assistant or user turn; tool messages appear nowhere else.
  ghost predicate OaProtocol(ms: seq<OpenAi>)
    decreases |ms|
  {
    ms != [] ==>
      match ms[0]
      case OaUser(_) => OaProtocol(ms[1..])
      case OaTool(_, _) => false
      case OaAssistant(_, calls) =>
        && |calls| < |ms|
        && (forall k | 0 <= k < |calls| :: ms[k + 1].OaTool? && ms[k + 1].callId == calls[k].id)
        && OaProtocol(ms[|calls| + 1..])
  }

  lemma {:induction false} OaResultsFacts(results: seq<ToolResult>)
    ensures |OaResults(results)| == |results|
    ensures forall k | 0 <= k < |results| :: OaResults(results)[k] == OaTool(results[k].id, results[k].content)
  {
    if results != [] {
      OaResultsFacts(results[1..]);
    }
  }

  lemma TailWellFormed(ms: seq<Message>, n: nat)
    requires WellFormed(ms) && n <= |ms|
    requires n == 1 || n == 2
    requires n == 1 ==> !(ms[0].Assistant? && ms[0].calls != [])
    requires n == 2 ==> ms[1].Tool?
    ensures WellFormed(ms[n..])
  {
    forall i | 0 <= i < |ms[n..]| ensures TurnOk(ms[n..], i) {
      assert TurnOk(ms, i + n);
    }
  }

  // A well-formed transcript renders to a well-formed OpenAI sequence.
  lemma {:induction false} OpenAiKeepsProtocol(ms: seq<Message>)
    requires WellFormed(ms)
    ensures OaProtocol(ToOpenAi(ms))
    decreases |ms|
  {
    if ms != [] {
      assert TurnOk(ms, 0);
      var out := ToOpenAi(ms);
      if ms[0].Assistant? && ms[0].calls != [] {
        var results, rest := ms[1].results, ToOpenAi(ms[2..]);
        OaResultsFacts(results);
        assert ms[1..][1..] == ms[2..];
        assert ToOpenAi(ms[1..]) == OaTurn(ms[1..][0]) + ToOpenAi(ms[2..]);
        assert out == OaTurn(ms[0]) + (OaResults(results) + rest);
        assert out[|ms[0].calls| + 1..] == rest;
        TailWellFormed(ms, 2);
        OpenAiKeepsProtocol(ms[2..]);
      } else {
        assert out[1..] == ToOpenAi(ms[1..]);
        TailWellFormed(ms, 1);
        OpenAiKeepsProtocol(ms[1..]);
      }
    }
  }

  // What a rendering keeps of a turn; ids name the tools.
  datatype Said = Asks(content: string) | Says(content: string, calls: seq<Call>)
                | Replied(results: seq<(string, string)>)

  function Pairs(results: seq<ToolResult>): seq<(string, string)> {
    if results == [] then [] else [(results[0].id, results[0].content)] + Pairs(results[1..])
  }

  function SaidIn(m: Message): Said {
    match m
    case User(content) => Asks(content)
    case Assistant(content, calls, _) => Says(content, calls)
    case Tool(results) => Replied(Pairs(results))
  }

  function AllSaid(ms: seq<Message>): seq<Said> {
    if ms == [] then [] else [SaidIn(ms[0])] + AllSaid(ms[1..])
  }

  // Reading an OpenAI sequence back: tool messages in a row are one turn.
  function ToolPrefix(ms: seq<OpenAi>): nat
    ensures ToolPrefix(ms) <= |ms|
  {
    if ms != [] && ms[0].OaTool? then 1 + ToolPrefix(ms[1..]) else 0
  }

  function ToolPairs(ms: seq<OpenAi>): seq<(string, string)> {
    if ms == [] || !ms[0].OaTool? then [] else [(ms[0].callId, ms[0].content)] + ToolPairs(ms[1..])
  }

  function FromOpenAi(ms: seq<OpenAi>): seq<Said>
    decreases |ms|
  {
    if ms == [] then []
    else
      match ms[0]
      case OaUser(content) => [Asks(content)] + FromOpenAi(ms[1..])
      case OaAssistant(text, calls) => [Says(text.GetOr(""), calls)] + FromOpenAi(ms[1..])
      case OaTool(_, _) => [Replied(ToolPairs(ms))] + FromOpenAi(ms[ToolPrefix(ms)..])
  }

  lemma {:induction false} ToolsRead(results: seq<ToolResult>, rest: seq<OpenAi>)
    requires rest == [] || !rest[0].OaTool?
    ensures ToolPrefix(OaResults(results) + rest) == |results| == |OaResults(results)|
    ensures ToolPairs(OaResults(results) + rest) == Pairs(results)
  {
    if results == [] {
      assert OaResults(results) + rest == rest;
    } else {
      assert (OaResults(results) + rest)[1..] == OaResults(results[1..]) + rest;
      ToolsRead(results[1..], rest);
    }
  }

  // A turn of a well-formed transcript that is not a tool turn starts with no tool message.
  lemma RendersAfterTools(ms: seq<Message>)
    requires WellFormed(ms)
    ensures ToOpenAi(ms) == [] || !ToOpenAi(ms)[0].OaTool?
  {
    if ms != [] {
      assert TurnOk(ms, 0);
    }
  }

  // Nothing said is lost or changed: the rendering reads back to the transcript.
  lemma {:induction false} OpenAiRoundTrip(ms: seq<Message>)
    requires WellFormed(ms)
    ensures FromOpenAi(ToOpenAi(ms)) == AllSaid(ms)
    decreases |ms|
  {
    if ms != [] {
      assert TurnOk(ms, 0);
      var out := ToOpenAi(ms);
      if ms[0].Assistant? && ms[0].calls != [] {
        var results, rest := ms[1].results, ToOpenAi(ms[2..]);
        TailWellFormed(ms, 2);
        OpenAiRoundTrip(ms[2..]);
        RendersAfterTools(ms[2..]);
        ToolsRead(results, rest);
        assert ms[1..][1..] == ms[2..];
        assert ToOpenAi(ms[1..]) == OaResults(results) + rest;
        assert out[1..] == OaResults(results) + rest;
        assert results != [];
        assert (OaResults(results) + rest)[|results|..] == rest;
        assert FromOpenAi(out[1..]) == [Replied(Pairs(results))] + AllSaid(ms[2..]);
      } else {
        assert out[1..] == ToOpenAi(ms[1..]);
        TailWellFormed(ms, 1);
        OpenAiRoundTrip(ms[1..]);
      }
    }
  }

  // ---- Anthropic: original blocks, results batched into one user turn ----------------

  datatype AnBlock =
    | AnText(text: string, cached: bool)
    | AnResult(callId: string, content: string, isError: bool, cached: bool)
    | AnNative(block: Block)

  datatype AnContent = Str(text: string) | Blocks(blocks: seq<AnBlock>)

  datatype Anthropic = AnUser(content: AnContent) | AnAssistant(content: AnContent)

  function Natives(raw: seq<Block>): seq<AnBlock> {
    if raw == [] then [] else [AnNative(raw[0])] + Natives(raw[1..])
  }

  function AnResults(results: seq<ToolResult>): seq<AnBlock> {
    if results == [] then []
    else [AnResult(results[0].id, results[0].content, results[0].isError, false)] + AnResults(results[1..])
  }

  function AnTurn(m: Message): Anthropic {
    match m
    case User(content) => AnUser(Str(content))
    case Assistant(content, _, raw) => AnAssistant(if raw.Some? then Blocks(Natives(raw.value)) else Str(content))
    case Tool(results) => AnUser(Blocks(AnResults(results)))
  }

  function ToAnthropic(ms: seq<Message>): (out: seq<Anthropic>)
    ensures |out| == |ms|
    ensures forall i | 0 <= i < |ms| :: out[i] == AnTurn(ms[i])
  {
    if ms == [] then [] else [AnTurn(ms[0])] + ToAnthropic(ms[1..])
  }

  // Tool-use ids an assistant turn opens, and result ids a user turn carries.
  function OpenedBlocks(blocks: seq<AnBlock>): seq<string> {
    if blocks == [] then []
    else (if blocks[0].AnNative? && blocks[0].block.CallBlock? then [blocks[0].block.call.id] else [])
         + OpenedBlocks(blocks[1..])
  }

  function AnsweredBlocks(blocks: seq<AnBlock>): seq<string> {
    if blocks == [] then []
    else (if blocks[0].AnResult? then [blocks[0].callId] else []) + AnsweredBlocks(blocks[1..])
  }

  function Opened(m: Anthropic): seq<string> {
    if m.AnAssistant? && m.content.Blocks? then OpenedBlocks(m.content.blocks) else []
  }

  function Answered(m: Anthropic): seq<string> {
    if m.AnUser? && m.content.Blocks? then AnsweredBlocks(m.content.blocks) else []
  }

  // Whatever one turn opens, the next answers, id for id; and nothing else is
  // answered.
  ghost predicate AnProtocol(ms: seq<Anthropic>) {
    forall i | 0 <= i <= |ms| :: OpenedBefore(ms, i) == AnsweredAt(ms, i)
  }

  function OpenedBefore(ms: seq<Anthropic>, i: nat): seq<string>
    requires i <= |ms|
  {
    if i > 0 then Opened(ms[i - 1]) else []
  }

  function AnsweredAt(ms: seq<Anthropic>, i: nat): seq<string>
    requires i <= |ms|
  {
    if i < |ms| then Answered(ms[i]) else []
  }

  function CallIds(calls: seq<Call>): seq<string> {
    if calls == [] then [] else [calls[0].id] + CallIds(calls[1..])
  }

  function RawIds(raw: seq<Block>): seq<string> {
    if raw == [] then []
    else (if raw[0].CallBlock? then [raw[0].call.id] else []) + RawIds(raw[1..])
  }

  // The ids the original blocks of an assistant turn carry.
  function Carried(m: Message): seq<string> {
    if m.Assistant? && m.raw.Some? then RawIds(m.raw.value) else []
  }

  function Asked(m: Message): seq<string> {
    if m.Assistant? then CallIds(m.calls) else []
  }

  lemma {:induction false} NativesOpen(raw: seq<Block>)
    ensures OpenedBlocks(Natives(raw)) == RawIds(raw)
  {
    if raw != [] {
      NativesOpen(raw[1..]);
    }
  }

  lemma {:induction false} ResultIds(results: seq<ToolResult>)
    ensures |AnsweredBlocks(AnResults(results))| == |results|
    ensures forall k | 0 <= k < |results| :: AnsweredBlocks(AnResults(results))[k] == results[k].id
  {
    if results != [] {
      ResultIds(results[1..]);
    }
  }

  lemma {:induction false} CallIdsFacts(calls: seq<Call>)
    ensures |CallIds(calls)| == |calls|
    ensures forall k | 0 <= k < |calls| :: CallIds(calls)[k] == calls[k].id
  {
    if calls != [] {
      CallIdsFacts(calls[1..]);
    }
  }

  lemma TurnIds(m: Message)
    ensures Opened(AnTurn(m)) == Carried(m)
    ensures m.Tool? ==> Answered(AnTurn(m)) == AnsweredBlocks(AnResults(m.results))
    ensures !m.Tool? ==> Answered(AnTurn(m)) == []
  {
    if m.Assistant? && m.raw.Some? {
      NativesOpen(m.raw.value);
    }
  }

  // What the turn at i answers is what the turn before it asked.
  lemma AnsweredIsAsked(ms: seq<Message>, i: nat)
    requires WellFormed(ms) && i <= |ms|
    ensures AnsweredAt(ToAnthropic(ms), i) == if i > 0 then Asked(ms[i - 1]) else []
  {
    if i < |ms| {
      TurnIds(ms[i]);
      assert TurnOk(ms, i);
    }
    if i > 0 {
      assert TurnOk(ms, i - 1);
      if ms[i - 1].Assistant? {
        CallIdsFacts(ms[i - 1].calls);
        if ms[i - 1].calls != [] {
          ResultIds(ms[i].results);
        }
      }
    }
  }

  lemma OpenedIsCarried(ms: seq<Message>, i: nat)
    requires i <= |ms|
    ensures OpenedBefore(ToAnthropic(ms), i) == if i > 0 then Carried(ms[i - 1]) else []
  {
    if i > 0 {
      TurnIds(ms[i - 1]);
    }
  }

  // A well-formed transcript keeps the protocol in Anthropic's rendering if and
  // only if every assistant turn's original blocks carry the calls it records.
  lemma AnthropicKeepsProtocolIff(ms: seq<Message>)
    requires WellFormed(ms)
    ensures AnProtocol(ToAnthropic(ms)) <==> forall m | m in ms :: Carried(m) == Asked(m)
  {
    var out := ToAnthropic(ms);
    if AnProtocol(out) {
      forall m | m in ms ensures Carried(m) == Asked(m) {
        var i :| 0 <= i < |ms| && ms[i] == m;
        assert OpenedBefore(out, i + 1) == AnsweredAt(out, i + 1);
        AnsweredIsAsked(ms, i + 1);
        OpenedIsCarried(ms, i + 1);
      }
    }
    if forall m | m in ms :: Carried(m) == Asked(m) {
      forall i | 0 <= i <= |ms| ensures OpenedBefore(out, i) == AnsweredAt(out, i) {
        AnsweredIsAsked(ms, i);
        OpenedIsCarried(ms, i);
        if i > 0 {
          assert ms[i - 1] in ms;
        }
      }
    }
  }

  // fromAnthropicMessage reads the calls off the blocks.
  ghost predicate FromBlocks(r: Response) {
    RawIds(r.raw) == CallIds(r.calls)
  }

  // A reply's turns carry what they ask unless it paused with a call.
  lemma TurnsCarry(cfg: Config, tools: ToolWorld, responses: seq<Response>)
    requires responses != [] && FromBlocks(responses[|responses| - 1])
    ensures
      var r := responses[|responses| - 1];
      (forall m | m in Turns(cfg, tools, responses) :: Carried(m) == Asked(m)) <==> (r.stop.Pause? ==> r.calls == [])
  {
    var r := responses[|responses| - 1];
    CallIdsFacts(r.calls);
    if r.stop.Pause? {
      assert Turns(cfg, tools, responses) == [Assistant(r.text, [], Some(r.raw))];
      assert Assistant(r.text, [], Some(r.raw)) in Turns(cfg, tools, responses);
    }
  }

  lemma {:induction false} TranscriptMembers(cfg: Config, tools: ToolWorld, start: seq<Message>,
                                             responses: seq<Response>)
    requires forall m | m in start :: Carried(m) == Asked(m)
    requires forall r | r in responses :: FromBlocks(r)
    ensures (forall m | m in Transcript(cfg, tools, start, responses) :: Carried(m) == Asked(m))
       <==> (forall r | r in responses && r.stop.Pause? :: r.calls == [])
  {
    if responses != [] {
      var before, r := responses[..|responses| - 1], responses[|responses| - 1];
      assert responses == before + [r];
      assert r in responses && forall x | x in before :: x in responses;
      TranscriptMembers(cfg, tools, start, before);
      TurnsCarry(cfg, tools, responses);
      var all, turns := Transcript(cfg, tools, start, before), Turns(cfg, tools, responses);
      assert forall m :: m in all + turns <==> m in all || m in turns;
      assert forall x :: x in responses <==> x in before || x == r;
    }
  }

  // In a run on Anthropic, the rendered transcript keeps the vendor's protocol
  // if and only if no reply paused with a tool call still in its blocks: a pause
  // is replayed with its blocks but recorded without calls, so nobody answers.
  lemma AnthropicRunsKeepProtocolIff(cfg: Config, tools: ToolWorld, history: seq<HistoryTurn>, prompt: string,
                                     responses: seq<Response>)
    requires forall r | r in responses :: FromBlocks(r)
    ensures AnProtocol(ToAnthropic(Transcript(cfg, tools, Opening(history, prompt), responses)))
       <==> (forall r | r in responses && r.stop.Pause? :: r.calls == [])
  {
    OpeningPlain(history, prompt);
    OpeningWellFormed(history, prompt);
    TranscriptWellFormed(cfg, tools, Opening(history, prompt), responses);
    TranscriptMembers(cfg, tools, Opening(history, prompt), responses);
    AnthropicKeepsProtocolIff(Transcript(cfg, tools, Opening(history, prompt), responses));
  }

  // One pause with a local call in its blocks, and nothing answers that call.
  lemma PausedCallIsUnanswered(cfg: Config, tools: ToolWorld, prompt: string)
    ensures
      var call := Call("c1", "list_campaigns", "{}");
      var r := Response("", [call], [], Usage(1, 1, 0, 0, None, None), Pause, [CallBlock(call)]);
      && FromBlocks(r) && Continues([r])
      && !AnProtocol(ToAnthropic(Transcript(cfg, tools, Opening([], prompt), [r])))
  {
    var call := Call("c1", "list_campaigns", "{}");
    var r := Response("", [call], [], Usage(1, 1, 0, 0, None, None), Pause, [CallBlock(call)]);
    assert [CallBlock(call)][1..] == [] && [call][1..] == [];
    assert RawIds([CallBlock(call)]) == [call.id] + RawIds([]) == [call.id];
    assert CallIds([call]) == [call.id] + CallIds([]) == [call.id];
    assert r in [r] && r.stop.Pause? && r.calls != [];
    AnthropicRunsKeepProtocolIff(cfg, tools, [], prompt, [r]);
  }

  // ---- cache marks on the transcript ---------------------------------------------------

  const TRANSCRIPT_BREAKPOINTS := 2

  function AsBlocks(c: AnContent): seq<AnBlock> {
    if c.Str? then [AnText(c.text, false)] else c.blocks
  }

  // A user turn whose last block can carry a mark.
  predicate Eligible(m: Anthropic) {
    m.AnUser? && AsBlocks(m.content) != [] && !AsBlocks(m.content)[|AsBlocks(m.content)| - 1].AnNative?
  }

  function MarkBlock(b: AnBlock): AnBlock {
    match b
    case AnText(text, _) => AnText(text, true)
    case AnResult(id, content, isError, _) => AnResult(id, content, isError, true)
    case AnNative(_) => b
  }

  function Mark(m: Anthropic): Anthropic
    requires Eligible(m)
  {
    var blocks := AsBlocks(m.content);
    AnUser(Blocks(blocks[..|blocks| - 1] + [MarkBlock(blocks[|blocks| - 1])]))
  }

  function EligibleFrom(ms: seq<Anthropic>, i: nat): nat
    requires i <= |ms|
    decreases |ms| - i
  {
    if i == |ms| then 0 else EligibleFrom(ms, i + 1) + if Eligible(ms[i]) then 1 else 0
  }

  // One of the latest eligible user turns, within the allowance.
  predicate Chosen(ms: seq<Anthropic>, i: nat)
    requires i < |ms|
  {
    Eligible(ms[i]) && EligibleFrom(ms, i + 1) < TRANSCRIPT_BREAKPOINTS
  }

  // Walks from the end, marking while the allowance lasts.
  method WithTranscriptCache(messages: seq<Anthropic>) returns (marked: seq<Anthropic>)
    ensures MarkedFrom(messages, marked)
  {
    marked := messages;
    var remaining := TRANSCRIPT_BREAKPOINTS;
    var i := |messages|;
    while i > 0 && remaining > 0
      invariant 0 <= i <= |messages| == |marked|
      invariant remaining == Max(0, TRANSCRIPT_BREAKPOINTS - EligibleFrom(messages, i))
      invariant forall j | 0 <= j < i :: marked[j] == messages[j]
      invariant forall j | i <= j < |messages| ::
                  marked[j] == if Chosen(messages, j) then Mark(messages[j]) else messages[j]
    {
      i := i - 1;
      if Eligible(marked[i]) {
        marked := marked[i := Mark(marked[i])];
        remaining := remaining - 1;
      }
    }
    forall j | 0 <= j < i ensures !Chosen(messages, j) {
      EligibleMonotone(messages, j + 1, i);
    }
  }

  lemma {:induction false} EligibleMonotone(ms: seq<Anthropic>, i: nat, j: nat)
    requires i <= j <= |ms|
    ensures EligibleFrom(ms, i) >= EligibleFrom(ms, j)
    decreases j - i
  {
    if i < j {
      EligibleMonotone(ms, i + 1, j);
    }
  }

  // Removing marks, and reading a plain string as the one text block it is.
  function Unmark(b: AnBlock): AnBlock {
    match b
    case AnText(text, _) => AnText(text, false)
    case AnResult(id, content, isError, _) => AnResult(id, content, isError, false)
    case AnNative(_) => b
  }

  function Erased(blocks: seq<AnBlock>): seq<AnBlock> {
    if blocks == [] then [] else [Unmark(blocks[0])] + Erased(blocks[1..])
  }

  function Plain(m: Anthropic): Anthropic {
    match m
    case AnUser(c) => AnUser(Blocks(Erased(AsBlocks(c))))
    case AnAssistant(c) => AnAssistant(c)
  }

  lemma {:induction false} ErasedAppend(a: seq<AnBlock>, b: seq<AnBlock>)
    ensures Erased(a + b) == Erased(a) + Erased(b)
  {
    if a == [] {
      assert a + b == b;
    } else {
      assert (a + b)[1..] == a[1..] + b;
      ErasedAppend(a[1..], b);
    }
  }

  predicate Cached(b: AnBlock) {
    (b.AnText? || b.AnResult?) && b.cached
  }

  predicate HasMark(m: Anthropic) {
    exists b | b in AsBlocks(m.content) :: Cached(b)
  }

  lemma MarkChangesNothing(m: Anthropic)
    requires Eligible(m)
    ensures Plain(Mark(m)) == Plain(m) && HasMark(Mark(m))
  {
    var blocks := AsBlocks(m.content);
    var init, last := blocks[..|blocks| - 1], blocks[|blocks| - 1];
    assert blocks == init + [last];
    ErasedAppend(init, [last]);
    ErasedAppend(init, [MarkBlock(last)]);
    assert Erased([MarkBlock(last)]) == Erased([last]);
    assert MarkBlock(last) in AsBlocks(Mark(m).content) && Cached(MarkBlock(last));
  }

  function MarksFrom(ms: seq<Anthropic>, i: nat): nat
    requires i <= |ms|
    decreases |ms| - i
  {
    if i == |ms| then 0 else MarksFrom(ms, i + 1) + if HasMark(ms[i]) then 1 else 0
  }

  // What the marking method returns.
  ghost predicate MarkedFrom(ms: seq<Anthropic>, marked: seq<Anthropic>) {
    |marked| == |ms|
    && forall i | 0 <= i < |ms| :: marked[i] == if Chosen(ms, i) then Mark(ms[i]) else ms[i]
  }

  lemma MarkedTurn(ms: seq<Anthropic>, marked: seq<Anthropic>, i: nat)
    requires MarkedFrom(ms, marked) && i < |ms| && !HasMark(ms[i])
    ensures Plain(marked[i]) == Plain(ms[i])
    ensures HasMark(marked[i]) <==> Chosen(ms, i)
  {
    if Chosen(ms, i) {
      MarkChangesNothing(ms[i]);
    }
  }

  lemma {:induction false} CountMarks(ms: seq<Anthropic>, marked: seq<Anthropic>, i: nat)
    requires MarkedFrom(ms, marked) && i <= |ms|
    requires forall k | 0 <= k < |ms| :: !HasMark(ms[k])
    ensures MarksFrom(marked, i) == Min(TRANSCRIPT_BREAKPOINTS, EligibleFrom(ms, i))
    decreases |ms| - i
  {
    if i < |ms| {
      CountMarks(ms, marked, i + 1);
      MarkedTurn(ms, marked, i);
    }
  }

  lemma ChosenLatest(ms: seq<Anthropic>, i: nat, j: nat)
    requires i <= j < |ms| && Chosen(ms, i) && Eligible(ms[j])
    ensures Chosen(ms, j)
  {
    EligibleMonotone(ms, i + 1, j + 1);
  }

  // Marking changes nothing but the marks: at most two turns carry one, they are
  // the latest eligible ones, and erasing the marks gives the transcript back.
  lemma CacheMarksOnly(ms: seq<Anthropic>, marked: seq<Anthropic>, i: nat, j: nat)
    requires MarkedFrom(ms, marked)
    requires forall k | 0 <= k < |ms| :: !HasMark(ms[k])
    requires i <= j < |ms|
    ensures Plain(marked[i]) == Plain(ms[i]) && Plain(marked[j]) == Plain(ms[j])
    ensures HasMark(marked[i]) ==> Eligible(ms[i])
    ensures HasMark(marked[i]) && Eligible(ms[j]) ==> HasMark(marked[j])
    ensures MarksFrom(marked, 0) == Min(TRANSCRIPT_BREAKPOINTS, EligibleFrom(ms, 0))
  {
    MarkedTurn(ms, marked, i);
    MarkedTurn(ms, marked, j);
    if Chosen(ms, i) && Eligible(ms[j]) {
      ChosenLatest(ms, i, j);
    }
    CountMarks(ms, marked, 0);
  }

  lemma {:induction false} ResultsUnmarked(results: seq<ToolResult>)
    ensures forall b | b in AnResults(results) :: !Cached(b)
  {
    if results != [] {
      ResultsUnmarked(results[1..]);
    }
  }

  lemma {:induction false} NativesUnmarked(raw: seq<Block>)
    ensures forall b | b in Natives(raw) :: !Cached(b)
  {
    if raw != [] {
      NativesUnmarked(raw[1..]);
    }
  }

  lemma {:induction false} AnsweredAppend(a: seq<AnBlock>, b: seq<AnBlock>)
    ensures AnsweredBlocks(a + b) == AnsweredBlocks(a) + AnsweredBlocks(b)
  {
    if a == [] {
      assert a + b == b;
    } else {
      assert (a + b)[0] == a[0] && (a + b)[1..] == a[1..] + b;
      AnsweredAppend(a[1..], b);
    }
  }

  lemma MarkKeepsAnswers(m: Anthropic)
    requires Eligible(m)
    ensures Answered(Mark(m)) == Answered(m) && Opened(Mark(m)) == Opened(m)
  {
    var blocks := AsBlocks(m.content);
    var init, last := blocks[..|blocks| - 1], blocks[|blocks| - 1];
    assert blocks == init + [last];
    AnsweredAppend(init, [last]);
    AnsweredAppend(init, [MarkBlock(last)]);
    assert AnsweredBlocks([MarkBlock(last)]) == AnsweredBlocks([last]);
  }

  lemma RenderingUnmarked(m: Message)
    ensures !HasMark(AnTurn(m))
  {
    match m
    case User(_) =>
    case Assistant(_, _, raw) => if raw.Some? { NativesUnmarked(raw.value); }
    case Tool(results) => ResultsUnmarked(results);
  }

  lemma MarkedIds(ms: seq<Anthropic>, marked: seq<Anthropic>, i: nat)
    requires MarkedFrom(ms, marked) && i <= |ms|
    ensures OpenedBefore(marked, i) == OpenedBefore(ms, i) && AnsweredAt(marked, i) == AnsweredAt(ms, i)
  {
    if i > 0 && Chosen(ms, i - 1) {
      MarkKeepsAnswers(ms[i - 1]);
    }
    if i < |ms| && Chosen(ms, i) {
      MarkKeepsAnswers(ms[i]);
    }
  }

  // Marking neither breaks nor mends the tool protocol.
  lemma MarkingKeepsProtocol(ms: seq<Anthropic>, marked: seq<Anthropic>)
    requires MarkedFrom(ms, marked)
    ensures AnProtocol(marked) <==> AnProtocol(ms)
  {
    forall i | 0 <= i <= |ms|
      ensures OpenedBefore(marked, i) == OpenedBefore(ms, i) && AnsweredAt(marked, i) == AnsweredAt(ms, i)
    {
      MarkedIds(ms, marked, i);
    }
  }

  // ---- reading Anthropic's transcript back, marks or no marks ---------------------------------

  datatype Read = ReadAsks(content: string) | ReadSays(content: string) | ReadBlocks(raw: seq<Block>)
                | ReadReplies(results: seq<(string, string, bool)>)

  function Triples(results: seq<ToolResult>): seq<(string, string, bool)> {
    if results == [] then [] else [(results[0].id, results[0].content, results[0].isError)] + Triples(results[1..])
  }

  // An assistant turn with its provider's blocks is those blocks.
  function Meant(m: Message): Read {
    match m
    case User(content) => ReadAsks(content)
    case Assistant(content, _, raw) => if raw.Some? then ReadBlocks(raw.value) else ReadSays(content)
    case Tool(results) => ReadReplies(Triples(results))
  }

  function RawOf(blocks: seq<AnBlock>): seq<Block> {
    if blocks == [] then []
    else (if blocks[0].AnNative? then [blocks[0].block] else []) + RawOf(blocks[1..])
  }

  function RepliesOf(blocks: seq<AnBlock>): seq<(string, string, bool)> {
    if blocks == [] then []
    else (if blocks[0].AnResult? then [(blocks[0].callId, blocks[0].content, blocks[0].isError)] else [])
         + RepliesOf(blocks[1..])
  }

  function ReadTurn(m: Anthropic): Read {
    match m
    case AnAssistant(c) => if c.Str? then ReadSays(c.text) else ReadBlocks(RawOf(c.blocks))
    case AnUser(c) =>
      if c.Str? then ReadAsks(c.text)
      else if |c.blocks| == 1 && c.blocks[0].AnText? then ReadAsks(c.blocks[0].text)
      else ReadReplies(RepliesOf(c.blocks))
  }

  lemma {:induction false} NativesRead(raw: seq<Block>)
    ensures RawOf(Natives(raw)) == raw
  {
    if raw != [] {
      NativesRead(raw[1..]);
    }
  }

  lemma {:induction false} ResultsRead(results: seq<ToolResult>)
    ensures RepliesOf(AnResults(results)) == Triples(results)
    ensures |AnResults(results)| == |results| && forall b | b in AnResults(results) :: b.AnResult?
  {
    if results != [] {
      ResultsRead(results[1..]);
    }
  }

  lemma {:induction false} RepliesAppend(a: seq<AnBlock>, b: seq<AnBlock>)
    ensures RepliesOf(a + b) == RepliesOf(a) + RepliesOf(b)
  {
    if a == [] {
      assert a + b == b;
    } else {
      assert (a + b)[0] == a[0] && (a + b)[1..] == a[1..] + b;
      RepliesAppend(a[1..], b);
    }
  }

  lemma TurnReadsBack(m: Message)
    ensures ReadTurn(AnTurn(m)) == Meant(m)
  {
    match m
    case User(_) =>
    case Assistant(_, _, raw) => if raw.Some? { NativesRead(raw.value); }
    case Tool(results) =>
      ResultsRead(results);
      assert forall i | 0 <= i < |AnResults(results)| :: AnResults(results)[i].AnResult?;
  }

  lemma MarkReadsTheSame(m: Message)
    requires Eligible(AnTurn(m))
    ensures ReadTurn(Mark(AnTurn(m))) == ReadTurn(AnTurn(m))
    ensures MarkedAtTheEnd(Mark(AnTurn(m)))
  {
    if m.Tool? {
      ResultsRead(m.results);
      ResultsUnmarked(m.results);
      var blocks := AnResults(m.results);
      var init, last := blocks[..|blocks| - 1], blocks[|blocks| - 1];
      assert blocks == init + [last] && last.AnResult?;
      RepliesAppend(init, [last]);
      RepliesAppend(init, [MarkBlock(last)]);
      assert RepliesOf([MarkBlock(last)]) == RepliesOf([last]);
    }
  }

  // The mark is on the last block and on no other.
  ghost predicate MarkedAtTheEnd(m: Anthropic) {
    var blocks := AsBlocks(m.content);
    && blocks != [] && Cached(blocks[|blocks| - 1])
    && forall i | 0 <= i < |blocks| - 1 :: !Cached(blocks[i])
  }

  // Our own turns that can carry a mark: the user's, and tool turns with an answer.
  predicate Markable(m: Message) {
    m.User? || (m.Tool? && m.results != [])
  }

  lemma EligibleIffMarkable(m: Message)
    ensures Eligible(AnTurn(m)) <==> Markable(m)
  {
    if m.Tool? {
      ResultsRead(m.results);
      var blocks := AnResults(m.results);
      assert blocks != [] ==> blocks[|blocks| - 1] in blocks;
    }
  }

  lemma {:induction false} EligibleCount(ms: seq<Message>, i: nat)
    requires i <= |ms|
    ensures EligibleFrom(ToAnthropic(ms), i) == |Filter(ms[i..], (m: Message) => Markable(m))|
    decreases |ms| - i
  {
    if i < |ms| {
      EligibleCount(ms, i + 1);
      EligibleIffMarkable(ms[i]);
      assert ms[i..][0] == ms[i] && ms[i..][1..] == ms[i + 1..];
    }
  }

  lemma MarkedTurnReads(ms: seq<Message>, marked: seq<Anthropic>, i: nat)
    requires MarkedFrom(ToAnthropic(ms), marked) && i < |ms|
    ensures ReadTurn(marked[i]) == Meant(ms[i])
    ensures HasMark(marked[i]) ==> Markable(ms[i]) && MarkedAtTheEnd(marked[i])
  {
    TurnReadsBack(ms[i]);
    RenderingUnmarked(ms[i]);
    EligibleIffMarkable(ms[i]);
    if Chosen(ToAnthropic(ms), i) {
      MarkReadsTheSame(ms[i]);
    }
  }

  // What Anthropic is sent: rendering, then marks. It reads back to the transcript;
  // the latest two turns that can carry a mark do, on their last block.
  method AnthropicMessages(ms: seq<Message>) returns (marked: seq<Anthropic>)
    ensures |marked| == |ms| && forall i | 0 <= i < |ms| :: ReadTurn(marked[i]) == Meant(ms[i])
    ensures forall i | 0 <= i < |ms| :: Plain(marked[i]) == Plain(AnTurn(ms[i]))
    ensures MarksFrom(marked, 0) == Min(2, |Filter(ms, (m: Message) => Markable(m))|)
    ensures forall i | 0 <= i < |ms| && HasMark(marked[i]) :: Markable(ms[i]) && MarkedAtTheEnd(marked[i])
    ensures forall i, j | 0 <= i < j < |ms| && HasMark(marked[i]) && Markable(ms[j]) :: HasMark(marked[j])
    ensures WellFormed(ms) ==> (AnProtocol(marked) <==> forall m | m in ms :: Carried(m) == Asked(m))
  {
    var rendered := ToAnthropic(ms);
    marked := WithTranscriptCache(rendered);
    SentFacts(ms, marked);
    if WellFormed(ms) {
      MarkingKeepsProtocol(rendered, marked);
      AnthropicKeepsProtocolIff(ms);
    }
  }

  lemma SentFacts(ms: seq<Message>, marked: seq<Anthropic>)
    requires MarkedFrom(ToAnthropic(ms), marked)
    ensures forall i | 0 <= i < |ms| :: ReadTurn(marked[i]) == Meant(ms[i])
    ensures forall i | 0 <= i < |ms| :: Plain(marked[i]) == Plain(AnTurn(ms[i]))
    ensures MarksFrom(marked, 0) == Min(2, |Filter(ms, (m: Message) => Markable(m))|)
    ensures forall i | 0 <= i < |ms| && HasMark(marked[i]) :: Markable(ms[i]) && MarkedAtTheEnd(marked[i])
    ensures forall i, j | 0 <= i < j < |ms| && HasMark(marked[i]) && Markable(ms[j]) :: HasMark(marked[j])
  {
    var rendered := ToAnthropic(ms);
    forall i | 0 <= i < |ms|
      ensures !HasMark(rendered[i]) && ReadTurn(marked[i]) == Meant(ms[i])
      ensures HasMark(marked[i]) ==> Markable(ms[i]) && MarkedAtTheEnd(marked[i])
    {
      RenderingUnmarked(ms[i]);
      MarkedTurnReads(ms, marked, i);
    }
    forall i | 0 <= i < |ms| ensures Plain(marked[i]) == Plain(AnTurn(ms[i])) {
      CacheMarksOnly(rendered, marked, i, i);
    }
    forall i, j | 0 <= i < j < |ms| && HasMark(marked[i]) && Markable(ms[j]) ensures HasMark(marked[j]) {
      EligibleIffMarkable(ms[j]);
      CacheMarksOnly(rendered, marked, i, j);
    }
    CountMarks(rendered, marked, 0);
    EligibleCount(ms, 0);
    assert ms[0..] == ms;
  }
}
