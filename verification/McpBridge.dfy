// buildToolset and narrowTo: round-robin merging of the connected servers' tool
// lists into one fair, uniquely named, capped toolset.
module McpBridge {
  import opened Prelude
  import opened ToolNames

  const MAX_BRIDGED_TOOLS := 60

  datatype Listing = Listing(app: string, tools: seq<string>)

  // Where a tool came from: its server's queue and its place in that list.
  datatype Origin = Origin(queue: nat, index: nat)

  // ---- fairness of the merged order ---------------------------------------------

  function Count(origins: seq<Origin>, q: nat): nat {
    |Filter(origins, (o: Origin) => o.queue == q)|
  }

  function Lengths(queues: seq<Listing>): seq<nat> {
    seq(|queues|, i requires 0 <= i < |queues| => |queues[i].tools|)
  }

  // Max-min fair: a server gets two more tools than another only when the other
  // has nothing left to give.
  ghost predicate Fair(lengths: seq<nat>, origins: seq<Origin>) {
    forall a, b | 0 <= a < |lengths| && 0 <= b < |lengths| ::
      Count(origins, b) > Count(origins, a) + 1 ==> Count(origins, a) == lengths[a]
  }

  ghost predicate FairThroughout(lengths: seq<nat>, origins: seq<Origin>) {
    forall p | 0 <= p <= |origins| :: Fair(lengths, origins[..p])
  }

  // Each server's tools appear in its own order, from the first, none skipped.
  ghost predicate InOrder(lengths: seq<nat>, origins: seq<Origin>) {
    forall i | 0 <= i < |origins| ::
      && origins[i].queue < |lengths|
      && origins[i].index == Count(origins[..i], origins[i].queue)
      && origins[i].index < lengths[origins[i].queue]
  }

  // Round by round, and within a round in the queues' order.
  predicate Sooner(a: Origin, b: Origin) {
    a.index < b.index || (a.index == b.index && a.queue < b.queue)
  }

  ghost predicate RoundRobin(origins: seq<Origin>) {
    forall i, j | 0 <= i < j < |origins| :: Sooner(origins[i], origins[j])
  }

  ghost predicate BeforeTurn(origins: seq<Origin>, r: nat, q: nat) {
    RoundRobin(origins) && forall o | o in origins :: o.index < r || (o.index == r && o.queue < q)
  }

  // Mid-round: the first q queues have had r + 1 turns, the others r.
  ghost predicate RoundState(lengths: seq<nat>, origins: seq<Origin>, r: nat, q: nat) {
    forall j | 0 <= j < |lengths| :: Count(origins, j) == Min(lengths[j], if j < q then r + 1 else r)
  }

  lemma CountSnoc(origins: seq<Origin>, o: Origin, q: nat)
    ensures Count(origins + [o], q) == Count(origins, q) + if o.queue == q then 1 else 0
  {
    var p := (x: Origin) => x.queue == q;
    FilterAppend(origins, [o], p);
    if o.queue == q {
      FilterAll([o], p);
    } else {
      FilterNone([o], p);
    }
  }

  lemma RoundIsFair(lengths: seq<nat>, origins: seq<Origin>, r: nat, q: nat)
    requires RoundState(lengths, origins, r, q)
    ensures Fair(lengths, origins)
  {
  }

  // Taking the next tool of the queue whose turn it is.
  lemma TurnStep(lengths: seq<nat>, origins: seq<Origin>, r: nat, q: nat)
    requires q < |lengths| && RoundState(lengths, origins, r, q) && Count(origins, q) < lengths[q]
    requires InOrder(lengths, origins) && FairThroughout(lengths, origins)
    ensures
      var next := origins + [Origin(q, Count(origins, q))];
      RoundState(lengths, next, r, q + 1) && InOrder(lengths, next) && FairThroughout(lengths, next)
  {
    var o := Origin(q, Count(origins, q));
    var next := origins + [o];
    forall j | 0 <= j < |lengths| ensures Count(next, j) == Min(lengths[j], if j < q + 1 then r + 1 else r) {
      CountSnoc(origins, o, j);
    }
    RoundIsFair(lengths, next, r, q + 1);
    forall i | 0 <= i < |next|
      ensures next[i].queue < |lengths|
      ensures next[i].index == Count(next[..i], next[i].queue) && next[i].index < lengths[next[i].queue]
    {
      assert next[..i] == origins[..i];
      assert i == |origins| ==> origins[..i] == origins;
    }
    forall p | 0 <= p <= |next| ensures Fair(lengths, next[..p]) {
      if p <= |origins| {
        assert next[..p] == origins[..p];
      } else {
        assert next[..p] == next;
      }
    }
  }

  // ---- names, routing and announced apps ----------------------------------------

  datatype Toolset = Toolset(names: seq<string>, routing: map<string, Origin>, apps: seq<string>)

  ghost predicate NamesOk(t: Toolset, origins: seq<Origin>) {
    && |t.names| == |origins|
    && Distinct(t.names)
    && t.routing.Keys == (set n | n in t.names)
    && (forall i | 0 <= i < |t.names| :: t.names[i] in t.routing && t.routing[t.names[i]] == origins[i])
    && (forall n | n in t.names :: 0 < |n| <= 64 && AllAllowed(n))
  }

  // The i-th tool got the first candidate free at that moment.
  ghost predicate Christened(queues: seq<Listing>, names: seq<string>, o: Origin, i: nat)
    requires i < |names|
  {
    && o.queue < |queues| && o.index < |queues[o.queue].tools|
    && FirstFree(queues[o.queue].app, queues[o.queue].tools[o.index], (set n | n in names[..i]), names[i])
  }

  ghost predicate AllChristened(queues: seq<Listing>, names: seq<string>, origins: seq<Origin>) {
    && |names| == |origins|
    && forall i | 0 <= i < |names| :: Christened(queues, names, origins[i], i)
  }

  function AppOf(queues: seq<Listing>, o: Origin): string {
    if o.queue < |queues| then queues[o.queue].app else "app"
  }

  function AppsOf(queues: seq<Listing>, origins: seq<Origin>): (apps: seq<string>) {
    seq(|origins|, i requires 0 <= i < |origins| => AppOf(queues, origins[i]))
  }

  // The announced apps, in the order they first contributed.
  function Announced(queues: seq<Listing>, origins: seq<Origin>): seq<string> {
    Dedup(AppsOf(queues, origins))
  }

  // An app is announced exactly when it owns a tool, and once.
  lemma AnnouncedOwners(queues: seq<Listing>, origins: seq<Origin>)
    ensures forall a :: a in Announced(queues, origins) <==> exists o | o in origins :: AppOf(queues, o) == a
    ensures Distinct(Announced(queues, origins))
  {
    var apps := AppsOf(queues, origins);
    DedupFacts(apps);
    forall a ensures a in apps <==> exists o | o in origins :: AppOf(queues, o) == a {
      assert forall i | 0 <= i < |origins| :: apps[i] == AppOf(queues, origins[i]);
      if a in apps {
        var i :| 0 <= i < |apps| && apps[i] == a;
        assert origins[i] in origins && AppOf(queues, origins[i]) == a;
      }
    }
  }

  lemma AnnouncedSnoc(queues: seq<Listing>, origins: seq<Origin>, o: Origin)
    ensures Announced(queues, origins + [o]) == AddNew(Announced(queues, origins), AppOf(queues, o))
  {
    assert AppsOf(queues, origins + [o]) == AppsOf(queues, origins) + [AppOf(queues, o)];
    DedupSnoc(AppsOf(queues, origins), AppOf(queues, o));
  }

  lemma OriginsDistinct(lengths: seq<nat>, origins: seq<Origin>, i: nat, j: nat)
    requires InOrder(lengths, origins) && i < j < |origins|
    ensures origins[i] != origins[j]
  {
    CountGrows(origins, i, j);
  }

  // No tool is offered under two names, none hides behind another's.
  lemma RoutingIsInjective(lengths: seq<nat>, t: Toolset, origins: seq<Origin>, a: string, b: string)
    requires Routes(t, origins) && InOrder(lengths, origins) && forall n | n in t.routing :: n in t.names
    requires a in t.routing && b in t.routing && t.routing[a] == t.routing[b]
    ensures a == b
  {
    var i :| 0 <= i < |t.names| && t.names[i] == a;
    var j :| 0 <= j < |t.names| && t.names[j] == b;
    assert origins[i] == t.routing[a] == t.routing[b] == origins[j];
    if i < j {
      OriginsDistinct(lengths, origins, i, j);
    } else if j < i {
      OriginsDistinct(lengths, origins, j, i);
    }
  }

  lemma CountGrows(origins: seq<Origin>, i: nat, j: nat)
    requires i < j < |origins|
    ensures Count(origins[..j], origins[i].queue) > Count(origins[..i], origins[i].queue)
  {
    var q := origins[i].queue;
    CountSnoc(origins[..i], origins[i], q);
    assert origins[..i] + [origins[i]] == origins[..i + 1];
    assert origins[..j] == origins[..i + 1] + origins[i + 1..j];
    FilterAppend(origins[..i + 1], origins[i + 1..j], (o: Origin) => o.queue == q);
  }

  lemma {:induction false} DistinctCount(names: seq<string>)
    requires Distinct(names)
    ensures |set n | n in names| == |names|
  {
    if names != [] {
      var init, last := names[..|names| - 1], names[|names| - 1];
      DistinctCount(init);
      assert names == init + [last];
      assert (set n | n in names) == (set n | n in init) + {last};
    }
  }

  method FreshName(queues: seq<Listing>, t: Toolset, ghost origins: seq<Origin>, o: Origin) returns (name: string)
    requires o.queue < |queues| && o.index < |queues[o.queue].tools|
    requires NamesOk(t, origins) && |t.names| < MAX_CANDIDATE_TOOLS
    ensures name !in t.routing && 0 < |name| <= 64 && AllAllowed(name)
    ensures FirstFree(queues[o.queue].app, queues[o.queue].tools[o.index], (set n | n in t.names), name)
  {
    DistinctCount(t.names);
    name := ExposedName(queues[o.queue].app, queues[o.queue].tools[o.index], t.routing.Keys);
  }

  method AddTool(queues: seq<Listing>, t: Toolset, ghost origins: seq<Origin>, o: Origin) returns (next: Toolset)
    requires o.queue < |queues| && o.index < |queues[o.queue].tools|
    requires NamesOk(t, origins) && |t.names| < MAX_CANDIDATE_TOOLS
    requires AllChristened(queues, t.names, origins) && t.apps == Announced(queues, origins)
    ensures NamesOk(next, origins + [o])
    ensures AllChristened(queues, next.names, origins + [o]) && next.apps == Announced(queues, origins + [o])
  {
    var app := queues[o.queue].app;
    var name := FreshName(queues, t, origins, o);
    var apps := if app in t.apps then t.apps else t.apps + [app];
    next := Toolset(t.names + [name], t.routing[name := o], apps);
    AddedNames(t, origins, o, name, apps);
    AddedChristened(queues, t.names, origins, o, name);
    AnnouncedSnoc(queues, origins, o);
  }

  lemma AddedChristened(queues: seq<Listing>, names: seq<string>, origins: seq<Origin>, o: Origin, name: string)
    requires AllChristened(queues, names, origins)
    requires o.queue < |queues| && o.index < |queues[o.queue].tools|
    requires FirstFree(queues[o.queue].app, queues[o.queue].tools[o.index], (set n | n in names), name)
    ensures AllChristened(queues, names + [name], origins + [o])
  {
    var all := names + [name];
    assert all[..|names|] == names;
    forall i | 0 <= i < |all| ensures Christened(queues, all, (origins + [o])[i], i) {
      if i < |names| {
        assert Christened(queues, names, origins[i], i);
        assert all[..i] == names[..i];
      }
    }
  }

  lemma AddedNames(t: Toolset, origins: seq<Origin>, o: Origin, name: string, apps: seq<string>)
    requires NamesOk(t, origins) && name !in t.routing
    requires 0 < |name| <= 64 && AllAllowed(name)
    ensures NamesOk(Toolset(t.names + [name], t.routing[name := o], apps), origins + [o])
  {
    var names := t.names + [name];
    assert name !in t.names;
    forall i | 0 <= i < |names|
      ensures names[i] in t.routing[name := o] && t.routing[name := o][names[i]] == (origins + [o])[i]
    {
      if i < |t.names| {
        assert names[i] in t.names && names[i] != name;
      }
    }
  }

  // ---- the merge ------------------------------------------------------------------

  function TotalTools(listings: seq<Listing>): nat {
    if listings == [] then 0 else |listings[0].tools| + TotalTools(listings[1..])
  }

  function NonEmpty(listings: seq<Listing>): seq<Listing> {
    Filter(listings, (l: Listing) => l.tools != [])
  }

  lemma {:induction false} NonEmptyTotal(listings: seq<Listing>)
    ensures TotalTools(NonEmpty(listings)) == TotalTools(listings)
  {
    if listings != [] {
      NonEmptyTotal(listings[1..]);
      if listings[0].tools != [] {
        assert NonEmpty(listings)[1..] == NonEmpty(listings[1..]);
      }
    }
  }

  // Tools are counted once however they are interleaved.
  lemma {:induction false} CountsAddUp(lengths: seq<nat>, origins: seq<Origin>, n: nat)
    requires InOrder(lengths, origins) && n <= |lengths|
    ensures |Filter(origins, (o: Origin) => o.queue < n)| == SumCounts(origins, n)
  {
    if n == 0 {
      FilterNone(origins, (o: Origin) => o.queue < 0);
    } else {
      CountsAddUp(lengths, origins, n - 1);
      SplitCount(origins, n - 1);
    }
  }

  function SumCounts(origins: seq<Origin>, n: nat): nat {
    if n == 0 then 0 else SumCounts(origins, n - 1) + Count(origins, n - 1)
  }

  lemma {:induction false} SplitCount(origins: seq<Origin>, n: nat)
    ensures |Filter(origins, (o: Origin) => o.queue < n + 1)|
         == |Filter(origins, (o: Origin) => o.queue < n)| + Count(origins, n)
  {
    if origins != [] {
      SplitCount(origins[1..], n);
    }
  }

  lemma {:induction false} ExhaustedTotal(queues: seq<Listing>, origins: seq<Origin>, n: nat)
    requires n <= |queues| && forall j | 0 <= j < n :: Count(origins, j) == |queues[j].tools|
    ensures SumCounts(origins, n) == TotalTools(queues[..n])
  {
    if n > 0 {
      ExhaustedTotal(queues, origins, n - 1);
      assert queues[..n] == queues[..n - 1] + [queues[n - 1]];
      TotalAppend(queues[..n - 1], queues[n - 1]);
    }
  }

  lemma {:induction false} TotalAppend(a: seq<Listing>, l: Listing)
    ensures TotalTools(a + [l]) == TotalTools(a) + |l.tools|
  {
    if a == [] {
      assert [l][1..] == [];
      assert [] + [l] == [l];
    } else {
      assert (a + [l])[1..] == a[1..] + [l];
      TotalAppend(a[1..], l);
    }
  }

  lemma {:induction false} CountsBounded(queues: seq<Listing>, origins: seq<Origin>, n: nat)
    requires n <= |queues| && forall j | 0 <= j < n :: Count(origins, j) <= |queues[j].tools|
    ensures SumCounts(origins, n) <= TotalTools(queues[..n])
  {
    if n > 0 {
      CountsBounded(queues, origins, n - 1);
      assert queues[..n] == queues[..n - 1] + [queues[n - 1]];
      TotalAppend(queues[..n - 1], queues[n - 1]);
    }
  }

  lemma OriginsTotal(queues: seq<Listing>, origins: seq<Origin>)
    requires InOrder(Lengths(queues), origins)
    requires forall j | 0 <= j < |queues| :: Count(origins, j) <= |queues[j].tools|
    ensures |origins| <= TotalTools(queues)
    ensures (forall j | 0 <= j < |queues| :: Count(origins, j) == |queues[j].tools|) ==> |origins| == TotalTools(queues)
  {
    CountsAddUp(Lengths(queues), origins, |queues|);
    FilterAll(origins, (o: Origin) => o.queue < |queues|);
    CountsBounded(queues, origins, |queues|);
    assert queues[..|queues|] == queues;
    if forall j | 0 <= j < |queues| :: Count(origins, j) == |queues[j].tools| {
      ExhaustedTotal(queues, origins, |queues|);
    }
  }

  // The names and apps of a toolset under construction.
  ghost predicate Built(queues: seq<Listing>, t: Toolset, origins: seq<Origin>) {
    && NamesOk(t, origins) && AllChristened(queues, t.names, origins)
    && t.apps == Announced(queues, origins)
    && |t.names| <= MAX_CANDIDATE_TOOLS
  }

  // remaining[j] is what queue j has not contributed yet.
  ghost predicate Shifted(queues: seq<Listing>, remaining: seq<seq<string>>, origins: seq<Origin>) {
    |remaining| == |queues|
    && forall j | 0 <= j < |queues| ::
         Count(origins, j) <= |queues[j].tools| && remaining[j] == queues[j].tools[Count(origins, j)..]
  }

  // What a turn does to the order and the queues, leaving names aside.
  ghost predicate Turned(queues: seq<Listing>, left: seq<seq<string>>, origins: seq<Origin>, r: nat, q: nat) {
    && InOrder(Lengths(queues), origins) && FairThroughout(Lengths(queues), origins)
    && Shifted(queues, left, origins)
    && RoundState(Lengths(queues), origins, r, q)
    && BeforeTurn(origins, r, q)
  }

  lemma TurnTaken(queues: seq<Listing>, remaining: seq<seq<string>>, origins: seq<Origin>, r: nat, q: nat)
    requires q < |queues| && Turned(queues, remaining, origins, r, q) && remaining[q] != []
    ensures Count(origins, q) == |queues[q].tools| - |remaining[q]|
    ensures Turned(queues, remaining[q := remaining[q][1..]], origins + [Origin(q, Count(origins, q))], r, q + 1)
  {
    TurnStep(Lengths(queues), origins, r, q);
    TurnInRound(Lengths(queues), origins, r, q);
    ShiftedTurn(queues, remaining, origins, q);
  }

  lemma TurnInRound(lengths: seq<nat>, origins: seq<Origin>, r: nat, q: nat)
    requires q < |lengths| && RoundState(lengths, origins, r, q) && Count(origins, q) < lengths[q]
    requires BeforeTurn(origins, r, q)
    ensures BeforeTurn(origins + [Origin(q, Count(origins, q))], r, q + 1)
  {
    assert Count(origins, q) == r;
  }

  lemma ShiftedTurn(queues: seq<Listing>, remaining: seq<seq<string>>, origins: seq<Origin>, q: nat)
    requires q < |queues| && Shifted(queues, remaining, origins) && remaining[q] != []
    ensures Shifted(queues, remaining[q := remaining[q][1..]], origins + [Origin(q, Count(origins, q))])
  {
    var o := Origin(q, Count(origins, q));
    forall j | 0 <= j < |queues|
      ensures Count(origins + [o], j) <= |queues[j].tools|
      ensures remaining[q := remaining[q][1..]][j] == queues[j].tools[Count(origins + [o], j)..]
    {
      CountSnoc(origins, o, j);
    }
  }

  // An exhausted queue passes, and the round moves on.
  lemma TurnPassed(queues: seq<Listing>, remaining: seq<seq<string>>, origins: seq<Origin>, r: nat, q: nat)
    requires q < |queues| && Turned(queues, remaining, origins, r, q) && remaining[q] == []
    ensures Turned(queues, remaining, origins, r, q + 1)
  {
    assert Count(origins, q) == |queues[q].tools|;
  }

  // One turn: shift the queue, name the tool, record where it routes.
  method TakeTurn(queues: seq<Listing>, t: Toolset, remaining: seq<seq<string>>, ghost origins: seq<Origin>,
                  ghost r: nat, q: nat)
    returns (next: Toolset, left: seq<seq<string>>, ghost after: seq<Origin>)
    requires q < |queues| && Turned(queues, remaining, origins, r, q)
    requires Built(queues, t, origins) && |t.names| < MAX_CANDIDATE_TOOLS
    ensures Turned(queues, left, after, r, q + 1) && Built(queues, next, after)
    ensures origins <= after
  {
    if remaining[q] == [] {
      TurnPassed(queues, remaining, origins, r, q);
      return t, remaining, origins;
    }
    TurnTaken(queues, remaining, origins, r, q);
    var o := Origin(q, |queues[q].tools| - |remaining[q]|);
    after := origins + [o];
    left := remaining[q := remaining[q][1..]];
    next := AddTool(queues, t, origins, o);
  }

  // A full round over a queue with something left takes at least one tool.
  lemma RoundGrows(queues: seq<Listing>, remaining: seq<seq<string>>, before: seq<Origin>,
                   left: seq<seq<string>>, origins: seq<Origin>, r: nat, j: nat)
    requires Turned(queues, remaining, before, r, 0) && Turned(queues, left, origins, r, |queues|)
    requires before <= origins && j < |remaining| && remaining[j] != []
    ensures |origins| > |before|
  {
    assert Count(before, j) == Min(|queues[j].tools|, r);
    assert Count(origins, j) == Min(|queues[j].tools|, r + 1);
    assert |origins| == |before| ==> origins == before;
  }

  // All queues in turn, until the cap.
  method Round(queues: seq<Listing>, t: Toolset, remaining: seq<seq<string>>, ghost origins: seq<Origin>, ghost r: nat)
    returns (next: Toolset, left: seq<seq<string>>, ghost after: seq<Origin>, ghost turn: nat)
    requires Turned(queues, remaining, origins, r, 0)
    requires Built(queues, t, origins) && |t.names| < MAX_CANDIDATE_TOOLS
    ensures Built(queues, next, after) && Turned(queues, left, after, r, turn)
    ensures turn == |queues| || |next.names| == MAX_CANDIDATE_TOOLS
    ensures origins <= after
  {
    next, left, after, turn := t, remaining, origins, 0;
    for q := 0 to |queues|
      invariant turn == q
      invariant Turned(queues, left, after, r, q) && Built(queues, next, after)
      invariant origins <= after
    {
      if |next.names| >= MAX_CANDIDATE_TOOLS {
        return;
      }
      next, left, after := TakeTurn(queues, next, left, after, r, q);
      turn := q + 1;
    }
  }

  lemma RoundTurnsOver(queues: seq<Listing>, left: seq<seq<string>>, origins: seq<Origin>, r: nat)
    requires Turned(queues, left, origins, r, |queues|)
    ensures Turned(queues, left, origins, r + 1, 0)
  {
  }

  // Every tool taken, or the cap reached: either way min(200, total).
  lemma MergeIsComplete(listings: seq<Listing>, left: seq<seq<string>>, t: Toolset, origins: seq<Origin>, r: nat,
                        q: nat)
    requires Turned(NonEmpty(listings), left, origins, r, q) && Built(NonEmpty(listings), t, origins)
    requires |t.names| == MAX_CANDIDATE_TOOLS || forall j | 0 <= j < |left| :: left[j] == []
    ensures |t.names| == Min(MAX_CANDIDATE_TOOLS, TotalTools(listings))
  {
    var queues := NonEmpty(listings);
    OriginsTotal(queues, origins);
    NonEmptyTotal(listings);
    if |t.names| < MAX_CANDIDATE_TOOLS {
      forall j | 0 <= j < |queues| ensures Count(origins, j) == |queues[j].tools| {
        assert left[j] == [];
      }
    }
  }

  method BuildToolset(listings: seq<Listing>) returns (t: Toolset, ghost origins: seq<Origin>)
    // min(200, total) tools, a prefix of each list in order, fair at every prefix
    ensures |t.names| == Min(200, TotalTools(listings))
    ensures InOrder(Lengths(NonEmpty(listings)), origins)
    ensures FairThroughout(Lengths(NonEmpty(listings)), origins) && RoundRobin(origins)
    // names are distinct, each the first candidate free, and route to their tool
    ensures NamesOk(t, origins) && AllChristened(NonEmpty(listings), t.names, origins)
    ensures t.apps == Announced(NonEmpty(listings), origins)
  {
    var queues := NonEmpty(listings);
    t, origins := Toolset([], map[], []), [];
    var remaining := seq(|queues|, i requires 0 <= i < |queues| => queues[i].tools);
    ghost var r, q := 0, 0;
    while |t.names| < MAX_CANDIDATE_TOOLS && exists j :: 0 <= j < |remaining| && remaining[j] != []
      invariant Turned(queues, remaining, origins, r, q) && Built(queues, t, origins)
      invariant q == 0 || |t.names| == MAX_CANDIDATE_TOOLS
      decreases MAX_CANDIDATE_TOOLS - |t.names|
    {
      ghost var before, kept := origins, remaining;
      ghost var j :| 0 <= j < |remaining| && remaining[j] != [];
      t, remaining, origins, q := Round(queues, t, remaining, origins, r);
      if q == |queues| {
        RoundGrows(queues, kept, before, remaining, origins, r, j);
      }
      if q == |queues| {
        RoundTurnsOver(queues, remaining, origins, r);
        r, q := r + 1, 0;
      }
    }
    MergeIsComplete(listings, remaining, t, origins, r, q);
  }

  // ---- narrowing ------------------------------------------------------------------

  // Where the executable ones among the names route, in order.
  function RoutedOrigins(routing: map<string, Origin>, names: seq<string>): seq<Origin> {
    if names == [] then []
    else
      var last := names[|names| - 1];
      RoutedOrigins(routing, names[..|names| - 1]) + if last in routing then [routing[last]] else []
  }

  function Routed(routing: map<string, Origin>, names: seq<string>): map<string, Origin> {
    map n | n in names && n in routing :: routing[n]
  }

  lemma NarrowStep(queues: seq<Listing>, routing: map<string, Origin>, names: seq<string>, n: string)
    ensures n in routing ==> Routed(routing, names + [n]) == Routed(routing, names)[n := routing[n]]
    ensures n !in routing ==> Routed(routing, names + [n]) == Routed(routing, names)
    ensures Announced(queues, RoutedOrigins(routing, names + [n])) ==
      if n in routing then AddNew(Announced(queues, RoutedOrigins(routing, names)), AppOf(queues, routing[n]))
      else Announced(queues, RoutedOrigins(routing, names))
  {
    RoutedOriginsSnoc(routing, names, n);
    if n in routing {
      AnnouncedSnoc(queues, RoutedOrigins(routing, names), routing[n]);
    }
  }

  method NarrowTo(queues: seq<Listing>, t: Toolset, keep: seq<string>, limit: nat) returns (r: Toolset)
    ensures r.names == keep[..Min(limit, |keep|)]
    ensures r.routing == Routed(t.routing, r.names)
    ensures r.apps == Announced(queues, RoutedOrigins(t.routing, r.names))
  {
    var names := keep[..Min(limit, |keep|)];
    var routing: map<string, Origin> := map[];
    var apps: seq<string> := [];
    for i := 0 to |names|
      invariant routing == Routed(t.routing, names[..i])
      invariant apps == Announced(queues, RoutedOrigins(t.routing, names[..i]))
    {
      assert names[..i + 1] == names[..i] + [names[i]];
      NarrowStep(queues, t.routing, names[..i], names[i]);
      if names[i] in t.routing {
        routing := routing[names[i] := t.routing[names[i]]];
        var app := AppOf(queues, t.routing[names[i]]);
        if app !in apps {
          apps := apps + [app];
        }
      }
    }
    assert names[..|names|] == names;
    r := Toolset(names, routing, apps);
  }

  lemma RoutedOriginsSnoc(routing: map<string, Origin>, names: seq<string>, n: string)
    ensures RoutedOrigins(routing, names + [n])
         == if n in routing then RoutedOrigins(routing, names) + [routing[n]] else RoutedOrigins(routing, names)
  {
    assert (names + [n])[..|names|] == names;
  }

  lemma {:induction false} RoutedOriginsMembers(routing: map<string, Origin>, names: seq<string>, o: Origin)
    ensures o in RoutedOrigins(routing, names) <==> exists n | n in names :: n in routing && routing[n] == o
  {
    if names != [] {
      var init, last := names[..|names| - 1], names[|names| - 1];
      RoutedOriginsMembers(routing, init, o);
      assert names == init + [last];
      assert forall n | n in names :: n in init || n == last;
    }
  }

  // What is sent, executable and announced agree exactly when every kept name
  // came from the toolset being narrowed.
  lemma NarrowedAgrees(queues: seq<Listing>, t: Toolset, names: seq<string>)
    ensures Routed(t.routing, names).Keys == (set n | n in names) <==> forall n | n in names :: n in t.routing
    ensures forall a :: a in Announced(queues, RoutedOrigins(t.routing, names))
                <==> Owned(queues, Routed(t.routing, names), a)
  {
    var origins, routing := RoutedOrigins(t.routing, names), Routed(t.routing, names);
    AnnouncedOwners(queues, origins);
    assert forall n | n in names :: n in routing <==> n in t.routing;
    forall a ensures a in Announced(queues, origins) <==> Owned(queues, routing, a) {
      if a in Announced(queues, origins) {
        var o :| o in origins && AppOf(queues, o) == a;
        RoutedOriginsMembers(t.routing, names, o);
        var n :| n in names && n in t.routing && t.routing[n] == o;
        assert n in routing && AppOf(queues, routing[n]) == a;
      } else if Owned(queues, routing, a) {
        var n :| n in routing && AppOf(queues, routing[n]) == a;
        RoutedOriginsMembers(t.routing, names, routing[n]);
      }
    }
  }

  ghost predicate Owned(queues: seq<Listing>, routing: map<string, Origin>, a: string) {
    exists n | n in routing :: AppOf(queues, routing[n]) == a
  }

  // ---- the tools one message is sent ------------------------------------------------

  const ROUTE_THRESHOLD := 20

  // The router's reading of the model's answer; none of it means "send them all".
  function SelectRelevant(candidates: seq<string>, answer: Option<set<string>>): Option<seq<string>> {
    if |candidates| <= ROUTE_THRESHOLD || answer.None? then None
    else
      var considered := candidates[..Min(MAX_CANDIDATE_TOOLS, |candidates|)];
      var selected := Filter(considered, n => n in answer.value);
      if selected == [] then None else Some(selected)
  }

  lemma {:induction false} FilterDistinct<T(!new)>(xs: seq<T>, p: T -> bool)
    requires Distinct(xs)
    ensures Distinct(Filter(xs, p))
  {
    if xs != [] {
      FilterDistinct(xs[1..], p);
      FilterMembers(xs[1..], p);
    }
  }

  lemma SelectedFacts(candidates: seq<string>, answer: Option<set<string>>)
    requires Distinct(candidates)
    ensures
      var keep := SelectRelevant(candidates, answer).GetOr(candidates);
      Distinct(keep) && forall n | n in keep :: n in candidates
  {
    var considered := candidates[..Min(MAX_CANDIDATE_TOOLS, |candidates|)];
    if answer.Some? {
      FilterDistinct(considered, n => n in answer.value);
      FilterMembers(considered, n => n in answer.value);
    }
  }

  // With more than 20 candidates and an answer naming any of the first 200, exactly
  // the named ones are kept, in their order; otherwise nothing is decided.
  lemma SelectedAre(candidates: seq<string>, answer: Option<set<string>>)
    ensures
      var considered := if |candidates| <= 200 then candidates else candidates[..200];
      var selected := SelectRelevant(candidates, answer);
      && (selected.Some? <==> |candidates| > 20 && answer.Some? && exists n | n in considered :: n in answer.value)
      && (selected.Some? ==> Subsequence(selected.value, considered))
      && (selected.Some? ==> forall n :: n in selected.value <==> n in considered && n in answer.value)
  {
    var considered := if |candidates| <= 200 then candidates else candidates[..200];
    assert candidates[..Min(MAX_CANDIDATE_TOOLS, |candidates|)] == considered;
    if answer.Some? {
      FilterMembers(considered, n => n in answer.value);
      FilterIsSubsequence(considered, n => n in answer.value);
      var kept := Filter(considered, n => n in answer.value);
      assert kept != [] ==> kept[0] in kept;
    }
  }

  ghost predicate InAgreement(queues: seq<Listing>, t: Toolset) {
    && Distinct(t.names)
    && t.routing.Keys == (set n | n in t.names)
    && Distinct(t.apps)
    && forall a :: a in t.apps <==> Owned(queues, t.routing, a)
  }

  // Narrowing to tools of the toolset keeps it in agreement.
  lemma NarrowedInAgreement(queues: seq<Listing>, full: Toolset, origins: seq<Origin>, sent: Toolset)
    requires NamesOk(full, origins) && Distinct(sent.names) && forall n | n in sent.names :: n in full.names
    requires sent.routing == Routed(full.routing, sent.names)
    requires sent.apps == Announced(queues, RoutedOrigins(full.routing, sent.names))
    ensures InAgreement(queues, sent)
  {
    NarrowedAgrees(queues, full, sent.names);
    AnnouncedOwners(queues, RoutedOrigins(full.routing, sent.names));
  }

  lemma CutRoutes(full: Toolset, origins: seq<Origin>, sent: Toolset)
    requires NamesOk(full, origins) && sent.names <= full.names
    requires sent.routing == Routed(full.routing, sent.names)
    ensures Routes(sent, origins[..|sent.names|])
  {
    forall i | 0 <= i < |sent.names|
      ensures sent.names[i] in sent.routing && sent.routing[sent.names[i]] == origins[i]
    {
      assert sent.names[i] == full.names[i];
    }
  }

  ghost predicate Routes(t: Toolset, origins: seq<Origin>) {
    && |t.names| == |origins|
    && forall i | 0 <= i < |t.names| :: t.names[i] in t.routing && t.routing[t.names[i]] == origins[i]
  }

  lemma Shortened(names: seq<string>, keep: seq<string>, cut: seq<string>)
    requires Distinct(keep) && cut <= keep && forall n | n in keep :: n in names
    ensures Distinct(cut) && forall n | n in cut :: n in names
  {
    assert forall n | n in cut :: n in keep;
  }

  // What building and narrowing one message's tools gave.
  datatype Offer = Offer(full: Toolset, keep: seq<string>, sent: Toolset)

  ghost predicate Narrowed(queues: seq<Listing>, o: Offer) {
    && o.sent.names == o.keep[..Min(60, |o.keep|)]
    && o.sent.routing == Routed(o.full.routing, o.sent.names)
    && o.sent.apps == Announced(queues, RoutedOrigins(o.full.routing, o.sent.names))
  }

  lemma OfferAgrees(queues: seq<Listing>, o: Offer, origins: seq<Origin>, answer: Option<set<string>>)
    requires NamesOk(o.full, origins) && Narrowed(queues, o)
    requires o.keep == SelectRelevant(o.full.names, answer).GetOr(o.full.names)
    ensures InAgreement(queues, o.sent)
    ensures SelectRelevant(o.full.names, answer).None? ==> Routes(o.sent, origins[..Min(MAX_BRIDGED_TOOLS, |origins|)])
  {
    SelectedFacts(o.full.names, answer);
    Shortened(o.full.names, o.keep, o.sent.names);
    NarrowedInAgreement(queues, o.full, origins, o.sent);
    if SelectRelevant(o.full.names, answer).None? {
      CutRoutes(o.full, origins, o.sent);
    }
  }

  // Build, route, narrow: whatever the router answers, names sent, names
  // executable and apps announced agree; left undecided, the cut stays fair.
  method ToolsForMessage(listings: seq<Listing>, answer: Option<set<string>>)
    returns (o: Offer, ghost origins: seq<Origin>)
    // the whole toolset is the fair merge of the listed tools
    ensures |o.full.names| == |origins| == Min(200, TotalTools(listings))
    ensures InOrder(Lengths(NonEmpty(listings)), origins) && RoundRobin(origins)
    ensures FairThroughout(Lengths(NonEmpty(listings)), origins)
    ensures NamesOk(o.full, origins) && AllChristened(NonEmpty(listings), o.full.names, origins)
    ensures o.full.apps == Announced(NonEmpty(listings), origins)
    // what is sent is its narrowing
    ensures o.keep == SelectRelevant(o.full.names, answer).GetOr(o.full.names)
    ensures Narrowed(NonEmpty(listings), o) && InAgreement(NonEmpty(listings), o.sent)
    ensures SelectRelevant(o.full.names, answer).None? ==> Routes(o.sent, origins[..Min(60, |origins|)])
    ensures FairThroughout(Lengths(NonEmpty(listings)), origins[..Min(60, |origins|)])
  {
    var full;
    full, origins := BuildToolset(listings);
    CutStaysFair(Lengths(NonEmpty(listings)), origins, Min(MAX_BRIDGED_TOOLS, |origins|));
    var keep := SelectRelevant(full.names, answer).GetOr(full.names);
    var sent := NarrowTo(NonEmpty(listings), full, keep, MAX_BRIDGED_TOOLS);
    o := Offer(full, keep, sent);
    OfferAgrees(NonEmpty(listings), o, origins, answer);
  }

  lemma CutStaysFair(lengths: seq<nat>, origins: seq<Origin>, n: nat)
    requires n <= |origins| && FairThroughout(lengths, origins) && InOrder(lengths, origins)
    ensures FairThroughout(lengths, origins[..n]) && InOrder(lengths, origins[..n])
  {
    assert forall p | 0 <= p <= n :: origins[..n][..p] == origins[..p];
  }
}
