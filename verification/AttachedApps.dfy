// Which connected apps a conversation has attached, and which of their actions:
// a capped record that only grows, merged turn by turn.
module AttachedApps {
  import opened Prelude

  const MAX_ACTIONS_PER_APP := 24
  const SERVER_ROUTE_THRESHOLD := 1

  // Server name to the actions exposed; the empty list means "everything".
  type Record = map<string, seq<string>>

  // The action router returns at least one action, or nothing at all.
  type Actions = s: seq<string> | s != [] witness [""]

  datatype Server = Server(name: string, app: string)
  datatype Sent = Sent(name: string, enabled: Option<seq<string>>)

  function Lookup(r: Record, k: string): Option<seq<string>> {
    if k in r then Some(r[k]) else None
  }

  // xs.slice(-n) for n > 0.
  function Tail(xs: seq<string>, n: nat): seq<string> {
    if |xs| <= n then xs else xs[|xs| - n..]
  }

  function Union(before: seq<string>, actions: seq<string>): seq<string> {
    Dedup(before + actions)
  }

  function MergedList(before: Option<seq<string>>, actions: seq<string>): seq<string> {
    if before == Some([]) || actions == [] then []
    else Tail(Union(before.GetOr([]), actions), MAX_ACTIONS_PER_APP)
  }

  function Merged(previous: Record, attaching: Record): Record {
    map k | k in previous.Keys + attaching.Keys ::
      if k in attaching then MergedList(Lookup(previous, k), attaching[k]) else previous[k]
  }

  // ---- one list ---------------------------------------------------------------------

  ghost predicate KeptList(xs: seq<string>) {
    Distinct(xs) && |xs| <= MAX_ACTIONS_PER_APP
  }

  lemma UnionFacts(before: seq<string>, actions: seq<string>)
    requires Distinct(before)
    ensures Distinct(Union(before, actions)) && before <= Union(before, actions)
    ensures forall x :: x in Union(before, actions) <==> x in before || x in actions
  {
    DedupFacts(before + actions);
    DedupExtends(before, actions);
    DedupDistinct(before);
  }

  // What the merge starts from: a server with no list yet has no entry.
  function Listed(before: seq<string>): Option<seq<string>> {
    if before == [] then None else Some(before)
  }

  // A merged list is duplicate-free and capped, never shrinks, and keeps the old
  // one as a prefix as long as the union fits.
  lemma MergedListKeeps(before: seq<string>, actions: seq<string>)
    requires KeptList(before) && actions != []
    ensures
      var merged := MergedList(Listed(before), actions);
      && KeptList(merged) && merged != [] && |merged| >= |before|
      && (|Union(before, actions)| <= MAX_ACTIONS_PER_APP ==> before <= merged)
      && (|Union(before, actions)| <= MAX_ACTIONS_PER_APP ==> forall a | a in actions :: a in merged)
      && (|merged| < MAX_ACTIONS_PER_APP ==> before <= merged)
  {
    UnionFacts(before, actions);
    assert actions[0] in Union(before, actions);
  }

  // What the cap keeps is the end of the union.
  lemma MergedIsTail(before: seq<string>, actions: seq<string>)
    requires actions != []
    ensures MergedList(Listed(before), actions)
         == Union(before, actions)[Max(0, |Union(before, actions)| - MAX_ACTIONS_PER_APP)..]
  {
  }

  lemma SurvivesIfLate(before: seq<string>, actions: seq<string>, i: nat)
    requires actions != [] && i < |Union(before, actions)|
    requires i >= |Union(before, actions)| - MAX_ACTIONS_PER_APP
    ensures Union(before, actions)[i] in MergedList(Listed(before), actions)
  {
    MergedIsTail(before, actions);
    var cut := Max(0, |Union(before, actions)| - MAX_ACTIONS_PER_APP);
    assert MergedList(Listed(before), actions)[i - cut] == Union(before, actions)[i];
  }

  // Actions the list did not have survive the cap, up to 24 of them.
  lemma NewActionsSurvive(before: seq<string>, actions: seq<string>, a: string)
    requires KeptList(before) && a in actions && a !in before
    requires |Union(before, actions)| - |before| <= MAX_ACTIONS_PER_APP
    ensures a in MergedList(Listed(before), actions)
  {
    UnionFacts(before, actions);
    var union := Union(before, actions);
    var i :| 0 <= i < |union| && union[i] == a;
    assert forall j | 0 <= j < |before| :: union[j] == before[j] && union[j] in before;
    SurvivesIfLate(before, actions, i);
  }

  // The cap keeps every incoming action exactly when none sits among the oldest
  // places the union has to give up, be it an action listed before or one of more
  // than 24 new ones.
  lemma IncomingSurviveIff(before: seq<string>, actions: seq<string>)
    requires KeptList(before) && actions != []
    ensures
      (forall a | a in actions :: a in MergedList(Listed(before), actions)) <==>
      (forall i | 0 <= i < |Union(before, actions)| - MAX_ACTIONS_PER_APP :: Union(before, actions)[i] !in actions)
  {
    UnionFacts(before, actions);
    MergedIsTail(before, actions);
    var union := Union(before, actions);
    forall a | a in actions && forall i | 0 <= i < |union| - MAX_ACTIONS_PER_APP :: union[i] !in actions
      ensures a in MergedList(Listed(before), actions)
    {
      var i :| 0 <= i < |union| && union[i] == a;
      SurvivesIfLate(before, actions, i);
    }
  }

  // Of the actions the list did not have, all survive exactly when they are at
  // most 24; for a server with no list yet, that is all the incoming ones.
  lemma NewActionsSurviveIff(before: seq<string>, actions: seq<string>)
    requires KeptList(before) && actions != []
    ensures
      (forall a | a in actions && a !in before :: a in MergedList(Listed(before), actions)) <==>
      |Union(before, actions)| - |before| <= MAX_ACTIONS_PER_APP
  {
    UnionFacts(before, actions);
    MergedIsTail(before, actions);
    var union := Union(before, actions);
    if |union| - |before| <= MAX_ACTIONS_PER_APP {
      forall a | a in actions && a !in before ensures a in MergedList(Listed(before), actions) {
        NewActionsSurvive(before, actions, a);
      }
    } else {
      var first := union[|before|];
      assert forall j | 0 <= j < |before| :: union[j] == before[j];
      assert first in actions && first !in before;
      assert first !in MergedList(Listed(before), actions);
    }
  }

  // A first turn routed to 25 actions loses the first of them.
  lemma FreshListOverflows(actions: seq<string>)
    requires Distinct(actions) && |actions| == MAX_ACTIONS_PER_APP + 1
    ensures actions[0] !in MergedList(None, actions)
  {
    assert [] + actions == actions;
    DedupDistinct(actions);
  }

  // The record promises never to drop an incoming action; a full list drops one it had.
  function Letters(n: nat): seq<string>
    requires n <= 26
  {
    seq(n, i requires 0 <= i < n => [('a' as int + i) as char])
  }

  lemma LettersDiffer(n: nat)
    requires n <= 26
    ensures Distinct(Letters(n)) && Dedup(Letters(n)) == Letters(n)
  {
    assert forall i, j | 0 <= i < j < n :: Letters(n)[i][0] != Letters(n)[j][0];
    DedupDistinct(Letters(n));
  }

  lemma IncomingActionEvicted()
    ensures KeptList(Letters(24)) && Letters(24)[0] == "a"
    ensures "a" !in MergedList(Some(Letters(24)), ["a", "z"])
  {
    var before := Letters(24);
    LettersDiffer(24);
    assert before[0] == "a" && "a" in before;
    assert "z" !in before by {
      assert forall i | 0 <= i < 24 :: before[i][0] != "z"[0];
    }
    DedupSnoc(before, "a");
    DedupSnoc(before + ["a"], "z");
    assert before + ["a", "z"] == before + ["a"] + ["z"];
    assert Dedup(before + ["a"]) == before;
    assert Dedup(before + ["a"] + ["z"]) == before + ["z"];
    assert Tail(before + ["z"], 24) == before[1..] + ["z"];
    forall i | 1 <= i < 24 ensures before[i] != before[0] {
      assert before[i][0] != before[0][0];
    }
  }

  // ---- one turn ---------------------------------------------------------------------

  // The app router's reading of the model's answer: null means all of them, an
  // explicitly empty list means none.
  function RelevantServers(undecided: seq<Server>, answer: Option<set<string>>): seq<Server> {
    if |undecided| <= SERVER_ROUTE_THRESHOLD || answer.None? then undecided
    else if answer.value == {} then []
    else
      var selected := Filter(undecided, (s: Server) => s.app in answer.value);
      if selected == [] then undecided else selected
  }

  function Undecided(servers: seq<Server>, sticky: Record): seq<Server> {
    Filter(servers, (s: Server) => s.name !in sticky)
  }

  function Chosen(servers: seq<Server>, sticky: Record, answer: Option<set<string>>): set<string> {
    (set s | s in servers && s.name in sticky :: s.name)
    + (set s | s in RelevantServers(Undecided(servers, sticky), answer) :: s.name)
  }

  function EntryFor(remembered: Option<seq<string>>, routed: Option<Actions>): seq<string> {
    if remembered == Some([]) then []
    else if routed.Some? then routed.value
    else remembered.GetOr([])
  }

  function Attaching(servers: seq<Server>, chosen: set<string>, sticky: Record,
                     routed: Server -> Option<Actions>): Record {
    if servers == [] then map[]
    else
      var s := servers[|servers| - 1];
      var rest := Attaching(servers[..|servers| - 1], chosen, sticky, routed);
      if s.name in chosen then rest[s.name := EntryFor(Lookup(sticky, s.name), routed(s))] else rest
  }

  function Enabled(actions: seq<string>): Option<seq<string>> {
    if actions == [] then None else Some(actions)
  }

  function SentFrom(servers: seq<Server>, record: Record): seq<Sent> {
    if servers == [] then []
    else
      var s := servers[|servers| - 1];
      SentFrom(servers[..|servers| - 1], record)
      + if s.name in record then [Sent(s.name, Enabled(record[s.name]))] else []
  }

  // Without a conversation nothing is remembered: the turn's own entries go out.
  function SentAlone(servers: seq<Server>, chosen: set<string>, routed: Server -> Option<Actions>): seq<Sent> {
    if servers == [] then []
    else
      var s := servers[|servers| - 1];
      SentAlone(servers[..|servers| - 1], chosen, routed)
      + if s.name in chosen then [Sent(s.name, Enabled(EntryFor(None, routed(s))))] else []
  }

  function Handed(sent: seq<Sent>): Record {
    if sent == [] then map[]
    else Handed(sent[..|sent| - 1])[sent[|sent| - 1].name := sent[|sent| - 1].enabled.GetOr([])]
  }

  // The entries still to merge are the ones left as they were.
  ghost predicate MergedSoFar(previous: Record, attaching: Record, todo: set<string>, merged: Record) {
    && merged.Keys == previous.Keys + (attaching.Keys - todo)
    && forall k | k in merged ::
         merged[k] == if k in attaching.Keys - todo then MergedList(Lookup(previous, k), attaching[k]) else previous[k]
  }

  lemma MergeStep(previous: Record, attaching: Record, todo: set<string>, merged: Record, k: string)
    requires MergedSoFar(previous, attaching, todo, merged) && k in todo && todo <= attaching.Keys
    ensures Lookup(merged, k) == Lookup(previous, k)
    ensures MergedSoFar(previous, attaching, todo - {k}, merged[k := MergedList(Lookup(merged, k), attaching[k])])
  {
  }

  // ---- the store and the service ------------------------------------------------------

  class AttachedAppsService {
    var records: map<string, Record>

    ghost function Stored(conversation: string): Record
      reads this
    {
      if conversation in records then records[conversation] else map[]
    }

    // A failed read is an empty record: it costs a re-route, never a run.
    method Get(conversation: string, up: bool) returns (r: Record)
      ensures r == if up then Stored(conversation) else map[]
    {
      r := if up && conversation in records then records[conversation] else map[];
    }

    method Replace(conversation: string, apps: Record, up: bool)
      modifies this
      ensures records == if up then old(records)[conversation := apps] else old(records)
    {
      if up {
        records := records[conversation := apps];
      }
    }

    static method MergeEntry(record: Record, k: string, actions: seq<string>) returns (r: Record)
      ensures r == record[k := MergedList(Lookup(record, k), actions)]
    {
      if (k in record && record[k] == []) || actions == [] {
        r := record[k := []];
      } else {
        var union := Dedup((if k in record then record[k] else []) + actions);
        r := record[k := Tail(union, MAX_ACTIONS_PER_APP)];
      }
    }

    method Merge(conversation: string, attaching: Record, readUp: bool, writeUp: bool) returns (merged: Record)
      modifies this
      ensures merged == Merged(if readUp then old(Stored(conversation)) else map[], attaching)
      ensures records == if writeUp then old(records)[conversation := merged] else old(records)
    {
      var previous := Get(conversation, readUp);
      merged := previous;
      var todo := attaching.Keys;
      while todo != {}
        invariant todo <= attaching.Keys && records == old(records)
        invariant MergedSoFar(previous, attaching, todo, merged)
      {
        var k :| k in todo;
        MergeStep(previous, attaching, todo, merged, k);
        merged := MergeEntry(merged, k, attaching[k]);
        todo := todo - {k};
      }
      Replace(conversation, merged, writeUp);
    }
  }

  // Which of the store's operations succeed during one turn.
  datatype Redis = Redis(get: bool, mergeGet: bool, mergeSet: bool, branchSet: bool)

  method ChooseServers(servers: seq<Server>, sticky: Record, answer: Option<set<string>>) returns (chosen: set<string>)
    ensures chosen == Chosen(servers, sticky, answer)
  {
    chosen := set s | s in servers && s.name in sticky :: s.name;
    var undecided := Undecided(servers, sticky);
    if undecided != [] {
      var relevant := RelevantServers(undecided, answer);
      ghost var decided := chosen;
      for i := 0 to |relevant|
        invariant chosen == decided + set s | s in relevant[..i] :: s.name
      {
        assert relevant[..i + 1] == relevant[..i] + [relevant[i]];
        chosen := chosen + {relevant[i].name};
      }
      assert relevant[..|relevant|] == relevant;
    }
  }

  method CollectEntries(servers: seq<Server>, chosen: set<string>, sticky: Record, routed: Server -> Option<Actions>)
    returns (attaching: Record)
    ensures attaching == Attaching(servers, chosen, sticky, routed)
  {
    attaching := map[];
    for i := 0 to |servers|
      invariant attaching == Attaching(servers[..i], chosen, sticky, routed)
    {
      assert servers[..i + 1][..i] == servers[..i];
      var s := servers[i];
      if s.name in chosen {
        var remembered := Lookup(sticky, s.name);
        if remembered == Some([]) {
          attaching := attaching[s.name := []];
        } else {
          var enabled := routed(s);
          if enabled.None? && remembered.Some? {
            attaching := attaching[s.name := remembered.value];
          } else {
            var entry: seq<string> := if enabled.Some? then enabled.value else [];
            attaching := attaching[s.name := entry];
          }
        }
      }
    }
    assert servers[..|servers|] == servers;
  }

  // The record this turn's servers are sent from, when there is a conversation.
  function TurnSpec(sticky: Record, previous: Record, servers: seq<Server>, answer: Option<set<string>>,
                    routed: Server -> Option<Actions>): Record {
    Merged(previous, Attaching(servers, Chosen(servers, sticky, answer), sticky, routed))
  }

  method AttachServers(store: AttachedAppsService, servers: seq<Server>, answer: Option<set<string>>,
                       routed: Server -> Option<Actions>, conversation: string, branch: Option<string>, redis: Redis)
    returns (sending: seq<Sent>)
    modifies store
    ensures
      var sticky := if redis.get then old(store.Stored(conversation)) else map[];
      var previous := if redis.mergeGet then old(store.Stored(conversation)) else map[];
      var next := TurnSpec(sticky, previous, servers, answer, routed);
      var kept := if redis.mergeSet then old(store.records)[conversation := next] else old(store.records);
      if Chosen(servers, sticky, answer) == {} then sending == [] && store.records == old(store.records)
      else (
        && sending == SentFrom(servers, next)
        && store.records == if branch.Some? && redis.branchSet then kept[branch.value := Handed(sending)] else kept
      )
    ensures redis.mergeSet && branch.None? ==>
      store.Stored(conversation)
      == AfterReads(old(store.Stored(conversation)), Turn(servers, answer, routed), redis.get, redis.mergeGet)
  {
    var sticky := store.Get(conversation, redis.get);
    var chosen := ChooseServers(servers, sticky, answer);
    if chosen == {} {
      return [];
    }
    var attaching := CollectEntries(servers, chosen, sticky, routed);
    var merged := store.Merge(conversation, attaching, redis.mergeGet, redis.mergeSet);
    sending := SentFrom(servers, merged);
    if branch.Some? {
      store.Replace(branch.value, Handed(sending), redis.branchSet);
    }
  }

  // A run outside any conversation reads and merges nothing.
  method AttachOnce(store: AttachedAppsService, servers: seq<Server>, answer: Option<set<string>>,
                    routed: Server -> Option<Actions>, branch: Option<string>, branchSet: bool)
    returns (sending: seq<Sent>)
    modifies store
    ensures sending == SentAlone(servers, Chosen(servers, map[], answer), routed)
    ensures
      store.records ==
      if sending != [] && branch.Some? && branchSet then old(store.records)[branch.value := Handed(sending)]
      else old(store.records)
  {
    var chosen := ChooseServers(servers, map[], answer);
    ChosenAreSent(servers, answer, routed);
    if chosen == {} {
      return [];
    }
    sending := SentAlone(servers, chosen, routed);
    if branch.Some? {
      store.Replace(branch.value, Handed(sending), branchSet);
    }
  }

  lemma RelevantMembers(servers: seq<Server>, sticky: Record, answer: Option<set<string>>)
    ensures forall s | s in RelevantServers(Undecided(servers, sticky), answer) :: s in servers && s.name !in sticky
  {
    FilterMembers(servers, (s: Server) => s.name !in sticky);
    if answer.Some? {
      FilterMembers(Undecided(servers, sticky), (s: Server) => s.app in answer.value);
    }
  }

  lemma ChosenAreSent(servers: seq<Server>, answer: Option<set<string>>, routed: Server -> Option<Actions>)
    ensures Chosen(servers, map[], answer) == {} <==> SentAlone(servers, Chosen(servers, map[], answer), routed) == []
  {
    var chosen := Chosen(servers, map[], answer);
    var undecided := Undecided(servers, map[]);
    RelevantMembers(servers, map[], answer);
    SentAloneEmpty(servers, chosen, routed);
    if chosen != {} {
      var n :| n in chosen;
      var s :| s in RelevantServers(undecided, answer) && s.name == n;
      assert s in servers;
    }
  }

  lemma {:induction false} SentAloneEmpty(servers: seq<Server>, chosen: set<string>, routed: Server -> Option<Actions>)
    ensures SentAlone(servers, chosen, routed) == [] <==> forall s | s in servers :: s.name !in chosen
  {
    if servers != [] {
      var init, last := servers[..|servers| - 1], servers[|servers| - 1];
      SentAloneEmpty(init, chosen, routed);
      assert servers == init + [last];
    }
  }

  // ---- whole threads --------------------------------------------------------------------

  datatype Turn = Turn(servers: seq<Server>, answer: Option<set<string>>, routed: Server -> Option<Actions>)

  // What a turn leaves in the record, the store working.
  function After(record: Record, t: Turn): Record {
    if Chosen(t.servers, record, t.answer) == {} then record
    else TurnSpec(record, record, t.servers, t.answer, t.routed)
  }

  function RunThread(record: Record, turns: seq<Turn>): Record {
    if turns == [] then record else After(RunThread(record, turns[..|turns| - 1]), turns[|turns| - 1])
  }

  ghost predicate Kept(record: Record) {
    forall k | k in record :: KeptList(record[k])
  }

  // How one server's list may change: "everything" stays, a narrowed list never
  // widens to everything, and it grows at the end until the cap.
  ghost predicate Grown(was: seq<string>, now: seq<string>) {
    && (was == [] <==> now == [])
    && |was| <= |now|
    && (|now| < MAX_ACTIONS_PER_APP ==> was <= now)
  }

  ghost predicate AllGrown(before: Record, after: Record) {
    forall k | k in before :: k in after && Grown(before[k], after[k])
  }

  lemma {:induction false} AttachingFacts(servers: seq<Server>, chosen: set<string>, sticky: Record,
                                          routed: Server -> Option<Actions>, k: string)
    ensures k in Attaching(servers, chosen, sticky, routed) <==> k in chosen && exists s | s in servers :: s.name == k
    ensures k in Attaching(servers, chosen, sticky, routed) ==>
              exists s | s in servers :: s.name == k
                && Attaching(servers, chosen, sticky, routed)[k] == EntryFor(Lookup(sticky, k), routed(s))
  {
    if servers != [] {
      var init, last := servers[..|servers| - 1], servers[|servers| - 1];
      AttachingFacts(init, chosen, sticky, routed, k);
      assert servers == init + [last];
    }
  }

  lemma TurnGrowsEntry(record: Record, t: Turn, k: string)
    requires Kept(record) && k in After(record, t)
    ensures KeptList(After(record, t)[k])
    ensures k in record ==> Grown(record[k], After(record, t)[k])
    ensures k in record && (forall s | s in t.servers && s.name == k :: t.routed(s).None?) ==>
              After(record, t)[k] == record[k]
  {
    var chosen := Chosen(t.servers, record, t.answer);
    var attaching := Attaching(t.servers, chosen, record, t.routed);
    AttachingFacts(t.servers, chosen, record, t.routed, k);
    if chosen != {} && k in attaching && attaching[k] != [] {
      var before := Lookup(record, k).GetOr([]);
      MergedListKeeps(before, attaching[k]);
      if attaching[k] == before {
        UnionOfItself(before);
      }
    }
  }

  predicate Relevant(record: Record, t: Turn, k: string) {
    exists s | s in RelevantServers(Undecided(t.servers, record), t.answer) :: s.name == k
  }

  // A turn attaches what the thread already had and what the app router picked
  // among the rest, and nothing else.
  lemma TurnAttachesExactly(record: Record, t: Turn, k: string)
    ensures k in After(record, t) <==> k in record || Relevant(record, t, k)
  {
    var chosen := Chosen(t.servers, record, t.answer);
    AttachingFacts(t.servers, chosen, record, t.routed, k);
    RelevantMembers(t.servers, record, t.answer);
    assert k in chosen && k !in record ==> Relevant(record, t, k);
    assert Relevant(record, t, k) ==> k in chosen;
  }

  // An app router that cannot decide leaves no connected server out.
  lemma UndecidedAttachesAll(record: Record, t: Turn, s: Server)
    requires s in t.servers && t.answer.None?
    ensures s.name in After(record, t)
  {
    FilterMembers(t.servers, (x: Server) => x.name !in record);
    assert s.name !in record ==> s in RelevantServers(Undecided(t.servers, record), t.answer);
    TurnAttachesExactly(record, t, s.name);
  }

  // Every action routed this turn to an attached, narrowed server is exposed in
  // this turn, as long as the union fits or the action is among at most 24 new ones.
  lemma RoutedActionsAreExposed(record: Record, t: Turn, s: Server, a: string)
    requires Kept(record) && s in t.servers && forall x | x in t.servers && x.name == s.name :: x == s
    requires s.name in record || Relevant(record, t, s.name)
    requires Lookup(record, s.name) != Some([]) && t.routed(s).Some? && a in t.routed(s).value
    requires
      var before, union := Lookup(record, s.name).GetOr([]), Union(Lookup(record, s.name).GetOr([]), t.routed(s).value);
      |union| <= MAX_ACTIONS_PER_APP || (a !in before && |union| - |before| <= MAX_ACTIONS_PER_APP)
    ensures s.name in After(record, t) && a in After(record, t)[s.name]
  {
    var chosen := Chosen(t.servers, record, t.answer);
    AttachingFacts(t.servers, chosen, record, t.routed, s.name);
    TurnAttachesExactly(record, t, s.name);
    assert s.name in chosen;
    var before, actions := Lookup(record, s.name).GetOr([]), t.routed(s).value;
    assert After(record, t)[s.name] == MergedList(Lookup(record, s.name), actions);
    UnionFacts(before, actions);
    if |Union(before, actions)| > MAX_ACTIONS_PER_APP {
      NewActionsSurvive(before, actions, a);
    }
  }

  // All the actions routed this turn to an attached, narrowed server are exposed
  // in this turn exactly when the cap keeps the incoming ones.
  lemma RoutedAreExposedIff(record: Record, t: Turn, s: Server)
    requires Kept(record) && s in t.servers && forall x | x in t.servers && x.name == s.name :: x == s
    requires s.name in record || Relevant(record, t, s.name)
    requires Lookup(record, s.name) != Some([]) && t.routed(s).Some?
    ensures s.name in After(record, t)
    ensures
      var actions, union := t.routed(s).value, Union(Lookup(record, s.name).GetOr([]), t.routed(s).value);
      (forall a | a in actions :: a in After(record, t)[s.name]) <==>
      (forall i | 0 <= i < |union| - MAX_ACTIONS_PER_APP :: union[i] !in actions)
  {
    var chosen := Chosen(t.servers, record, t.answer);
    AttachingFacts(t.servers, chosen, record, t.routed, s.name);
    TurnAttachesExactly(record, t, s.name);
    assert s.name in chosen;
    assert After(record, t)[s.name] == MergedList(Lookup(record, s.name), t.routed(s).value);
    IncomingSurviveIff(Lookup(record, s.name).GetOr([]), t.routed(s).value);
  }

  lemma {:induction false} DedupRepeats(xs: seq<string>, ys: seq<string>)
    requires forall y | y in ys :: y in xs
    ensures Dedup(xs + ys) == Dedup(xs)
  {
    if ys == [] {
      assert xs + ys == xs;
    } else {
      var init, last := ys[..|ys| - 1], ys[|ys| - 1];
      DedupRepeats(xs, init);
      assert xs + ys == xs + init + [last];
      DedupSnoc(xs + init, last);
      DedupFacts(xs);
    }
  }

  lemma UnionOfItself(xs: seq<string>)
    requires Distinct(xs)
    ensures Union(xs, xs) == xs
  {
    DedupRepeats(xs, xs);
    DedupDistinct(xs);
  }

  lemma TurnKeeps(record: Record, t: Turn)
    requires Kept(record)
    ensures Kept(After(record, t)) && AllGrown(record, After(record, t))
  {
    forall k | k in After(record, t) ensures KeptList(After(record, t)[k]) {
      TurnGrowsEntry(record, t, k);
    }
    forall k | k in record ensures k in After(record, t) && Grown(record[k], After(record, t)[k]) {
      TurnGrowsEntry(record, t, k);
    }
  }

  // A server whose actions the router could not decide keeps exactly its list.
  lemma RouterFailureChangesNothing(record: Record, t: Turn, k: string)
    requires Kept(record) && k in record && forall s | s in t.servers && s.name == k :: t.routed(s).None?
    ensures k in After(record, t) && After(record, t)[k] == record[k]
  {
    TurnGrowsEntry(record, t, k);
  }

  lemma GrownTransitive(a: Record, b: Record, c: Record)
    requires AllGrown(a, b) && AllGrown(b, c)
    ensures AllGrown(a, c)
  {
    forall k | k in a ensures k in c && Grown(a[k], c[k]) {
      assert Grown(a[k], b[k]) && Grown(b[k], c[k]);
    }
  }

  lemma {:induction false} ThreadStaysKept(record: Record, turns: seq<Turn>)
    requires Kept(record)
    ensures Kept(RunThread(record, turns))
  {
    if turns != [] {
      ThreadStaysKept(record, turns[..|turns| - 1]);
      TurnKeeps(RunThread(record, turns[..|turns| - 1]), turns[|turns| - 1]);
    }
  }

  lemma {:induction false} RunThreadAppend(record: Record, a: seq<Turn>, b: seq<Turn>)
    ensures RunThread(record, a + b) == RunThread(RunThread(record, a), b)
  {
    if b == [] {
      assert a + b == a;
    } else {
      assert (a + b)[..|a + b| - 1] == a + b[..|b| - 1];
      RunThreadAppend(record, a, b[..|b| - 1]);
    }
  }

  lemma {:induction false} ThreadGrows(record: Record, turns: seq<Turn>)
    requires Kept(record)
    ensures AllGrown(record, RunThread(record, turns))
  {
    if turns != [] {
      var init := turns[..|turns| - 1];
      ThreadGrows(record, init);
      ThreadStaysKept(record, init);
      TurnKeeps(RunThread(record, init), turns[|turns| - 1]);
      GrownTransitive(record, RunThread(record, init), RunThread(record, turns));
    }
  }

  // Across any thread, from any earlier turn to any later one: servers stay,
  // everything is absorbing, lists stay clean and grow.
  lemma ThreadKeeps(record: Record, turns: seq<Turn>, i: nat)
    requires Kept(record) && i <= |turns|
    ensures Kept(RunThread(record, turns[..i])) && Kept(RunThread(record, turns))
    ensures AllGrown(RunThread(record, turns[..i]), RunThread(record, turns))
  {
    ThreadStaysKept(record, turns[..i]);
    ThreadStaysKept(record, turns);
    assert turns[..i] + turns[i..] == turns;
    RunThreadAppend(record, turns[..i], turns[i..]);
    ThreadGrows(RunThread(record, turns[..i]), turns[i..]);
  }

  lemma {:induction false} SentFacts(servers: seq<Server>, record: Record, k: string)
    ensures (exists x | x in SentFrom(servers, record) :: x.name == k)
       <==> k in record && exists s | s in servers :: s.name == k
    ensures forall x | x in SentFrom(servers, record) :: x.name in record && x.enabled == Enabled(record[x.name])
  {
    if servers != [] {
      var init, last := servers[..|servers| - 1], servers[|servers| - 1];
      SentFacts(init, record, k);
      assert servers == init + [last];
      var sent, before := SentFrom(servers, record), SentFrom(init, record);
      assert forall x | x in before :: x in sent;
      if last.name in record {
        assert sent[|sent| - 1] == Sent(last.name, Enabled(record[last.name]));
      }
    }
  }

  ghost predicate Enlarged(was: Option<seq<string>>, now: Option<seq<string>>) {
    match (was, now)
    case (None, None) => true
    case (Some(a), Some(b)) => |a| <= |b| && (|b| < MAX_ACTIONS_PER_APP ==> a <= b)
    case _ => false
  }

  // A server sent in one turn and still connected in a later one is sent again,
  // with at least what it had.
  lemma SentGrows(record: Record, turns: seq<Turn>, i: nat, x: Sent, s: Server)
    requires Kept(record) && 0 < i <= |turns|
    requires x in SentFrom(turns[i - 1].servers, RunThread(record, turns[..i]))
    requires s in turns[|turns| - 1].servers && s.name == x.name
    ensures exists y | y in SentFrom(turns[|turns| - 1].servers, RunThread(record, turns)) ::
              y.name == x.name && Enlarged(x.enabled, y.enabled)
  {
    var earlier, now := RunThread(record, turns[..i]), RunThread(record, turns);
    ThreadKeeps(record, turns, i);
    SentFacts(turns[i - 1].servers, earlier, x.name);
    SentFacts(turns[|turns| - 1].servers, now, x.name);
    assert Grown(earlier[x.name], now[x.name]);
    var y :| y in SentFrom(turns[|turns| - 1].servers, now) && y.name == x.name;
  }

  // ---- what the app router's answer means ---------------------------------------------

  // A connected server the thread has not used is picked when there is only one such,
  // or no usable answer; or when the answer names its app; or when a non-empty answer
  // names none of theirs. An empty answer picks none.
  lemma RelevantIff(servers: seq<Server>, sticky: Record, answer: Option<set<string>>, s: Server)
    ensures s in RelevantServers(Undecided(servers, sticky), answer) <==>
      (&& s in servers && s.name !in sticky
       && (|| |Filter(servers, (x: Server) => x.name !in sticky)| <= 1
           || answer.None?
           || (&& answer.value != {}
               && (s.app in answer.value || forall x | x in servers && x.name !in sticky :: x.app !in answer.value))))
  {
    var undecided := Undecided(servers, sticky);
    FilterMembers(servers, (x: Server) => x.name !in sticky);
    if answer.Some? {
      FilterMembers(undecided, (x: Server) => x.app in answer.value);
      var selected := Filter(undecided, (x: Server) => x.app in answer.value);
      if selected != [] {
        assert selected[0] in selected;
      }
    }
  }

  function NamesOf(servers: seq<Server>): seq<string> {
    if servers == [] then [] else NamesOf(servers[..|servers| - 1]) + [servers[|servers| - 1].name]
  }

  function SentNames(sent: seq<Sent>): seq<string> {
    if sent == [] then [] else SentNames(sent[..|sent| - 1]) + [sent[|sent| - 1].name]
  }

  lemma {:induction false} SubsequenceSnoc(a: seq<string>, b: seq<string>, x: string)
    requires Subsequence(a, b)
    ensures Subsequence(a, b + [x]) && Subsequence(a + [x], b + [x])
  {
    if b == [] {
      assert [x][1..] == [];
    } else if a == [] {
      SubsequenceSnoc([], b[1..], x);
      assert (b + [x])[1..] == b[1..] + [x];
      assert [x][1..] == [] && [] + [x] == [x];
      SubsequenceOfAll(b, x);
    } else {
      assert (b + [x])[1..] == b[1..] + [x] && (a + [x])[0] == a[0] && (a + [x])[1..] == a[1..] + [x];
      if a[0] == b[0] {
        SubsequenceSnoc(a[1..], b[1..], x);
      } else {
        SubsequenceSnoc(a, b[1..], x);
      }
    }
  }

  lemma {:induction false} SubsequenceOfAll(b: seq<string>, x: string)
    ensures Subsequence([x], b + [x])
  {
    if b != [] {
      assert (b + [x])[1..] == b[1..] + [x];
      assert [x][1..] == [];
      SubsequenceOfAll(b[1..], x);
    } else {
      assert [] + [x] == [x] && [x][1..] == [];
    }
  }

  // Servers go out in the order they came in.
  lemma {:induction false} SentInOrder(servers: seq<Server>, record: Record)
    ensures Subsequence(SentNames(SentFrom(servers, record)), NamesOf(servers))
  {
    if servers != [] {
      var init, last := servers[..|servers| - 1], servers[|servers| - 1];
      SentInOrder(init, record);
      var before := SentFrom(init, record);
      SubsequenceSnoc(SentNames(before), NamesOf(init), last.name);
      if last.name in record {
        assert SentFrom(servers, record)[..|before|] == before;
      } else {
        assert SentFrom(servers, record) == before;
      }
    }
  }

  // Outside a conversation each picked server goes out with what its actions were
  // routed to, whole when they were not, and no other server does.
  lemma {:induction false} SentAloneIs(servers: seq<Server>, chosen: set<string>,
                                       routed: Server -> Option<Actions>, x: Sent)
    ensures x in SentAlone(servers, chosen, routed) <==>
      exists s | s in servers ::
        s.name == x.name && s.name in chosen && x.enabled == (if routed(s).Some? then Some(routed(s).value) else None)
  {
    if servers != [] {
      var init, last := servers[..|servers| - 1], servers[|servers| - 1];
      SentAloneIs(init, chosen, routed, x);
      assert servers == init + [last];
      assert forall s :: s in servers <==> s in init || s == last;
    }
  }

  // ---- lost reads -----------------------------------------------------------------------

  // What the turn leaves in the record when the first read of it, or the one the
  // merge makes, comes back empty.
  function AfterReads(record: Record, t: Turn, first: bool, second: bool): Record {
    var sticky := if first then record else map[];
    var previous := if second then record else map[];
    if Chosen(t.servers, sticky, t.answer) == {} then record
    else TurnSpec(sticky, previous, t.servers, t.answer, t.routed)
  }

  // The action router's answer for a connected server; of two of one name, the last.
  function RoutedFor(servers: seq<Server>, routed: Server -> Option<Actions>, k: string): Option<Actions> {
    if servers == [] then None
    else if servers[|servers| - 1].name == k then routed(servers[|servers| - 1])
    else RoutedFor(servers[..|servers| - 1], routed, k)
  }

  predicate Connected(servers: seq<Server>, k: string) {
    exists s | s in servers :: s.name == k
  }

  lemma {:induction false} AttachingIs(servers: seq<Server>, chosen: set<string>, sticky: Record,
                                       routed: Server -> Option<Actions>, k: string)
    ensures Lookup(Attaching(servers, chosen, sticky, routed), k) ==
            if k in chosen && Connected(servers, k)
            then Some(EntryFor(Lookup(sticky, k), RoutedFor(servers, routed, k))) else None
  {
    if servers != [] {
      var init, last := servers[..|servers| - 1], servers[|servers| - 1];
      AttachingIs(init, chosen, sticky, routed, k);
      assert servers == init + [last];
    }
  }

  lemma ChosenAre(servers: seq<Server>, sticky: Record, answer: Option<set<string>>, k: string)
    ensures k in Chosen(servers, sticky, answer) ==> Connected(servers, k)
    ensures k in sticky ==> (k in Chosen(servers, sticky, answer) <==> Connected(servers, k))
  {
    RelevantMembers(servers, sticky, answer);
  }

  // This turn's actions alone are as good as the old list.
  predicate Covers(actions: seq<string>, before: seq<string>) {
    |Dedup(actions)| >= MAX_ACTIONS_PER_APP || before <= Dedup(actions)
  }

  // A recorded server keeps what it had, given which reads came back. Without the
  // first, its narrowing is unknown and the action router must have an answer.
  // Without the second, it must be attached again, and by a list that covers its own.
  predicate ReadsSuffice(record: Record, t: Turn, first: bool, second: bool, k: string)
    requires k in record
  {
    var routed := RoutedFor(t.servers, t.routed, k);
    var chosen := Chosen(t.servers, if first then record else map[], t.answer);
    if first && second then true
    else if second then record[k] == [] || k !in chosen || routed.Some?
    else if first then
      Connected(t.servers, k) && (record[k] == [] || routed.None? || Covers(routed.value, record[k]))
    else
      k in chosen
      && if record[k] == [] then routed.None? else routed.Some? && Covers(routed.value, record[k])
  }

  lemma FreshListGrows(before: seq<string>, actions: seq<string>)
    requires KeptList(before) && before != [] && actions != []
    ensures Grown(before, MergedList(None, actions)) <==> Covers(actions, before)
  {
    assert [] + actions == actions;
    DedupFacts(actions);
    assert actions[0] in Dedup(actions);
  }

  lemma SameListAlone(before: seq<string>)
    requires KeptList(before) && before != []
    ensures MergedList(None, before) == before
  {
    assert [] + before == before;
    DedupDistinct(before);
    assert Union([], before) == before;
  }

  lemma SameListAgain(before: seq<string>)
    requires KeptList(before) && before != []
    ensures MergedList(Some(before), before) == before
  {
    UnionOfItself(before);
  }

  // The one entry of the record a turn leaves, whatever the reads gave.
  lemma EntryAfterReads(record: Record, t: Turn, first: bool, second: bool, k: string)
    requires k in record && Chosen(t.servers, if first then record else map[], t.answer) != {}
    ensures
      var chosen := Chosen(t.servers, if first then record else map[], t.answer);
      var entry := EntryFor(if first then Some(record[k]) else None, RoutedFor(t.servers, t.routed, k));
      Lookup(AfterReads(record, t, first, second), k) ==
        if k in chosen then Some(MergedList(if second then Some(record[k]) else None, entry))
        else if second then Some(record[k]) else None
  {
    var sticky := if first then record else map[];
    AttachingIs(t.servers, Chosen(t.servers, sticky, t.answer), sticky, t.routed, k);
    ChosenAre(t.servers, sticky, t.answer, k);
  }

  lemma ReadsSufficeForEntry(record: Record, t: Turn, first: bool, second: bool, k: string)
    requires Kept(record) && k in record
    requires Chosen(t.servers, if first then record else map[], t.answer) != {}
    ensures k in AfterReads(record, t, first, second) && Grown(record[k], AfterReads(record, t, first, second)[k])
       <==> ReadsSuffice(record, t, first, second, k)
  {
    var before, routed := record[k], RoutedFor(t.servers, t.routed, k);
    EntryAfterReads(record, t, first, second, k);
    ChosenAre(t.servers, if first then record else map[], t.answer, k);
    if before != [] {
      SameListAlone(before);
      SameListAgain(before);
      if routed.Some? {
        FreshListGrows(before, routed.value);
        MergedListKeeps(before, routed.value);
      }
    }
  }

  // Over the four combinations of the two reads: every recorded server stays and
  // its list grows if and only if nothing was attached at all, or the reads
  // suffice for each.
  lemma GrowsIffReadsSuffice(record: Record, t: Turn, first: bool, second: bool)
    requires Kept(record)
    ensures AllGrown(record, AfterReads(record, t, first, second)) <==>
      (Chosen(t.servers, if first then record else map[], t.answer) == {}
       || forall k | k in record :: ReadsSuffice(record, t, first, second, k))
  {
    if Chosen(t.servers, if first then record else map[], t.answer) != {} {
      forall k | k in record
        ensures k in AfterReads(record, t, first, second) && Grown(record[k], AfterReads(record, t, first, second)[k])
           <==> ReadsSuffice(record, t, first, second, k)
      {
        ReadsSufficeForEntry(record, t, first, second, k);
      }
    }
  }

  // With only the first read lost, a narrowed server becomes whole exactly when
  // it is attached and the action router has no answer; whole is absorbing.
  lemma LostReadWidensIff(record: Record, t: Turn, k: string)
    requires Kept(record) && k in record && record[k] != []
    ensures Lookup(AfterReads(record, t, false, true), k) == Some([]) <==>
      (k in Chosen(t.servers, map[], t.answer) && RoutedFor(t.servers, t.routed, k).None?)
  {
    var chosen := Chosen(t.servers, map[], t.answer);
    AttachingIs(t.servers, chosen, map[], t.routed, k);
    ChosenAre(t.servers, map[], t.answer, k);
    if RoutedFor(t.servers, t.routed, k).Some? {
      MergedListKeeps(record[k], RoutedFor(t.servers, t.routed, k).value);
    }
  }

  const Ads := Server("ads", "ads")

  function AdsTurn(routed: Option<Actions>): Turn {
    Turn([Ads], None, s => routed)
  }

  // A narrowed server made whole by the lost first read.
  lemma LostFirstReadWidens()
    ensures Lookup(AfterReads(map["ads" := ["a", "b"]], AdsTurn(None), false, true), "ads") == Some([])
  {
    var record: Record := map["ads" := ["a", "b"]];
    assert Ads in [Ads];
    assert "a"[0] != "b"[0];
    assert Undecided([Ads], map[]) == [Ads];
    assert Ads in RelevantServers([Ads], None);
    assert RoutedFor([Ads], AdsTurn(None).routed, "ads") == None;
    LostReadWidensIff(record, AdsTurn(None), "ads");
  }

  lemma OnlyAdsChosen(record: Record)
    requires "ads" in record
    ensures Chosen([Ads], record, None) == {"ads"}
  {
    assert Ads in [Ads];
    forall k | k in Chosen([Ads], record, None) ensures k == "ads" {
      ChosenAre([Ads], record, None, k);
    }
    assert "ads" in Chosen([Ads], record, None);
  }

  lemma OnlyAdsLeft(record: Record, actions: Actions)
    requires "ads" in record
    ensures AfterReads(record, AdsTurn(Some(actions)), true, false).Keys <= {"ads"}
  {
    OnlyAdsChosen(record);
    var t := AdsTurn(Some(actions));
    forall k | k in AfterReads(record, t, true, false) ensures k == "ads" {
      AttachingIs([Ads], Chosen([Ads], record, None), record, t.routed, k);
    }
  }

  lemma OneAction()
    ensures MergedList(None, ["c"]) == ["c"]
  {
    SameListAlone(["c"]);
  }

  // A narrowed list replaced by a shorter one, and a server that is not connected
  // this turn forgotten, by the lost second read.
  lemma LostSecondReadShrinks(actions: Actions)
    requires actions == ["c"]
    ensures
      var record: Record := map["ads" := ["a", "b"], "drive" := ["d"]];
      AfterReads(record, AdsTurn(Some(actions)), true, false) == map["ads" := ["c"]]
  {
    var record: Record := map["ads" := ["a", "b"], "drive" := ["d"]];
    var next := AfterReads(record, AdsTurn(Some(actions)), true, false);
    OnlyAdsChosen(record);
    OnlyAdsLeft(record, actions);
    EntryAfterReads(record, AdsTurn(Some(actions)), true, false, "ads");
    OneAction();
    assert next.Keys == {"ads"} && next["ads"] == ["c"];
  }

  // ---- branching --------------------------------------------------------------------------

  lemma {:induction false} HandedFacts(servers: seq<Server>, record: Record, k: string)
    ensures k in Handed(SentFrom(servers, record)) <==> k in record && exists s | s in servers :: s.name == k
    ensures k in Handed(SentFrom(servers, record)) ==> Handed(SentFrom(servers, record))[k] == record[k]
  {
    if servers != [] {
      var init, last := servers[..|servers| - 1], servers[|servers| - 1];
      HandedFacts(init, record, k);
      assert servers == init + [last];
      var sent, before := SentFrom(servers, record), SentFrom(init, record);
      if last.name in record {
        assert sent[..|sent| - 1] == before;
      } else {
        assert sent == before;
      }
    }
  }

  lemma {:induction false} SameRecordSameSent(servers: seq<Server>, a: Record, b: Record)
    requires forall s | s in servers :: Lookup(a, s.name) == Lookup(b, s.name)
    ensures SentFrom(servers, a) == SentFrom(servers, b)
  {
    if servers != [] {
      var init, last := servers[..|servers| - 1], servers[|servers| - 1];
      assert servers == init + [last];
      SameRecordSameSent(init, a, b);
      assert Lookup(a, last.name) == Lookup(b, last.name);
    }
  }

  // A branch's record renders exactly what its parent's turn sent.
  lemma BranchInherits(servers: seq<Server>, record: Record)
    ensures SentFrom(servers, Handed(SentFrom(servers, record))) == SentFrom(servers, record)
  {
    var handed := Handed(SentFrom(servers, record));
    forall s | s in servers ensures Lookup(handed, s.name) == Lookup(record, s.name) {
      HandedFacts(servers, record, s.name);
    }
    SameRecordSameSent(servers, handed, record);
  }
}
