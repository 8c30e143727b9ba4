// The fixed-window limiter of one caller and route: a counter in Redis that
// several instances increment, and whose expiry only the first hit sets, in a
// second step that may come late or never.
module RateLimit {
  import opened Prelude

  type Pos = n: nat | n >= 1 witness 1

  datatype Options = Options(limit: nat, windowSeconds: Pos)

  datatype Key = Key(count: Pos, expiresAt: Option<nat>) {
    predicate Live(now: nat) {
      expiresAt.None? || now < expiresAt.value
    }
  }

  // An admitted request, and which incarnation of the counter admitted it.
  datatype Hit = Hit(time: nat, window: nat)

  // opens: when each incarnation was created. pending: the request that created
  // the current one has yet to set its expiry.
  datatype State = State(now: nat, key: Option<Key>, pending: bool, opens: seq<nat>, admitted: seq<Hit>)

  datatype Op =
    | Incr
    | Expire
    | Lose // the opening request's instance dies before its expire
    | Tick(d: nat)

  const Empty := State(0, None, false, [], [])

  function Counter(s: State): Option<Key> {
    if s.key.Some? && s.key.value.Live(s.now) then s.key else None
  }

  function Admit(o: Options, s: State, count: nat): State {
    if count <= o.limit && s.opens != [] then s.(admitted := s.admitted + [Hit(s.now, |s.opens| - 1)]) else s
  }

  function Step(o: Options, s: State, op: Op): State {
    match op
    case Incr =>
      (match Counter(s)
       case Some(k) => Admit(o, s.(key := Some(k.(count := k.count + 1))), k.count + 1)
       case None => Admit(o, s.(key := Some(Key(1, None)), pending := true, opens := s.opens + [s.now]), 1))
    case Expire =>
      if s.pending && s.key.Some? then
        s.(key := Some(s.key.value.(expiresAt := Some(s.now + o.windowSeconds))), pending := false)
      else s
    case Lose => s.(pending := false)
    case Tick(d) => s.(now := s.now + d)
  }

  function Run(o: Options, s: State, ops: seq<Op>): State
    decreases |ops|
  {
    if ops == [] then s else Run(o, Step(o, s, ops[0]), ops[1..])
  }

  // ---- invariant ------------------------------------------------------------------

  function InWindow(hits: seq<Hit>, w: int): nat {
    |Filter(hits, (h: Hit) => h.window == w)|
  }

  ghost predicate Placed(s: State, h: Hit) {
    && h.window < |s.opens| && s.opens[h.window] <= h.time <= s.now
    && (h.window + 1 < |s.opens| ==> h.time < s.opens[h.window + 1])
    && (h.window + 1 == |s.opens| && s.key.Some? && s.key.value.expiresAt.Some? ==>
          h.time < s.key.value.expiresAt.value)
  }

  ghost predicate KeyOk(o: Options, s: State) {
    && (s.key.Some? <==> s.opens != [])
    && (s.pending ==> s.key.Some? && s.key.value.expiresAt.None?)
    && (s.opens != [] ==> s.opens[|s.opens| - 1] <= s.now)
    && (s.key.Some? && s.key.value.expiresAt.Some? ==>
          s.key.value.expiresAt.value >= s.opens[|s.opens| - 1] + o.windowSeconds)
  }

  ghost predicate Spaced(o: Options, opens: seq<nat>) {
    forall w | 0 <= w < |opens| - 1 :: opens[w + 1] >= opens[w] + o.windowSeconds
  }

  ghost predicate WithinLimit(o: Options, s: State) {
    && (forall w | 0 <= w < |s.opens| :: InWindow(s.admitted, w) <= o.limit)
    && (s.key.Some? ==> InWindow(s.admitted, |s.opens| - 1) == Min(s.key.value.count, o.limit))
  }

  ghost predicate Inv(o: Options, s: State) {
    && KeyOk(o, s) && Spaced(o, s.opens) && WithinLimit(o, s)
    && forall h | h in s.admitted :: Placed(s, h)
  }

  lemma InWindowSnoc(hits: seq<Hit>, h: Hit, w: int)
    ensures InWindow(hits + [h], w) == InWindow(hits, w) + if h.window == w then 1 else 0
  {
    var p := (x: Hit) => x.window == w;
    FilterAppend(hits, [h], p);
    if h.window == w {
      FilterAll([h], p);
    } else {
      FilterNone([h], p);
    }
  }

  lemma NoneYet(s: State, w: int)
    requires w >= |s.opens| && forall h | h in s.admitted :: Placed(s, h)
    ensures InWindow(s.admitted, w) == 0
  {
    FilterNone(s.admitted, (h: Hit) => h.window == w);
  }

  // Counting one more request in the current incarnation.
  lemma AdmitKeeps(o: Options, s: State, count: nat)
    requires s.key.Some? && s.key.value.count == count && s.key.value.Live(s.now) && KeyOk(o, s) && Spaced(o, s.opens)
    requires forall h | h in s.admitted :: Placed(s, h)
    requires forall w | 0 <= w < |s.opens| :: InWindow(s.admitted, w) <= o.limit
    requires count >= 1 && InWindow(s.admitted, |s.opens| - 1) == Min(count - 1, o.limit)
    ensures Inv(o, Admit(o, s, count))
  {
    if count <= o.limit {
      var hit := Hit(s.now, |s.opens| - 1);
      forall w | 0 <= w < |s.opens| ensures InWindow(s.admitted + [hit], w) <= o.limit {
        InWindowSnoc(s.admitted, hit, w);
      }
      InWindowSnoc(s.admitted, hit, |s.opens| - 1);
    }
  }

  lemma OpenKeeps(o: Options, s: State)
    requires Inv(o, s) && Counter(s).None?
    ensures Inv(o, Step(o, s, Incr))
  {
    var created := s.(key := Some(Key(1, None)), pending := true, opens := s.opens + [s.now]);
    NoneYet(s, |s.opens|);
    AdmitKeeps(o, created, 1);
  }

  lemma StepKeepsInv(o: Options, s: State, op: Op)
    requires Inv(o, s)
    ensures Inv(o, Step(o, s, op))
  {
    match op
    case Incr =>
      if Counter(s).Some? {
        var k := s.key.value;
        AdmitKeeps(o, s.(key := Some(k.(count := k.count + 1))), k.count + 1);
      } else {
        OpenKeeps(o, s);
      }
    case Expire =>
      ExpireKeeps(o, s);
    case _ =>
  }

  lemma ExpireKeeps(o: Options, s: State)
    requires Inv(o, s)
    ensures Inv(o, Step(o, s, Expire))
  {
  }

  lemma {:induction false} RunKeepsInv(o: Options, s: State, ops: seq<Op>)
    requires Inv(o, s)
    ensures Inv(o, Run(o, s, ops))
    decreases |ops|
  {
    if ops != [] {
      StepKeepsInv(o, s, ops[0]);
      RunKeepsInv(o, Step(o, s, ops[0]), ops[1..]);
    }
  }

  // ---- guarantees -------------------------------------------------------------------

  lemma {:induction false} CountCover<T>(xs: seq<T>, p: T -> bool, q: T -> bool, r: T -> bool)
    requires forall x | x in xs && p(x) :: q(x) || r(x)
    ensures |Filter(xs, p)| <= |Filter(xs, q)| + |Filter(xs, r)|
  {
    if xs != [] {
      CountCover(xs[1..], p, q, r);
    }
  }

  lemma {:induction false} SpacedApart(o: Options, opens: seq<nat>, a: nat, b: nat)
    requires Spaced(o, opens) && a < b < |opens|
    ensures opens[b] >= opens[a] + o.windowSeconds
    decreases b
  {
    if a < b - 1 {
      SpacedApart(o, opens, a, b - 1);
    }
    assert opens[b - 1 + 1] >= opens[b - 1] + o.windowSeconds;
  }

  // One incarnation of the counter admits at most `limit` requests.
  lemma WindowIsLimited(o: Options, ops: seq<Op>, w: nat)
    ensures InWindow(Run(o, Empty, ops).admitted, w) <= o.limit
  {
    RunKeepsInv(o, Empty, ops);
    var s := Run(o, Empty, ops);
    if w >= |s.opens| {
      NoneYet(s, w);
    }
  }

  // Hits within one window length come from at most two incarnations.
  lemma AtMostTwoWindows(o: Options, s: State, a: Hit, b: Hit)
    requires Inv(o, s) && a in s.admitted && b in s.admitted
    requires a.time <= b.time + o.windowSeconds && b.time <= a.time + o.windowSeconds && a.window <= b.window
    ensures b.window <= a.window + 1
  {
    assert Placed(s, a) && Placed(s, b);
    if b.window > a.window + 1 {
      SpacedApart(o, s.opens, a.window + 1, b.window);
      assert false;
    }
  }

  function Within(hits: seq<Hit>, from: nat, to: nat): seq<Hit> {
    Filter(hits, (h: Hit) => from <= h.time <= to)
  }

  // However the instances interleave and however late the expiry is set, any
  // closed interval of the window's length admits at most twice the limit.
  lemma AnyIntervalIsLimited(o: Options, ops: seq<Op>, from: nat)
    ensures |Within(Run(o, Empty, ops).admitted, from, from + o.windowSeconds)| <= 2 * o.limit
  {
    RunKeepsInv(o, Empty, ops);
    var s := Run(o, Empty, ops);
    var hits := Within(s.admitted, from, from + o.windowSeconds);
    FilterMembers(s.admitted, (h: Hit) => from <= h.time <= from + o.windowSeconds);
    if hits != [] {
      var first := Earliest(hits);
      var w := first.window;
      forall h | h in hits ensures h.window == w || h.window == w + 1 {
        AtMostTwoWindows(o, s, first, h);
      }
      CountCover(s.admitted, (h: Hit) => from <= h.time <= from + o.windowSeconds,
                 (h: Hit) => h.window == w, (h: Hit) => h.window == w + 1);
      WindowIsLimited(o, ops, w);
      WindowIsLimited(o, ops, w + 1);
    }
  }

  function Earliest(hits: seq<Hit>): (h: Hit)
    requires hits != []
    ensures h in hits && forall x | x in hits :: h.window <= x.window
  {
    if |hits| == 1 then hits[0]
    else
      var rest := Earliest(hits[1..]);
      if hits[0].window <= rest.window then hits[0] else rest
  }

  // ---- how long a window lasts -------------------------------------------------------

  lemma {:induction false} TimeGoesOn(o: Options, s: State, ops: seq<Op>)
    ensures s.opens <= Run(o, s, ops).opens && s.now <= Run(o, s, ops).now
    decreases |ops|
  {
    if ops != [] {
      TimeGoesOn(o, Step(o, s, ops[0]), ops[1..]);
    }
  }

  lemma {:induction false} ExpiryStands(o: Options, s: State, ops: seq<Op>, end: nat)
    requires s.key.Some? && s.key.value.expiresAt == Some(end) && !s.pending
    ensures
      var r := Run(o, s, ops);
      || (r.opens == s.opens && r.key.Some? && r.key.value.expiresAt == Some(end))
      || (|r.opens| > |s.opens| && r.now >= end)
    decreases |ops|
  {
    if ops != [] {
      var next := Step(o, s, ops[0]);
      if next.opens == s.opens {
        ExpiryStands(o, next, ops[1..], end);
      } else {
        TimeGoesOn(o, next, ops[1..]);
      }
    }
  }

  // From the moment its expiry is set, a window lasts windowSeconds and no longer:
  // until then every request counts in it, from then on the next one opens another.
  lemma WindowLasts(o: Options, s: State, ops: seq<Op>)
    requires s.key.Some? && s.pending
    ensures
      var r := Run(o, Step(o, s, Expire), ops);
      && (r.now < s.now + o.windowSeconds ==> r.opens == s.opens && Counter(r).Some?)
      && (r.now >= s.now + o.windowSeconds ==> |r.opens| > |s.opens| || Counter(r).None?)
  {
    ExpiryStands(o, Step(o, s, Expire), ops, s.now + o.windowSeconds);
  }

  // ---- when the expiry is never set ----------------------------------------------------

  ghost predicate Stuck(s: State) {
    s.key.Some? && s.key.value.expiresAt.None? && !s.pending
  }

  // Without an expiry and with nobody left to set one, the counter lives for ever.
  lemma {:induction false} StuckForever(o: Options, s: State, ops: seq<Op>)
    requires Stuck(s) && KeyOk(o, s)
    ensures Stuck(Run(o, s, ops)) && Run(o, s, ops).opens == s.opens
    ensures Run(o, s, ops).key.value.count >= s.key.value.count
    decreases |ops|
  {
    if ops != [] {
      StuckForever(o, Step(o, s, ops[0]), ops[1..]);
    }
  }

  // Two steps from the start: the first request counts, and its instance dies.
  lemma LostExpirySticks(o: Options)
    ensures Stuck(Run(o, Empty, [Incr, Lose]))
  {
    RunTwo(o, Empty, Incr, Lose);
  }

  // Once it has counted to the limit, no request is admitted again.
  lemma {:induction false} StuckRefusesForever(o: Options, s: State, ops: seq<Op>)
    requires Stuck(s) && KeyOk(o, s) && s.key.value.count >= o.limit
    ensures Run(o, s, ops).admitted == s.admitted
    decreases |ops|
  {
    if ops != [] {
      StuckRefusesForever(o, Step(o, s, ops[0]), ops[1..]);
    }
  }

  // The counter can reopen exactly when its expiry is set or still to come.
  lemma ReopensIff(o: Options, s: State)
    requires Inv(o, s) && s.key.Some?
    ensures (exists ops: seq<Op> :: |Run(o, s, ops).opens| > |s.opens|) <==> !Stuck(s)
  {
    if Stuck(s) {
      forall ops: seq<Op> ensures Run(o, s, ops).opens == s.opens {
        StuckForever(o, s, ops);
      }
    } else {
      Reopens(o, s);
    }
  }

  // Set the expiry if need be, wait it out, and ask again.
  lemma Reopens(o: Options, s: State)
    requires Inv(o, s) && s.key.Some? && !Stuck(s)
    ensures exists ops: seq<Op> :: |Run(o, s, ops).opens| > |s.opens|
  {
    var closing := Step(o, s, Expire);
    var wait := Tick(closing.key.value.expiresAt.value);
    var later := Step(o, closing, wait);
    assert Counter(later).None?;
    RunTwo(o, closing, wait, Incr);
    assert [Expire, wait, Incr][1..] == [wait, Incr];
    assert Run(o, s, [Expire, wait, Incr]) == Step(o, later, Incr);
  }

  // ---- the guard ---------------------------------------------------------------------------

  datatype Outcome = Allowed | TooManyRequests

  class RateLimitGuard {
    var redis: State

    // INCR: the new count.
    method Incr(o: Options) returns (count: nat)
      modifies this
      ensures redis == Step(o, old(redis), Op.Incr)
      ensures count == (if Counter(old(redis)).Some? then Counter(old(redis)).value.count else 0) + 1
    {
      redis := Step(o, redis, Op.Incr);
      count := redis.key.value.count;
    }

    // One request running alone: the opener sets the expiry, and a failing Redis
    // lets the request through.
    method CanActivate(options: Option<Options>, incrUp: bool, expireUp: bool) returns (r: Outcome)
      modifies this
      ensures options.None? || !incrUp ==> r == Allowed && redis == old(redis)
      ensures options.Some? && incrUp ==> (
        var o := options.value;
        var opener := Counter(old(redis)).None?;
        var count := if opener then 1 else Counter(old(redis)).value.count + 1;
        && redis == Run(o, old(redis), if opener then [Op.Incr, if expireUp then Expire else Lose] else [Op.Incr])
        && (r == Allowed <==> count <= o.limit || (opener && !expireUp)))
    {
      if options.None? || !incrUp {
        return Allowed;
      }
      var o := options.value;
      var before := redis;
      var count := Incr(o);
      RunOne(o, before, Op.Incr);
      if count == 1 {
        RunTwo(o, before, Op.Incr, if expireUp then Expire else Lose);
        redis := Step(o, redis, if expireUp then Expire else Lose);
        if !expireUp {
          return Allowed;
        }
      }
      r := if count > o.limit then TooManyRequests else Allowed;
    }
  }

  lemma RunOne(o: Options, s: State, op: Op)
    ensures Run(o, s, [op]) == Step(o, s, op)
  {
  }

  lemma RunTwo(o: Options, s: State, a: Op, b: Op)
    ensures Run(o, s, [a, b]) == Step(o, Step(o, s, a), b)
  {
    assert [a, b][1..] == [b];
    RunOne(o, Step(o, s, a), b);
  }
}
