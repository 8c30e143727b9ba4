// The export watermark protocol: an event export appends to its tab every row
// since the first run, in order, once, across failed runs, run-now calls, rows
// that arrive while a run is in flight, and the 500-row cut.
module Exports {
  import opened Prelude

  const MAX_ROWS_PER_RUN := 500
  const DAY := 24 * 60 * 60 * 1000

  // One row of the exported dataset (a verified ROAS run, a rule action).
  datatype Row = Row(id: nat, createdAt: int)

  datatype Line = Header | Data(row: Row)

  // ---- Google Sheets ----------------------------------------------------------

  // A spreadsheet is its tabs by title; the store is spreadsheets by id.
  type Books = map<nat, map<string, seq<Line>>>

  // The API call that fails during one write, if any.
  datatype Fault = NoFault | AtCreate | AtRead | AtAddTab | AtPeek | AtAppend

  function Lines(rows: seq<Row>): seq<Line> {
    if rows == [] then [] else [Data(rows[0])] + Lines(rows[1..])
  }

  function Tab(books: Books, id: Option<nat>, title: string): seq<Line> {
    if id.Some? && id.value in books && title in books[id.value] then books[id.value][title] else []
  }

  datatype Written = Written(books: Books, nextBook: nat, id: Option<nat>)

  // What writeTable leaves behind: the store, and the spreadsheet id on success.
  function WriteTable(books: Books, nextBook: nat, id: Option<nat>, title: string, rows: seq<Row>,
                      fault: Fault): Written {
    if id.None? && fault == AtCreate then Written(books, nextBook, None)
    else
      var book := if id.Some? then id.value else nextBook;
      var books1 := if id.Some? then books else books[nextBook := map[title := []]];
      var next := if id.Some? then nextBook else nextBook + 1;
      if fault == AtRead || book !in books1 then Written(books1, next, None)
      else if title !in books1[book] && fault == AtAddTab then Written(books1, next, None)
      else
        var books2 := if title in books1[book] then books1 else books1[book := books1[book][title := []]];
        if fault == AtPeek then Written(books2, next, None)
        else
          var tab := books2[book][title];
          var values := (if tab == [] then [Header] else []) + Lines(rows);
          if values == [] then Written(books2, next, Some(book))
          else if fault == AtAppend then Written(books2, next, None)
          else Written(books2[book := books2[book][title := tab + values]], next, Some(book))
  }

  // ---- the scheduled export and its runs ---------------------------------------

  datatype Export = Export(
    windowDays: nat,
    sheetTitle: string,
    spreadsheetId: Option<nat>,
    lastExportedAt: Option<int>,
    lastRowCount: Option<nat>,
    failed: bool,
    nextRun: int)

  // A run in flight: started, then with its rows read.
  datatype Flight = Idle | Started(startedAt: int, watermark: int)
                   | Queried(startedAt: int, watermark: int, rows: seq<Row>)

  datatype World = World(
    clock: int,
    rows: seq<Row>,
    books: Books,
    nextBook: nat,
    export_: Export,
    flight: Flight,
    from: Option<int>)   // where the first successful run started; history only

  function After(rows: seq<Row>, watermark: int): seq<Row> {
    Filter(rows, (r: Row) => r.createdAt > watermark)
  }

  // snapshotsSince / actionsForWorkspace: after the watermark, oldest first, cut.
  function Since(rows: seq<Row>, watermark: int): seq<Row> {
    var pending := After(rows, watermark);
    if |pending| <= MAX_ROWS_PER_RUN then pending else pending[..MAX_ROWS_PER_RUN]
  }

  function Newest(rows: seq<Row>): Option<int> {
    if rows == [] then None
    else
      var latest := Newest(rows[..|rows| - 1]);
      var last := rows[|rows| - 1].createdAt;
      if latest.None? || last > latest.value then Some(last) else latest
  }

  datatype Op =
    | InsertRow(at: int, id: nat)
    | StartRun(at: int)
    | QueryRows(at: int)
    | FinishRun(at: int, fault: Fault, nextRun: Option<int>)   // Some when the schedule advances
    | FinishUnsaved(at: int, fault: Fault)                     // saving the export's own row fails

  predicate Enabled(w: World, op: Op) {
    match op
    case InsertRow(at, _) => at > w.clock
    case StartRun(at) => at >= w.clock && w.flight.Idle?
    case QueryRows(at) => at >= w.clock && w.flight.Started?
    case FinishRun(at, _, _) => at >= w.clock && w.flight.Queried?
    case FinishUnsaved(at, _) => at >= w.clock && w.flight.Queried?
  }

  // lastExportedAt, or the lookback window on the very first run.
  function Watermark(e: Export, now: int): int {
    if e.lastExportedAt.Some? then e.lastExportedAt.value else now - e.windowDays * DAY
  }

  function Finished(w: World, fault: Fault, nextRun: Option<int>): World
    requires w.flight.Queried?
  {
    var e := w.export_;
    var written := WriteTable(w.books, w.nextBook, e.spreadsheetId, e.sheetTitle, w.flight.rows, fault);
    var e1 := e.(nextRun := nextRun.GetOr(e.nextRun));
    var w1 := w.(books := written.books, nextBook := written.nextBook, flight := Idle);
    if written.id.None? then w1.(export_ := e1.(failed := true, lastRowCount := None))
    else
      w1.(export_ := e1.(spreadsheetId := written.id,
                         lastRowCount := Some(|w.flight.rows|),
                         failed := false,
                         lastExportedAt := Some(Newest(w.flight.rows).GetOr(w.flight.startedAt))),
          from := if w.from.Some? then w.from else Some(w.flight.watermark))
  }

  // The rows were written, or not, and the outcome is lost with the save.
  function Unsaved(w: World, fault: Fault): World
    requires w.flight.Queried?
  {
    var e := w.export_;
    var written := WriteTable(w.books, w.nextBook, e.spreadsheetId, e.sheetTitle, w.flight.rows, fault);
    w.(books := written.books, nextBook := written.nextBook, flight := Idle)
  }

  function Apply(w: World, op: Op): World
    requires Enabled(w, op)
  {
    match op
    case InsertRow(at, id) => w.(clock := at, rows := w.rows + [Row(id, at)])
    case StartRun(at) => w.(clock := at, flight := Started(at, Watermark(w.export_, at)))
    case QueryRows(at) =>
      w.(clock := at, flight := Queried(w.flight.startedAt, w.flight.watermark, Since(w.rows, w.flight.watermark)))
    case FinishRun(at, fault, nextRun) => Finished(w, fault, nextRun).(clock := at)
    case FinishUnsaved(at, fault) => Unsaved(w, fault).(clock := at)
  }

  // ---- the invariant ------------------------------------------------------------

  ghost predicate Increasing(rows: seq<Row>) {
    forall i, j | 0 <= i < j < |rows| :: rows[i].createdAt < rows[j].createdAt
  }

  function Between(rows: seq<Row>, low: int, high: int): seq<Row> {
    Filter(rows, (r: Row) => low < r.createdAt <= high)
  }

  function TabOf(w: World): seq<Line> {
    Tab(w.books, w.export_.spreadsheetId, w.export_.sheetTitle)
  }

  // The tab is still empty, or one header and then every row after the first
  // run's watermark and up to the stored one.
  ghost predicate TabIsHistory(w: World) {
    if w.export_.lastExportedAt.None? then w.from.None? && TabOf(w) == []
    else
      && w.from.Some? && w.from.value <= w.export_.lastExportedAt.value <= w.clock
      && w.export_.spreadsheetId.Some?
      && TabOf(w) == [Header] + Lines(Between(w.rows, w.from.value, w.export_.lastExportedAt.value))
  }

  // Where a run will leave the watermark.
  function Reached(startedAt: int, rows: seq<Row>): int {
    Newest(rows).GetOr(startedAt)
  }

  ghost predicate FlightInv(w: World) {
    match w.flight
    case Idle => true
    case Started(startedAt, watermark) =>
         && watermark == Watermark(w.export_, startedAt)
         && watermark <= startedAt <= w.clock
    case Queried(startedAt, watermark, rows) =>
         && watermark == Watermark(w.export_, startedAt)
         && startedAt <= w.clock
         && watermark <= Reached(startedAt, rows) <= w.clock
         && rows == Between(w.rows, watermark, Reached(startedAt, rows))
         && |rows| <= MAX_ROWS_PER_RUN
  }

  ghost predicate Inv(w: World) {
    && Increasing(w.rows)
    && (forall r | r in w.rows :: r.createdAt <= w.clock)
    && (forall b | b in w.books :: b < w.nextBook)
    && TabIsHistory(w)
    && FlightInv(w)
  }

  lemma IncreasingTail(rows: seq<Row>)
    requires Increasing(rows) && rows != []
    ensures Increasing(rows[1..])
    ensures forall r | r in rows[1..] :: rows[0].createdAt < r.createdAt
  {
    forall r | r in rows[1..] ensures rows[0].createdAt < r.createdAt {
      var k :| 0 <= k < |rows[1..]| && rows[1..][k] == r;
      assert rows[k + 1] == r;
    }
  }

  // Adjacent spans join up, with nothing lost or repeated at the seam.
  lemma {:induction false} SpansJoin(rows: seq<Row>, low: int, middle: int, high: int)
    requires Increasing(rows) && low <= middle <= high
    ensures Between(rows, low, middle) + Between(rows, middle, high) == Between(rows, low, high)
  {
    if rows != [] {
      var tail := rows[1..];
      IncreasingTail(rows);
      SpansJoin(tail, low, middle, high);
      if rows[0].createdAt > middle {
        FilterNone(tail, (r: Row) => low < r.createdAt <= middle);
      }
    }
  }

  // A span never reaches rows that arrive later.
  lemma SpanIsClosed(rows: seq<Row>, row: Row, low: int, high: int)
    requires row.createdAt > high
    ensures Between(rows + [row], low, high) == Between(rows, low, high)
  {
    var p := (r: Row) => low < r.createdAt <= high;
    FilterAppend(rows, [row], p);
    FilterNone([row], p);
  }

  lemma {:induction false} LinesAppend(a: seq<Row>, b: seq<Row>)
    ensures Lines(a + b) == Lines(a) + Lines(b)
  {
    if a == [] {
      assert a + b == b;
    } else {
      assert (a + b)[1..] == a[1..] + b;
      LinesAppend(a[1..], b);
    }
  }

  ghost predicate NonDecreasing(rows: seq<Row>) {
    forall i, j | 0 <= i < j < |rows| :: rows[i].createdAt <= rows[j].createdAt
  }

  // The watermark is the latest timestamp there is, whatever the order.
  lemma {:induction false} NewestIsMax(rows: seq<Row>)
    ensures Newest(rows).None? <==> rows == []
    ensures rows != [] ==> exists r | r in rows :: r.createdAt == Newest(rows).value
    ensures forall r | r in rows :: r.createdAt <= Newest(rows).value
  {
    if rows != [] {
      var init, last := rows[..|rows| - 1], rows[|rows| - 1];
      NewestIsMax(init);
      assert rows == init + [last];
    }
  }

  lemma NewestIsLast(rows: seq<Row>)
    requires NonDecreasing(rows) && rows != []
    ensures Newest(rows) == Some(rows[|rows| - 1].createdAt)
  {
    NewestIsMax(rows);
    assert rows[|rows| - 1] in rows;
  }

  lemma FilterIncreasing(rows: seq<Row>, p: Row -> bool)
    requires Increasing(rows)
    ensures Increasing(Filter(rows, p))
  {
    if rows != [] {
      IncreasingTail(rows);
      FilterIncreasing(rows[1..], p);
      FilterMembers(rows[1..], p);
    }
  }

  // Cutting a sorted backlog leaves exactly the rows up to the newest one kept.
  lemma {:induction false} PrefixIsSpan(rows: seq<Row>, watermark: int, n: nat)
    requires Increasing(rows) && 0 < n <= |After(rows, watermark)|
    ensures After(rows, watermark)[..n] == Between(rows, watermark, After(rows, watermark)[n - 1].createdAt)
  {
    var tail := rows[1..];
    IncreasingTail(rows);
    FilterMembers(tail, (r: Row) => r.createdAt > watermark);
    if rows[0].createdAt <= watermark {
      PrefixIsSpan(tail, watermark, n);
    } else {
      var rest := After(tail, watermark);
      assert After(rows, watermark) == [rows[0]] + rest;
      var high := After(rows, watermark)[n - 1].createdAt;
      if n == 1 {
        FilterNone(tail, (r: Row) => watermark < r.createdAt <= high);
        assert After(rows, watermark)[..1] == [rows[0]];
      } else {
        PrefixIsSpan(tail, watermark, n - 1);
        assert rest[n - 2] in rest;
        assert After(rows, watermark)[..n] == [rows[0]] + rest[..n - 1];
      }
    }
  }

  lemma SinceIsSpan(rows: seq<Row>, watermark: int, startedAt: int, clock: int)
    requires Increasing(rows) && watermark <= startedAt <= clock
    requires forall r | r in rows :: r.createdAt <= clock
    ensures watermark <= Reached(startedAt, Since(rows, watermark)) <= clock
    ensures Since(rows, watermark) == Between(rows, watermark, Reached(startedAt, Since(rows, watermark)))
  {
    var newer := (r: Row) => r.createdAt > watermark;
    var pending := After(rows, watermark);
    var read := Since(rows, watermark);
    FilterIncreasing(rows, newer);
    FilterMembers(rows, newer);
    assert Increasing(read);
    if read == [] {
      forall r | r in rows ensures r.createdAt <= watermark {
        assert r in pending <==> r.createdAt > watermark;
      }
      FilterNone(rows, (r: Row) => watermark < r.createdAt <= startedAt);
    } else {
      NewestIsLast(read);
      PrefixIsSpan(rows, watermark, |read|);
      assert pending[|read| - 1] in pending;
    }
  }

  // ---- a write, seen from the tab -------------------------------------------------

  lemma WriteTableAppends(books: Books, nextBook: nat, id: Option<nat>, title: string, rows: seq<Row>, fault: Fault)
    requires forall b | b in books :: b < nextBook
    ensures
      var w := WriteTable(books, nextBook, id, title, rows, fault);
      && (w.id.None? ==> Tab(w.books, id, title) == Tab(books, id, title))
      && (w.id.Some? ==>
            && (id.Some? ==> w.id == id)
            && Tab(w.books, w.id, title)
               == Tab(books, id, title) + (if Tab(books, id, title) == [] then [Header] else []) + Lines(rows))
  {
  }

  lemma WriteTableFacts(books: Books, nextBook: nat, id: Option<nat>, title: string, rows: seq<Row>, fault: Fault)
    requires forall b | b in books :: b < nextBook
    ensures
      var w := WriteTable(books, nextBook, id, title, rows, fault);
      && nextBook <= w.nextBook
      && (forall b | b in w.books :: b < w.nextBook)
      && (w.id.None? ==> Tab(w.books, id, title) == Tab(books, id, title))
      && (w.id.Some? ==>
            && (id.Some? ==> w.id == id)
            && Tab(w.books, w.id, title)
               == Tab(books, id, title) + (if Tab(books, id, title) == [] then [Header] else []) + Lines(rows))
  {
    WriteTableAppends(books, nextBook, id, title, rows, fault);
  }

  // Appending the span read to the history so far gives the history up to where it reached.
  lemma HistoryExtends(rows: seq<Row>, low: int, middle: int, high: int, tab: seq<Line>)
    requires Increasing(rows) && low <= middle <= high
    requires tab == [Header] + Lines(Between(rows, low, middle))
    ensures tab + Lines(Between(rows, middle, high)) == [Header] + Lines(Between(rows, low, high))
  {
    SpansJoin(rows, low, middle, high);
    LinesAppend(Between(rows, low, middle), Between(rows, middle, high));
  }

  // A write that failed leaves the export's tab, and everything it is compared to.
  lemma FailureKeepsHistory(w: World, at: int, fault: Fault, nextRun: Option<int>)
    requires Inv(w) && w.flight.Queried? && at >= w.clock && Finished(w, fault, nextRun).export_.failed
    ensures TabIsHistory(Finished(w, fault, nextRun).(clock := at))
  {
    var e, f := w.export_, w.flight;
    WriteTableFacts(w.books, w.nextBook, e.spreadsheetId, e.sheetTitle, f.rows, fault);
  }

  // The tab a successful run leaves.
  lemma SuccessAppends(w: World, fault: Fault, nextRun: Option<int>)
    requires Inv(w) && w.flight.Queried? && !Finished(w, fault, nextRun).export_.failed
    ensures TabOf(Finished(w, fault, nextRun))
         == (if TabOf(w) == [] then [Header] else TabOf(w)) + Lines(w.flight.rows)
  {
    var e, f := w.export_, w.flight;
    WriteTableFacts(w.books, w.nextBook, e.spreadsheetId, e.sheetTitle, f.rows, fault);
    assert TabOf(w) == [] ==> [] + [Header] + Lines(f.rows) == [Header] + Lines(f.rows);
    assert TabOf(w) != [] ==> TabOf(w) + [] + Lines(f.rows) == TabOf(w) + Lines(f.rows);
  }

  lemma FinishKeepsHistory(w: World, at: int, fault: Fault, nextRun: Option<int>)
    requires Inv(w) && w.flight.Queried? && at >= w.clock
    ensures TabIsHistory(Finished(w, fault, nextRun).(clock := at))
  {
    if Finished(w, fault, nextRun).export_.failed {
      FailureKeepsHistory(w, at, fault, nextRun);
    } else {
      SuccessAppends(w, fault, nextRun);
      if w.export_.lastExportedAt.Some? {
        HistoryExtends(w.rows, w.from.value, w.export_.lastExportedAt.value,
                       Reached(w.flight.startedAt, w.flight.rows), TabOf(w));
      }
    }
  }

  lemma FinishKeepsInv(w: World, at: int, fault: Fault, nextRun: Option<int>)
    requires Inv(w) && w.flight.Queried? && at >= w.clock
    ensures Inv(Finished(w, fault, nextRun).(clock := at))
  {
    var e, f := w.export_, w.flight;
    FinishKeepsHistory(w, at, fault, nextRun);
    WriteTableFacts(w.books, w.nextBook, e.spreadsheetId, e.sheetTitle, f.rows, fault);
  }

  lemma InsertKeepsInv(w: World, at: int, id: nat)
    requires Inv(w) && at > w.clock
    ensures Inv(w.(clock := at, rows := w.rows + [Row(id, at)]))
  {
    var row := Row(id, at);
    var w' := w.(clock := at, rows := w.rows + [row]);
    assert Increasing(w'.rows) by {
      forall i | 0 <= i < |w.rows| ensures w.rows[i].createdAt < at {
        assert w.rows[i] in w.rows;
      }
    }
    if w.export_.lastExportedAt.Some? {
      SpanIsClosed(w.rows, row, w.from.value, w.export_.lastExportedAt.value);
    }
    if w.flight.Queried? {
      SpanIsClosed(w.rows, row, w.flight.watermark, Reached(w.flight.startedAt, w.flight.rows));
    }
  }

  // What an unsaved run must not have done: appended to the export's own tab. It
  // has not if the write failed, if it went to a spreadsheet whose id was never
  // stored, or if there was neither a row nor a header to write.
  predicate SaveCanBeLost(w: World, fault: Fault)
    requires w.flight.Queried?
  {
    var e := w.export_;
    || WriteTable(w.books, w.nextBook, e.spreadsheetId, e.sheetTitle, w.flight.rows, fault).id.None?
    || e.spreadsheetId.None?
    || (w.flight.rows == [] && TabOf(w) != [])
  }

  // Losing the save keeps the history, and with it the invariant, exactly then.
  lemma UnsavedKeepsHistoryIff(w: World, at: int, fault: Fault)
    requires Inv(w) && w.flight.Queried? && at >= w.clock
    ensures TabIsHistory(Unsaved(w, fault).(clock := at)) <==> SaveCanBeLost(w, fault)
    ensures Inv(Unsaved(w, fault).(clock := at)) <==> SaveCanBeLost(w, fault)
    ensures SaveCanBeLost(w, fault) <==> TabOf(Unsaved(w, fault)) == TabOf(w)
  {
    var e, f := w.export_, w.flight;
    WriteTableFacts(w.books, w.nextBook, e.spreadsheetId, e.sheetTitle, f.rows, fault);
    LinesLength(f.rows);
  }

  lemma {:induction false} LinesLength(rows: seq<Row>)
    ensures |Lines(rows)| == |rows|
  {
    if rows != [] {
      LinesLength(rows[1..]);
    }
  }

  // Steps that lose no save over an append to the tab.
  predicate Recorded(w: World, op: Op)
    requires Enabled(w, op)
  {
    op.FinishUnsaved? ==> SaveCanBeLost(w, op.fault)
  }

  lemma StepKeepsInv(w: World, op: Op)
    requires Inv(w) && Enabled(w, op) && Recorded(w, op)
    ensures Inv(Apply(w, op))
  {
    match op
    case InsertRow(at, id) => InsertKeepsInv(w, at, id);
    case StartRun(at) =>
    case QueryRows(at) => SinceIsSpan(w.rows, w.flight.watermark, w.flight.startedAt, at);
    case FinishRun(at, fault, nextRun) => FinishKeepsInv(w, at, fault, nextRun);
    case FinishUnsaved(at, fault) => UnsavedKeepsHistoryIff(w, at, fault);
  }

  ghost predicate Run(worlds: seq<World>, ops: seq<Op>) {
    |worlds| == |ops| + 1
    && forall i | 0 <= i < |ops| :: Enabled(worlds[i], ops[i]) && worlds[i + 1] == Apply(worlds[i], ops[i])
  }

  ghost predicate AllRecorded(worlds: seq<World>, ops: seq<Op>)
    requires Run(worlds, ops)
  {
    forall i | 0 <= i < |ops| :: Recorded(worlds[i], ops[i])
  }

  // A new export whose tab starts empty, over any existing rows.
  ghost predicate Fresh(w: World) {
    && Increasing(w.rows) && (forall r | r in w.rows :: r.createdAt <= w.clock)
    && (forall b | b in w.books :: b < w.nextBook)
    && w.flight.Idle? && w.from.None? && w.export_.lastExportedAt.None? && TabOf(w) == []
  }

  lemma {:induction false} RunKeepsInv(worlds: seq<World>, ops: seq<Op>, i: nat)
    requires Run(worlds, ops) && AllRecorded(worlds, ops) && Fresh(worlds[0]) && i < |worlds|
    ensures Inv(worlds[i])
  {
    if i > 0 {
      RunKeepsInv(worlds, ops, i - 1);
      StepKeepsInv(worlds[i - 1], ops[i - 1]);
    }
  }

  // Over any run of inserts, successes, failures and run-now calls, the tab is
  // empty or exactly the header and the history, in order, each row once. A lost
  // save is harmless as UnsavedKeepsHistoryIff says, and only so.
  lemma TabAlwaysHistory(worlds: seq<World>, ops: seq<Op>, i: nat)
    requires Run(worlds, ops) && AllRecorded(worlds, ops) && Fresh(worlds[0]) && i < |worlds|
    ensures TabIsHistory(worlds[i])
    ensures worlds[i].export_.lastExportedAt.Some? ==>
              var kept := Between(worlds[i].rows, worlds[i].from.value, worlds[i].export_.lastExportedAt.value);
              Increasing(kept) && forall r | r in worlds[i].rows ::
                r in kept <==> worlds[i].from.value < r.createdAt <= worlds[i].export_.lastExportedAt.value
  {
    RunKeepsInv(worlds, ops, i);
    if worlds[i].export_.lastExportedAt.Some? {
      var p := (r: Row) => worlds[i].from.value < r.createdAt <= worlds[i].export_.lastExportedAt.value;
      FilterIncreasing(worlds[i].rows, p);
      FilterMembers(worlds[i].rows, p);
    }
  }

  // The first watermark is fixed by the first success and never moves again.
  lemma {:induction false} FromIsStable(worlds: seq<World>, ops: seq<Op>, i: nat, j: nat)
    requires Run(worlds, ops) && i <= j < |worlds| && worlds[i].from.Some?
    ensures worlds[j].from == worlds[i].from
    decreases j
  {
    if i < j {
      FromIsStable(worlds, ops, i, j - 1);
    }
  }

  // A run reads from the stored watermark, or, until one is stored, from windowDays
  // days before its own start; what it reads is every later row, 500 at most.
  lemma RunReadsFrom(w: World, at: int, later: int)
    requires w.flight.Idle? && w.clock <= at <= later
    ensures
      var read := Apply(Apply(w, StartRun(at)), QueryRows(later)).flight;
      var mark := if w.export_.lastExportedAt.Some? then w.export_.lastExportedAt.value
                  else at - w.export_.windowDays * 86400000;
      var pending := Filter(w.rows, (r: Row) => r.createdAt > mark);
      && read.Queried? && read.startedAt == at && read.watermark == mark
      && read.rows == (if |pending| <= 500 then pending else pending[..500])
  {
  }

  // A finished run says how it went, and its schedule moves whether it went well or
  // not; a run-now leaves the schedule where it was.
  lemma FinishedSays(w: World, fault: Fault, nextRun: Option<int>)
    requires w.flight.Queried?
    ensures
      var e, e' := w.export_, Finished(w, fault, nextRun).export_;
      && (nextRun.Some? ==> e'.nextRun == nextRun.value) && (nextRun.None? ==> e'.nextRun == e.nextRun)
      && e'.windowDays == e.windowDays && e'.sheetTitle == e.sheetTitle
      && (e'.failed ==> e'.lastRowCount.None? && e'.spreadsheetId == e.spreadsheetId)
      && (e'.failed ==> e'.lastExportedAt == e.lastExportedAt)
      && (!e'.failed ==> e'.lastRowCount == Some(|w.flight.rows|) && e'.spreadsheetId.Some?)
      && (!e'.failed && w.flight.rows == [] ==> e'.lastExportedAt == Some(w.flight.startedAt))
      && (e.spreadsheetId.None? && fault == NoFault ==> !e'.failed)
  {
  }

  // Moving the watermark forward keeps the backlog exactly when it passes no row.
  lemma BacklogKeptIff(rows: seq<Row>, low: int, high: int)
    requires Increasing(rows) && low <= high
    ensures After(rows, high) == After(rows, low) <==> forall r | r in rows :: !(low < r.createdAt <= high)
  {
    AfterSplits(rows, low, high);
    FilterMembers(rows, (r: Row) => low < r.createdAt <= high);
    if After(rows, high) == After(rows, low) {
      assert |Between(rows, low, high)| == 0;
    } else {
      assert Between(rows, low, high) != [];
      assert Between(rows, low, high)[0] in Between(rows, low, high);
    }
  }

  lemma AfterSplits(rows: seq<Row>, low: int, high: int)
    requires Increasing(rows) && low <= high
    ensures After(rows, low) == Between(rows, low, high) + After(rows, high)
  {
    var top := if rows == [] then high else Max(high, rows[|rows| - 1].createdAt);
    SpansJoin(rows, low, high, top);
    FilterEqual(rows, (r: Row) => low < r.createdAt <= top, (r: Row) => r.createdAt > low);
    FilterEqual(rows, (r: Row) => high < r.createdAt <= top, (r: Row) => r.createdAt > high);
  }

  // A failed run leaves tab, rows and stored watermark alone. The next run faces
  // the same backlog if and only if some run has succeeded before, or no row falls
  // out of the lookback window between the two: an unstored watermark is measured
  // afresh at every attempt.
  lemma FailedRunKeepsBacklogIff(w: World, fault: Fault, nextRun: Option<int>, next: int)
    requires Inv(w) && w.flight.Queried? && Finished(w, fault, nextRun).export_.failed && next >= w.clock
    ensures
      var w' := Finished(w, fault, nextRun);
      && TabOf(w') == TabOf(w) && w'.rows == w.rows && w'.from == w.from
      && w'.export_.lastExportedAt == w.export_.lastExportedAt
    ensures
      var reset := Watermark(Finished(w, fault, nextRun).export_, next);
      After(w.rows, reset) == After(w.rows, w.flight.watermark) <==>
      (w.export_.lastExportedAt.Some? || forall r | r in w.rows :: !(w.flight.watermark < r.createdAt <= reset))
  {
    WriteTableFacts(w.books, w.nextBook, w.export_.spreadsheetId, w.export_.sheetTitle, w.flight.rows, fault);
    BacklogKeptIff(w.rows, w.flight.watermark, Watermark(Finished(w, fault, nextRun).export_, next));
  }

  // A first run a week after the only row reads it and fails; any later run starts
  // past it, so it is never exported.
  lemma FailedFirstRunLosesRow(at: int)
    requires at > 7 * DAY
    ensures
      var w := World(7 * DAY, [Row(1, 1)], map[], 0, Export(7, "tab", None, None, None, false, 0),
                     Queried(7 * DAY, 0, [Row(1, 1)]), None);
      var w' := Finished(w, AtAppend, None);
      && Inv(w) && Since(w.rows, w.flight.watermark) == [Row(1, 1)]
      && w'.export_.failed && w'.rows == [Row(1, 1)] && TabOf(w') == []
      && Since(w'.rows, Watermark(w'.export_, at)) == []
  {
    var rows := [Row(1, 1)];
    assert rows[..0] == [] && rows[1..] == [];
    assert Newest(rows) == Some(1);
    var w := World(7 * DAY, rows, map[], 0, Export(7, "tab", None, None, None, false, 0),
                   Queried(7 * DAY, 0, rows), None);
    FilterAll(rows, (r: Row) => 0 < r.createdAt <= 1);
    FilterAll(rows, (r: Row) => r.createdAt > 0);
    var reset := Watermark(Finished(w, AtAppend, None).export_, at);
    FilterNone(rows, (r: Row) => r.createdAt > reset);
  }

  // A successful run takes its rows off the front of the backlog, no more.
  lemma SuccessAdvancesPastItsRows(w: World, nextRun: Option<int>, fault: Fault)
    requires Inv(w) && w.flight.Queried? && w.flight.rows != [] && !Finished(w, fault, nextRun).export_.failed
    ensures
      var w' := Finished(w, fault, nextRun);
      After(w.rows, w.flight.watermark) == w.flight.rows + After(w.rows, w'.export_.lastExportedAt.value)
  {
    var f := w.flight;
    var reached := Reached(f.startedAt, f.rows);
    AfterSplits(w.rows, f.watermark, reached);
  }

  // ---- where the assumptions bite -------------------------------------------------

  lemma {:induction false} FilterNonDecreasing(rows: seq<Row>, p: Row -> bool)
    requires NonDecreasing(rows)
    ensures NonDecreasing(Filter(rows, p))
  {
    if rows != [] {
      FilterNonDecreasing(rows[1..], p);
      FilterMembers(rows[1..], p);
      assert forall r | r in rows[1..] :: rows[0].createdAt <= r.createdAt;
    }
  }

  lemma AfterCut(pending: seq<Row>, n: nat)
    requires NonDecreasing(pending) && 0 < n < |pending|
    ensures After(pending, pending[n - 1].createdAt) == After(pending[n..], pending[n - 1].createdAt)
  {
    var newer := (r: Row) => r.createdAt > pending[n - 1].createdAt;
    assert pending == pending[..n] + pending[n..];
    FilterAppend(pending[..n], pending[n..], newer);
    FilterNone(pending[..n], newer);
  }

  // What is left after n of the pending rows, once those are gone from the query.
  lemma LeftAfterCut(pending: seq<Row>, n: nat)
    requires NonDecreasing(pending) && 0 < n < |pending|
    ensures
      var rest := After(pending, pending[n - 1].createdAt);
      pending[..n] + rest == pending <==> pending[n - 1].createdAt < pending[n].createdAt
  {
    var mark := pending[n - 1].createdAt;
    var tail := pending[n..];
    AfterCut(pending, n);
    assert pending == pending[..n] + tail;
    if mark < pending[n].createdAt {
      assert forall r | r in tail :: r.createdAt > mark;
      FilterAll(tail, (r: Row) => r.createdAt > mark);
    } else {
      assert tail[0] == pending[n];
      assert |After(tail, mark)| == |After(tail[1..], mark)| < |tail|;
      assert |pending[..n] + After(pending, mark)| < |pending|;
    }
  }

  lemma PendingFacts(rows: seq<Row>, watermark: int)
    requires NonDecreasing(rows) && After(rows, watermark) != []
    ensures NonDecreasing(After(rows, watermark)) && NonDecreasing(Since(rows, watermark))
    ensures forall r | r in After(rows, watermark) :: r.createdAt > watermark
    ensures Since(rows, watermark) != [] && Since(rows, watermark) <= After(rows, watermark)
  {
    FilterNonDecreasing(rows, (r: Row) => r.createdAt > watermark);
    FilterMembers(rows, (r: Row) => r.createdAt > watermark);
  }

  lemma AfterAgain(rows: seq<Row>, low: int, high: int)
    requires low <= high
    ensures After(After(rows, low), high) == After(rows, high)
  {
    FilterFilter(rows, (r: Row) => r.createdAt > low, (r: Row) => r.createdAt > high, (r: Row) => r.createdAt > high);
  }

  // Timestamps may tie. A run then takes the front of the backlog and leaves
  // exactly the rest if and only if no tie straddles the 500-row cut.
  lemma CutKeepsBacklogIff(rows: seq<Row>, watermark: int)
    requires NonDecreasing(rows) && After(rows, watermark) != []
    ensures
      var pending, read := After(rows, watermark), Since(rows, watermark);
      read + After(rows, Newest(read).GetOr(watermark)) == pending <==>
      (|pending| <= 500 || pending[499].createdAt < pending[500].createdAt)
  {
    var pending, read := After(rows, watermark), Since(rows, watermark);
    PendingFacts(rows, watermark);
    NewestIsLast(read);
    var mark := read[|read| - 1].createdAt;
    AfterAgain(rows, watermark, mark);
    if |pending| <= MAX_ROWS_PER_RUN {
      FilterNone(pending, (r: Row) => r.createdAt > mark);
    } else {
      LeftAfterCut(pending, MAX_ROWS_PER_RUN);
    }
  }

  // 501 rows of one instant: the last is neither read nor left for the next run.
  lemma TiedRowIsSkipped()
    ensures
      var rows := seq(MAX_ROWS_PER_RUN + 1, i requires i >= 0 => Row(i, 1));
      && NonDecreasing(rows) && rows[MAX_ROWS_PER_RUN] in After(rows, 0)
      && rows[MAX_ROWS_PER_RUN] !in Since(rows, 0)
      && Newest(Since(rows, 0)) == Some(1) && After(rows, 1) == []
  {
    var rows := seq(MAX_ROWS_PER_RUN + 1, i requires i >= 0 => Row(i, 1));
    FilterAll(rows, (r: Row) => r.createdAt > 0);
    FilterNone(rows, (r: Row) => r.createdAt > 1);
    NewestIsLast(Since(rows, 0));
  }

  // ---- the lost save --------------------------------------------------------------

  lemma WriteEstablished(books: Books, nextBook: nat, id: nat, title: string, rows: seq<Row>)
    requires Tab(books, Some(id), title) != []
    ensures
      var w := WriteTable(books, nextBook, Some(id), title, rows, NoFault);
      w.id == Some(id) && Tab(w.books, Some(id), title) == Tab(books, Some(id), title) + Lines(rows)
  {
    assert [] + Lines(rows) == Lines(rows);
  }

  // A run whose outcome is lost, then one that saves.
  function Again(w: World, at: int, nextRun: Option<int>): (World, World)
    requires w.flight.Queried? && at >= w.clock
  {
    var lost := Apply(w, FinishUnsaved(at, NoFault));
    var read := Apply(Apply(lost, StartRun(at)), QueryRows(at));
    (read, Apply(read, FinishRun(at, NoFault, nextRun)))
  }

  // A write that goes through to an established tab, its outcome unsaved, followed
  // by a run that does save: the first run's rows are in the tab twice.
  lemma UnsavedRunRepeats(w: World, at: int, nextRun: Option<int>)
    requires Inv(w) && w.flight.Queried? && w.export_.lastExportedAt.Some? && at >= w.clock
    ensures
      var (read, done) := Again(w, at, nextRun);
      && w.flight.rows <= read.flight.rows
      && TabOf(done) == TabOf(w) + Lines(w.flight.rows) + Lines(read.flight.rows)
      && !done.export_.failed
  {
    var e, f := w.export_, w.flight;
    RereadStartsTheSame(w);
    var (read, done) := Again(w, at, nextRun);
    assert read.flight.rows == Since(w.rows, f.watermark);
    var lost := Unsaved(w, NoFault);
    WriteEstablished(w.books, w.nextBook, e.spreadsheetId.value, e.sheetTitle, f.rows);
    WriteEstablished(lost.books, lost.nextBook, e.spreadsheetId.value, e.sheetTitle, read.flight.rows);
  }

  lemma RereadStartsTheSame(w: World)
    requires Inv(w) && w.flight.Queried?
    ensures w.flight.rows <= Since(w.rows, w.flight.watermark)
  {
    var f := w.flight;
    AfterSplits(w.rows, f.watermark, Reached(f.startedAt, f.rows));
  }

  lemma Stepped(w: World, op: Op) returns (next: World)
    requires Inv(w) && Enabled(w, op) && Recorded(w, op)
    ensures next == Apply(w, op) && Inv(next)
  {
    StepKeepsInv(w, op);
    next := Apply(w, op);
  }

  // A new export: its first run finds nothing, then a row arrives and is read.
  const New := Export(0, "tab", None, None, None, false, 0)
  const Ran := Export(0, "tab", Some(0), Some(0), Some(0), false, 0)
  const HeaderOnly: Books := map[0 := map["tab" := [Header]]]

  lemma FirstRunWritesHeader()
    ensures
      var w0 := World(0, [], map[], 0, New, Idle, None);
      var w2 := Apply(Apply(w0, StartRun(0)), QueryRows(0));
      && Fresh(w0) && Inv(w0) && w2 == World(0, [], map[], 0, New, Queried(0, 0, []), None)
      && Apply(w2, FinishRun(0, NoFault, None)) == World(0, [], HeaderOnly, 1, Ran, Idle, Some(0))
  {
    var tab: map<string, seq<Line>> := map["tab" := []];
    assert tab["tab" := [Header]] == HeaderOnly[0];
    var created: Books := map[0 := tab];
    assert created[0 := HeaderOnly[0]] == HeaderOnly;
    assert [] + ([Header] + Lines([])) == [Header];
  }

  lemma ThreeSteps(w: World, a: Op, b: Op, c: Op) returns (worlds: seq<World>, ops: seq<Op>)
    requires Enabled(w, a) && Enabled(Apply(w, a), b) && Enabled(Apply(Apply(w, a), b), c)
    ensures |ops| == 3 && Run(worlds, ops) && worlds[0] == w
    ensures worlds[3] == Apply(Apply(Apply(w, a), b), c)
  {
    var w1 := Apply(w, a);
    var w2 := Apply(w1, b);
    worlds, ops := [w, w1, w2, Apply(w2, c)], [a, b, c];
  }

  lemma RunJoin(worlds: seq<World>, ops: seq<Op>, more: seq<World>, next: seq<Op>)
    requires Run(worlds, ops) && Run(more, next) && worlds[|ops|] == more[0]
    ensures Run(worlds + more[1..], ops + next)
  {
    var all, steps := worlds + more[1..], ops + next;
    forall i | 0 <= i < |steps| ensures Enabled(all[i], steps[i]) && all[i + 1] == Apply(all[i], steps[i]) {
      if i >= |ops| {
        assert all[i] == more[i - |ops|] && steps[i] == next[i - |ops|] && all[i + 1] == more[i - |ops| + 1];
      }
    }
  }

  lemma RowRead() returns (worlds: seq<World>, ops: seq<Op>)
    ensures |ops| == 6 && Run(worlds, ops) && Fresh(worlds[0])
    ensures Inv(worlds[6])
    ensures worlds[6] == World(1, [Row(7, 1)], HeaderOnly, 1, Ran, Queried(1, 0, [Row(7, 1)]), Some(0))
  {
    var w0 := World(0, [], map[], 0, New, Idle, None);
    FirstRunWritesHeader();
    var w1 := Stepped(w0, StartRun(0));
    var w2 := Stepped(w1, QueryRows(0));
    var w3 := Stepped(w2, FinishRun(0, NoFault, None));
    var first, done := ThreeSteps(w0, StartRun(0), QueryRows(0), FinishRun(0, NoFault, None));
    var tail, next := ThenRowArrives(w3);
    RunJoin(first, done, tail, next);
    worlds, ops := first + tail[1..], done + next;
  }

  lemma RowArrives(w3: World) returns (w4: World)
    requires Inv(w3) && w3 == World(0, [], HeaderOnly, 1, Ran, Idle, Some(0))
    ensures Enabled(w3, InsertRow(1, 7)) && w4 == Apply(w3, InsertRow(1, 7)) && Inv(w4)
    ensures w4 == World(1, [Row(7, 1)], HeaderOnly, 1, Ran, Idle, Some(0))
  {
    w4 := Stepped(w3, InsertRow(1, 7));
  }

  lemma RunStarts(w4: World) returns (w5: World)
    requires Inv(w4) && w4 == World(1, [Row(7, 1)], HeaderOnly, 1, Ran, Idle, Some(0))
    ensures Enabled(w4, StartRun(1)) && w5 == Apply(w4, StartRun(1)) && Inv(w5)
    ensures w5 == World(1, [Row(7, 1)], HeaderOnly, 1, Ran, Started(1, 0), Some(0))
  {
    w5 := Stepped(w4, StartRun(1));
  }

  lemma RowFound(w5: World) returns (w6: World)
    requires Inv(w5) && w5 == World(1, [Row(7, 1)], HeaderOnly, 1, Ran, Started(1, 0), Some(0))
    ensures Enabled(w5, QueryRows(1)) && w6 == Apply(w5, QueryRows(1)) && Inv(w6)
    ensures w6 == World(1, [Row(7, 1)], HeaderOnly, 1, Ran, Queried(1, 0, [Row(7, 1)]), Some(0))
  {
    FilterAll([Row(7, 1)], (r: Row) => r.createdAt > 0);
    w6 := Stepped(w5, QueryRows(1));
  }

  lemma ThenRowArrives(w3: World) returns (worlds: seq<World>, ops: seq<Op>)
    requires Inv(w3) && w3 == World(0, [], HeaderOnly, 1, Ran, Idle, Some(0))
    ensures |ops| == 3 && Run(worlds, ops) && worlds[0] == w3
    ensures Inv(worlds[3])
    ensures worlds[3] == World(1, [Row(7, 1)], HeaderOnly, 1, Ran, Queried(1, 0, [Row(7, 1)]), Some(0))
  {
    var w4 := RowArrives(w3);
    var w5 := RunStarts(w4);
    var w6 := RowFound(w5);
    worlds, ops := ThreeSteps(w3, InsertRow(1, 7), StartRun(1), QueryRows(1));
  }

  lemma RowReadAgain(w: World)
    requires w == World(1, [Row(7, 1)], HeaderOnly, 1, Ran, Queried(1, 0, [Row(7, 1)]), Some(0))
    ensures Again(w, 1, None).0.flight.rows == [Row(7, 1)]
    ensures TabOf(w) == [Header] && Lines([Row(7, 1)]) == [Data(Row(7, 1))]
  {
    FilterAll(w.rows, (r: Row) => r.createdAt > 0);
    assert [Row(7, 1)][1..] == [];
  }

  lemma AgainIsRun(w: World) returns (worlds: seq<World>, ops: seq<Op>)
    requires w.flight.Queried? && w.clock <= 1
    ensures Run(worlds, ops) && worlds[0] == w && |ops| == 4 && worlds[4] == Again(w, 1, None).1
  {
    var lost := Apply(w, FinishUnsaved(1, NoFault));
    var started := Apply(lost, StartRun(1));
    var (read, done) := Again(w, 1, None);
    worlds := [w, lost, started, read, done];
    ops := [FinishUnsaved(1, NoFault), StartRun(1), QueryRows(1), FinishRun(1, NoFault, None)];
  }

  // A reachable tab that holds one row twice.
  lemma RowWrittenTwice() returns (worlds: seq<World>, ops: seq<Op>)
    ensures Run(worlds, ops) && Fresh(worlds[0])
    ensures TabOf(worlds[|ops|]) == [Header, Data(Row(7, 1)), Data(Row(7, 1))]
  {
    worlds, ops := RowRead();
    var w6 := worlds[6];
    UnsavedRunRepeats(w6, 1, None);
    RowReadAgain(w6);
    var tail, next := AgainIsRun(w6);
    worlds, ops := worlds[..6] + tail, ops + next;
  }
}
