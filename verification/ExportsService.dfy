// The objects behind the watermark protocol: the sheet store written call by
// call, and the export row whose fields a run reassigns. Each method is proved
// to take the matching step of the Exports machine.
module ExportsService {
  import opened Prelude
  import opened Exports

  class SheetsService {
    var books: Books
    var nextBook: nat

    constructor ()
      ensures books == map[] && nextBook == 0
    {
      books, nextBook := map[], 0;
    }

    method CreateSpreadsheet(title: string, fault: Fault) returns (id: Option<nat>)
      modifies this
      ensures fault == AtCreate ==> id.None? && books == old(books) && nextBook == old(nextBook)
      ensures fault != AtCreate ==> id == Some(old(nextBook)) && nextBook == old(nextBook) + 1
                                    && books == old(books)[old(nextBook) := map[title := []]]
    {
      if fault == AtCreate {
        return None;
      }
      id := Some(nextBook);
      books := books[nextBook := map[title := []]];
      nextBook := nextBook + 1;
    }

    method AddSheet(book: nat, title: string)
      requires book in books
      modifies this`books
      ensures books == old(books)[book := old(books)[book][title := []]]
    {
      books := books[book := books[book][title := []]];
    }

    method Append(book: nat, title: string, values: seq<Line>)
      requires book in books && title in books[book]
      modifies this`books
      ensures books == old(books)[book := old(books)[book][title := old(books)[book][title] + values]]
    {
      books := books[book := books[book][title := books[book][title] + values]];
    }

    // Create if needed, add the tab if needed, header on a fresh tab, append.
    // A failed call ends the write where it stands.
    method Write(id: Option<nat>, title: string, rows: seq<Row>, fault: Fault) returns (written: Option<nat>)
      modifies this
      ensures WriteTable(old(books), old(nextBook), id, title, rows, fault) == Written(books, nextBook, written)
    {
      var book := 0;
      if id.None? {
        var created := CreateSpreadsheet(title, fault);
        if created.None? {
          return None;
        }
        book := created.value;
      } else {
        book := id.value;
      }
      if fault == AtRead || book !in books {
        return None;
      }
      if title !in books[book] {
        if fault == AtAddTab {
          return None;
        }
        AddSheet(book, title);
      }
      if fault == AtPeek {
        return None;
      }
      var headerWritten := books[book][title] == [];
      var values := if headerWritten then [Header] + Lines(rows) else Lines(rows);
      assert [] + Lines(rows) == Lines(rows);
      if values != [] {
        if fault == AtAppend {
          return None;
        }
        Append(book, title, values);
      }
      written := Some(book);
    }
  }

  class ExportsService {
    const sheets: SheetsService
    var rows: seq<Row>
    var clock: int
    var flight: Flight
    var windowDays: nat
    var sheetTitle: string
    var spreadsheetId: Option<nat>
    var lastExportedAt: Option<int>
    var lastRowCount: Option<nat>
    var failed: bool
    var nextRun: int
    ghost var from: Option<int>

    ghost function Model(): World
      reads this, sheets
    {
      World(clock, rows, sheets.books, sheets.nextBook,
            Export(windowDays, sheetTitle, spreadsheetId, lastExportedAt, lastRowCount, failed, nextRun),
            flight, from)
    }

    constructor (sheets: SheetsService, windowDays: nat, sheetTitle: string, nextRun: int, now: int)
      requires forall b | b in sheets.books :: b < sheets.nextBook
      ensures this.sheets == sheets
      ensures Fresh(Model())
    {
      this.sheets := sheets;
      this.windowDays, this.sheetTitle, this.nextRun := windowDays, sheetTitle, nextRun;
      rows, clock, flight, from := [], now, Idle, None;
      spreadsheetId, lastExportedAt, lastRowCount, failed := None, None, None, false;
    }

    // A row of the dataset is written by some other part of the system.
    method InsertRow(at: int, id: nat)
      requires Inv(Model()) && at > clock
      modifies this
      ensures Model() == Apply(old(Model()), Op.InsertRow(at, id)) && Inv(Model())
    {
      StepKeepsInv(Model(), Op.InsertRow(at, id));
      rows := rows + [Row(id, at)];
      clock := at;
    }

    method StartRun(at: int)
      requires Inv(Model()) && at >= clock && flight.Idle?
      modifies this
      ensures Model() == Apply(old(Model()), Op.StartRun(at)) && Inv(Model())
    {
      StepKeepsInv(Model(), Op.StartRun(at));
      var watermark := if lastExportedAt.Some? then lastExportedAt.value else at - windowDays * DAY;
      flight := Started(at, watermark);
      clock := at;
    }

    method BuildTable(at: int)
      requires Inv(Model()) && at >= clock && flight.Started?
      modifies this
      ensures Model() == Apply(old(Model()), Op.QueryRows(at)) && Inv(Model())
    {
      StepKeepsInv(Model(), Op.QueryRows(at));
      flight := Queried(flight.startedAt, flight.watermark, Since(rows, flight.watermark));
      clock := at;
    }

    // newest(): the reduce over the rows' timestamps.
    static method NewestOf(rows: seq<Row>) returns (latest: Option<int>)
      ensures latest == Newest(rows) && (latest.None? <==> rows == [])
      ensures forall r | r in rows :: latest.Some? && r.createdAt <= latest.value
      ensures latest.Some? ==> exists r | r in rows :: r.createdAt == latest.value
    {
      NewestIsMax(rows);
      latest := None;
      for i := 0 to |rows|
        invariant latest == Newest(rows[..i])
      {
        assert rows[..i + 1][..i] == rows[..i];
        if latest.None? || rows[i].createdAt > latest.value {
          latest := Some(rows[i].createdAt);
        }
      }
      assert rows[..|rows|] == rows;
    }

    // The write, the outcome on the export row, and the finally block.
    method Finish(at: int, fault: Fault, scheduled: Option<int>)
      requires flight.Queried?
      modifies this, sheets
      ensures Model() == Finished(old(Model()), fault, scheduled).(clock := at)
    {
      var written := sheets.Write(spreadsheetId, sheetTitle, flight.rows, fault);
      if written.Some? {
        var newest := NewestOf(flight.rows);
        RecordSuccess(written, newest);
      } else {
        failed := true;
        lastRowCount := None;
      }
      if scheduled.Some? {
        nextRun := scheduled.value;
      }
      flight := Idle;
      clock := at;
    }

    // The same write, but the row it was to be recorded on could not be saved.
    method FinishUnsaved(at: int, fault: Fault)
      requires Inv(Model()) && at >= clock && flight.Queried?
      modifies this, sheets
      ensures Model() == Apply(old(Model()), Op.FinishUnsaved(at, fault))
      ensures Inv(Model()) <==> SaveCanBeLost(old(Model()), fault)
    {
      UnsavedKeepsHistoryIff(Model(), at, fault);
      WriteAndForget(at, fault);
    }

    method WriteAndForget(at: int, fault: Fault)
      requires flight.Queried?
      modifies this, sheets
      ensures Model() == Unsaved(old(Model()), fault).(clock := at)
    {
      var written := sheets.Write(spreadsheetId, sheetTitle, flight.rows, fault);
      flight := Idle;
      clock := at;
    }

    method RecordSuccess(written: Option<nat>, newest: Option<int>)
      requires flight.Queried?
      modifies this`spreadsheetId, this`lastRowCount, this`failed, this`lastExportedAt, this`from
      ensures spreadsheetId == written && lastRowCount == Some(|flight.rows|) && !failed
      ensures lastExportedAt == Some(newest.GetOr(flight.startedAt))
      ensures from == if old(from).Some? then old(from) else Some(flight.watermark)
    {
      spreadsheetId := written;
      lastRowCount := Some(|flight.rows|);
      failed := false;
      lastExportedAt := Some(newest.GetOr(flight.startedAt));
      from := if from.Some? then from else Some(flight.watermark);
    }

    method FinishRun(at: int, fault: Fault, scheduled: Option<int>)
      requires Inv(Model()) && at >= clock && flight.Queried?
      modifies this, sheets
      ensures Model() == Apply(old(Model()), Op.FinishRun(at, fault, scheduled)) && Inv(Model())
    {
      StepKeepsInv(Model(), Op.FinishRun(at, fault, scheduled));
      Finish(at, fault, scheduled);
    }
  }
}
