/**
 * The per-user record store. Every chat has one workbook file; a workbook maps sheet names
 * to the expense rows under the sheet's header row. The file system is the `files` field of
 * `UserFiles`; the pure functions below say what each operation does to one workbook.
 */
module RecordStore {
  import opened Wrappers
  import opened SheetNames
  import opened Expenses

  type ChatId = int

  /** Sheet name to data rows (the header row of each sheet is implicit). */
  type Workbook = map<string, seq<Expense>>

  /** The sheet every new workbook is created with. */
  const TemplateSheet: string := "Template"

  /** The workbook of a new user: one sheet, `Template`, holding only the header row. */
  function NewWorkbook(): (wb: Workbook)
    ensures wb.Keys == {TemplateSheet} && wb[TemplateSheet] == []
  {
    map[TemplateSheet := []]
  }

  /** The files after `ensureUserFileExists(chat)`: a missing file is created, an existing one kept. */
  function EnsureFile(files: map<ChatId, Workbook>, chat: ChatId): (r: map<ChatId, Workbook>)
    ensures chat in r && r.Keys == files.Keys + {chat}
    ensures forall c :: c in files ==> c in r && r[c] == files[c]
    ensures chat !in files ==> r[chat].Keys == {TemplateSheet} && r[chat][TemplateSheet] == []
  {
    if chat in files then files else files[chat := NewWorkbook()]
  }

  /** Creating the file twice is creating it once. */
  lemma EnsureFileIdempotent(files: map<ChatId, Workbook>, chat: ChatId)
    ensures EnsureFile(EnsureFile(files, chat), chat) == EnsureFile(files, chat)
  {
  }

  /** `readUserExpenses` on a workbook: the rows of the sheet, or none when the sheet is absent. */
  function SheetRows(wb: Workbook, sheet: string): (rows: seq<Expense>)
    ensures sheet in wb ==> rows == wb[sheet]
    ensures sheet !in wb ==> rows == []
  {
    if sheet in wb then wb[sheet] else []
  }

  /** The workbook after `writeUserExpenses(_, sheet, e)`: the sheet (created if absent) gains `e` at its end. */
  function Appended(wb: Workbook, sheet: string, e: Expense): (r: Workbook)
    ensures r.Keys == wb.Keys + {sheet}
  {
    wb[sheet := SheetRows(wb, sheet) + [e]]
  }

  /** After a write, the sheet reads as its old rows followed by the new record; other sheets read as before. */
  lemma ReadAfterWrite(wb: Workbook, sheet: string, e: Expense, other: string)
    requires other != sheet
    ensures SheetRows(Appended(wb, sheet, e), sheet) == SheetRows(wb, sheet) + [e]
    ensures sheet !in wb ==> SheetRows(Appended(wb, sheet, e), sheet) == [e]
    ensures SheetRows(Appended(wb, sheet, e), other) == SheetRows(wb, other)
    ensures other in Appended(wb, sheet, e) <==> other in wb
  {
  }

  /**
   * The files after `writeUserExpenses(chat, sheet, e)`: the chat's file is ensured, then its
   * sheet gains `e`; every other chat's file is kept.
   */
  function AfterWrite(files: map<ChatId, Workbook>, chat: ChatId, sheet: string, e: Expense): (r: map<ChatId, Workbook>)
    ensures r.Keys == files.Keys + {chat}
    ensures forall c :: c in files && c != chat ==> r[c] == files[c]
  {
    var ensured := EnsureFile(files, chat);
    ensured[chat := Appended(ensured[chat], sheet, e)]
  }

  /** A write to a new workbook leaves the template sheet and a one-row sheet. */
  lemma WriteToNewWorkbook(sheet: string, e: Expense)
    ensures Appended(NewWorkbook(), sheet, e) == map[TemplateSheet := [], sheet := [e]]
  {
    var wb := NewWorkbook();
    assert wb == map[TemplateSheet := []];
    assert SheetRows(wb, sheet) == [];
    assert Appended(wb, sheet, e) == wb[sheet := [] + [e]];
    assert [] + [e] == [e];
  }

  /** `rows.filter(e => e.ID !== id)`: the rows whose ID differs from `id`, in their original order. */
  function WithoutId(rows: seq<Expense>, id: string): (r: seq<Expense>)
    ensures forall e :: e in r <==> e in rows && e.id != id
    ensures |r| <= |rows|
    ensures r == rows <==> forall i :: 0 <= i < |rows| ==> rows[i].id != id
  {
    if |rows| == 0 then []
    else
      var init := rows[..|rows| - 1];
      var last := rows[|rows| - 1];
      assert rows == init + [last];
      assert forall i :: 0 <= i < |init| ==> init[i] == rows[i];
      var kept := WithoutId(init, id);
      assert |kept| == |rows| ==> last.id != id;
      kept + (if last.id != id then [last] else [])
  }

  /** The filter keeps order: filtering a concatenation filters each part. */
  lemma {:induction false} WithoutIdConcat(a: seq<Expense>, b: seq<Expense>, id: string)
    ensures WithoutId(a + b, id) == WithoutId(a, id) + WithoutId(b, id)
    decreases |b|
  {
    if |b| > 0 {
      var init := b[..|b| - 1];
      var last := b[|b| - 1];
      assert b == init + [last];
      assert (a + b)[..|a + b| - 1] == a + init;
      WithoutIdConcat(a, init, id);
    } else {
      assert a + b == a;
    }
  }

  /** Filtering rows none of which has the ID keeps them all. */
  lemma WithoutIdKeepsAll(rows: seq<Expense>, id: string)
    requires forall e :: e in rows ==> e.id != id
    ensures WithoutId(rows, id) == rows
  {
    assert forall i :: 0 <= i < |rows| ==> rows[i] in rows;
  }

  /** Filtering twice by the same ID is filtering once. */
  lemma WithoutIdIdempotent(rows: seq<Expense>, id: string)
    ensures WithoutId(WithoutId(rows, id), id) == WithoutId(rows, id)
  {
    var r := WithoutId(rows, id);
    assert forall i :: 0 <= i < |r| ==> r[i] in r;
  }

  /**
   * The workbook after the delete step rewrites `sheet` with the rows whose ID is not `id`. The
   * step assigns the sheet without appending it to the workbook's sheet list, so a sheet that was
   * absent is not saved: the workbook keeps its sheet names.
   */
  function Deleted(wb: Workbook, sheet: string, id: string): (r: Workbook)
    ensures r.Keys == wb.Keys
  {
    if sheet in wb then wb[sheet := WithoutId(wb[sheet], id)] else wb
  }

  /**
   * Deleting keeps in `sheet` exactly the other-ID rows, leaves every other sheet as it was, and
   * leaves the whole workbook unchanged when no row of the sheet has the ID (in particular when
   * the sheet is absent).
   */
  lemma DeleteEffect(wb: Workbook, sheet: string, id: string, other: string)
    requires other != sheet
    ensures SheetRows(Deleted(wb, sheet, id), sheet) == WithoutId(SheetRows(wb, sheet), id)
    ensures SheetRows(Deleted(wb, sheet, id), other) == SheetRows(wb, other)
    ensures (forall e :: e in SheetRows(wb, sheet) ==> e.id != id) ==> Deleted(wb, sheet, id) == wb
  {
    if sheet in wb && (forall e :: e in wb[sheet] ==> e.id != id) {
      var rows := wb[sheet];
      WithoutIdKeepsAll(rows, id);
      assert Deleted(wb, sheet, id) == wb[sheet := rows];
    }
  }

  /** Deleting the ID of a record just written, when no earlier row had that ID, restores the sheet. */
  lemma {:induction false} DeleteUndoesWrite(wb: Workbook, sheet: string, e: Expense)
    requires forall r :: r in SheetRows(wb, sheet) ==> r.id != e.id
    ensures SheetRows(Deleted(Appended(wb, sheet, e), sheet, e.id), sheet) == SheetRows(wb, sheet)
    ensures sheet in wb ==> Deleted(Appended(wb, sheet, e), sheet, e.id) == wb
  {
    var rows := SheetRows(wb, sheet);
    var written := Appended(wb, sheet, e);
    assert SheetRows(written, sheet) == rows + [e];
    WithoutIdConcat(rows, [e], e.id);
    assert WithoutId([e], e.id) == [];
    WithoutIdKeepsAll(rows, e.id);
    assert WithoutId(rows + [e], e.id) == rows;
    assert Deleted(written, sheet, e.id) == written[sheet := rows] == wb[sheet := rows];
    if sheet in wb {
      assert wb[sheet := wb[sheet]] == wb;
    }
  }

  /** Every row sits in the sheet that its date names (the invariant `/add` maintains). */
  ghost predicate Partitioned(wb: Workbook)
  {
    forall sheet, e :: sheet in wb && e in wb[sheet] ==> SheetNameFromDate(e.date) == Some(sheet)
  }

  /** A user's workbook as the bot keeps it: the template sheet exists and the rows are partitioned. */
  ghost predicate WellFormed(wb: Workbook)
  {
    TemplateSheet in wb && Partitioned(wb)
  }

  /** No date names the template sheet: a derived name always has a dash, `Template` has none. */
  lemma {:induction false} NoDateNamesTemplate(date: string)
    ensures SheetNameFromDate(date) != Some(TemplateSheet)
  {
    var parts := Split(date, Dash);
    if |parts| >= 2 {
      var month := PaddedMonth(parts[1]);
      var name := "T" + month + "-" + Rendered(parts, 2);
      assert name[1 + |month|] == Dash;
      assert Dash !in TemplateSheet;
    }
  }

  /** In a partitioned workbook the template sheet holds no data rows. */
  lemma TemplateHoldsNoRows(wb: Workbook)
    requires Partitioned(wb)
    ensures SheetRows(wb, TemplateSheet) == []
  {
    var rows := SheetRows(wb, TemplateSheet);
    if rows != [] {
      assert rows[0] in wb[TemplateSheet];
      NoDateNamesTemplate(rows[0].date);
    }
  }

  /** A new workbook is well formed. */
  lemma NewWorkbookWellFormed()
    ensures WellFormed(NewWorkbook())
  {
  }

  /** Writing a record to the sheet its own date names keeps the workbook well formed. */
  lemma WriteKeepsWellFormed(wb: Workbook, sheet: string, e: Expense)
    requires WellFormed(wb)
    requires SheetNameFromDate(e.date) == Some(sheet)
    ensures WellFormed(Appended(wb, sheet, e))
  {
  }

  /** Deleting keeps the workbook well formed. */
  lemma DeleteKeepsWellFormed(wb: Workbook, sheet: string, id: string)
    requires WellFormed(wb)
    ensures WellFormed(Deleted(wb, sheet, id))
  {
  }

  /** Replacing a sheet by rows that all belong in it keeps the workbook well formed. */
  lemma RewriteKeepsWellFormed(wb: Workbook, sheet: string, rows: seq<Expense>)
    requires WellFormed(wb)
    requires forall e :: e in rows ==> SheetNameFromDate(e.date) == Some(sheet)
    ensures WellFormed(wb[sheet := rows])
  {
  }

  /**
   * A write to the sheet the record's own date names keeps every file well formed, including a
   * file the write creates.
   */
  lemma WriteKeepsFilesWellFormed(files: map<ChatId, Workbook>, chat: ChatId, sheet: string, e: Expense)
    requires forall c :: c in files ==> WellFormed(files[c])
    requires SheetNameFromDate(e.date) == Some(sheet)
    ensures forall c :: c in AfterWrite(files, chat, sheet, e) ==> WellFormed(AfterWrite(files, chat, sheet, e)[c])
  {
    var ensured := EnsureFile(files, chat);
    if chat !in files {
      NewWorkbookWellFormed();
    }
    WriteKeepsWellFormed(ensured[chat], sheet, e);
  }

  /**
   * The files of all chats. Each method except `RewriteWithoutId` (the inline delete step of
   * `/delete`) is the bot's function of the same name.
   */
  class UserFiles {
    var files: map<ChatId, Workbook>

    /** Every existing file is well formed. */
    ghost predicate Valid()
      reads this
    {
      forall chat :: chat in files ==> WellFormed(files[chat])
    }

    /** In a valid store the `Template` sheet of every file holds no data rows. */
    lemma ValidTemplateEmpty(chat: ChatId)
      requires Valid() && chat in files
      ensures SheetRows(files[chat], TemplateSheet) == []
    {
      TemplateHoldsNoRows(files[chat]);
    }

    /** The user directory starts empty. */
    constructor ()
      ensures files == map[] && Valid()
    {
      files := map[];
    }

    /** `ensureUserFileExists`: write a template-only workbook when the chat has no file yet. */
    method EnsureUserFileExists(chat: ChatId)
      modifies this
      ensures files == EnsureFile(old(files), chat)
      ensures old(Valid()) ==> Valid()
    {
      if chat !in files {
        files := files[chat := NewWorkbook()];
      }
    }

    /** `readUserExpenses`: ensure the file, then return the sheet's rows or `[]` if it is absent. */
    method ReadUserExpenses(chat: ChatId, sheet: string) returns (rows: seq<Expense>)
      modifies this
      ensures files == EnsureFile(old(files), chat)
      ensures rows == SheetRows(files[chat], sheet)
      ensures sheet !in files[chat] ==> rows == []
      ensures old(Valid()) ==> Valid()
    {
      EnsureUserFileExists(chat);
      var workbook := files[chat];
      rows := SheetRows(workbook, sheet);
    }

    /**
     * `writeUserExpenses`: ensure the file, add a header-only sheet if `sheet` is absent, read the
     * sheet's rows back, push `data` and rewrite that sheet; every other sheet and file is kept.
     */
    method WriteUserExpenses(chat: ChatId, sheet: string, data: Expense)
      modifies this
      ensures files == AfterWrite(old(files), chat, sheet, data)
      ensures old(Valid()) && SheetNameFromDate(data.date) == Some(sheet) ==> Valid()
    {
      EnsureUserFileExists(chat);
      ghost var ensured := files;
      var workbook := files[chat];
      if sheet !in workbook {
        workbook := workbook[sheet := []];
      }
      var existingData := ReadUserExpenses(chat, sheet);
      assert files == ensured;
      assert existingData == SheetRows(ensured[chat], sheet);
      existingData := existingData + [data];
      workbook := workbook[sheet := existingData];
      assert workbook == ensured[chat][sheet := existingData];
      assert workbook == Appended(ensured[chat], sheet, data);
      files := files[chat := workbook];
      if old(Valid()) && SheetNameFromDate(data.date) == Some(sheet) {
        WriteKeepsFilesWellFormed(old(files), chat, sheet, data);
      }
    }

    /**
     * The delete step: rewrite an existing `sheet` of an existing file with the rows of the earlier read
     * `expenses` whose ID is not `id`.
     */
    method RewriteWithoutId(chat: ChatId, sheet: string, expenses: seq<Expense>, id: string)
      requires chat in files && sheet in files[chat]
      modifies this
      ensures files == old(files)[chat := old(files)[chat][sheet := WithoutId(expenses, id)]]
      ensures old(Valid()) && (forall e :: e in expenses ==> SheetNameFromDate(e.date) == Some(sheet)) ==> Valid()
    {
      var updatedExpenses := WithoutId(expenses, id);
      var workbook := files[chat];
      ghost var before := workbook;
      workbook := workbook[sheet := updatedExpenses];
      files := files[chat := workbook];
      assert old(Valid()) && (forall e :: e in expenses ==> SheetNameFromDate(e.date) == Some(sheet)) ==>
        WellFormed(workbook) by {
        if old(Valid()) && (forall e :: e in expenses ==> SheetNameFromDate(e.date) == Some(sheet)) {
          RewriteKeepsWellFormed(before, sheet, updatedExpenses);
        }
      }
    }
  }
}
