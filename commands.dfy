/**
 * The data-changing part of the bot's command handlers, once the follow-up message has been
 * received: `/add`, `/view`, `/delete` and `/stats`. Replies are returned as values.
 */
module Commands {
  import opened Wrappers
  import opened SheetNames
  import opened Expenses
  import opened RecordStore

  /** The two replies of `/delete`: no data for the month, or the (unconditional) confirmation. */
  datatype DeleteReply = NoDataForMonth | DeleteConfirmed

  /**
   * `/add` with the fields of the follow-up message and a generated ID: derive the sheet from the
   * date and append the record there. A date without a dash throws before anything is written.
   */
  method Add(store: UserFiles, chat: ChatId, name: string, amount: int, category: string,
             date: string, id: string) returns (sheet: Option<string>)
    modifies store
    ensures sheet == SheetNameFromDate(date)
    ensures sheet.None? ==> store.files == old(store.files)
    ensures sheet.Some? ==>
      store.files == AfterWrite(old(store.files), chat, sheet.value, Expense(id, name, amount, category, date))
    ensures old(store.Valid()) ==> store.Valid()
  {
    sheet := SheetNameFromDate(date);
    if sheet.Some? {
      var newExpense := Expense(id, name, amount, category, date);
      store.WriteUserExpenses(chat, sheet.value, newExpense);
    }
  }

  /** `/view` with the month text: the rows of sheet `T` + text, unpadded. */
  method View(store: UserFiles, chat: ChatId, text: string) returns (expenses: seq<Expense>)
    modifies store
    ensures store.files == EnsureFile(old(store.files), chat)
    ensures expenses == SheetRows(store.files[chat], RawSheetName(text))
    ensures old(store.Valid()) ==> store.Valid()
  {
    var sheetName := RawSheetName(text);
    expenses := store.ReadUserExpenses(chat, sheetName);
  }

  /**
   * `/delete` with the month text and then the ID: when sheet `T` + text has rows, rewrite it
   * without the rows carrying that ID and confirm, whether or not a row matched.
   */
  method Delete(store: UserFiles, chat: ChatId, text: string, id: string) returns (reply: DeleteReply)
    modifies store
    ensures var ensured := EnsureFile(old(store.files), chat);
      var sheet := RawSheetName(text);
      if SheetRows(ensured[chat], sheet) == [] then
        reply == NoDataForMonth && store.files == ensured
      else
        reply == DeleteConfirmed && store.files == ensured[chat := Deleted(ensured[chat], sheet, id)]
    ensures old(store.Valid()) ==> store.Valid()
  {
    var sheetName := RawSheetName(text);
    var expenses := store.ReadUserExpenses(chat, sheetName);
    if |expenses| == 0 {
      reply := NoDataForMonth;
    } else {
      ghost var ensured := store.files;
      store.RewriteWithoutId(chat, sheetName, expenses, id);
      reply := DeleteConfirmed;
      assert old(store.Valid()) ==> store.Valid() by {
        if old(store.Valid()) {
          DeleteKeepsWellFormed(ensured[chat], sheetName, id);
        }
      }
    }
  }

  /**
   * `/stats` with the month text: read the padded sheet; with no rows there is no report,
   * otherwise the overall total and one line per distinct category other than `'all'`.
   */
  method Stats(store: UserFiles, chat: ChatId, text: string) returns (report: Option<Report>)
    modifies store
    ensures store.files == EnsureFile(old(store.files), chat)
    ensures var rows := SheetRows(store.files[chat], StatsSheetName(text));
      report == if rows == [] then None else Some(Report(Sum(rows), Breakdown(rows)))
    ensures old(store.Valid()) ==> store.Valid()
  {
    var sheetName := StatsSheetName(text);
    var expenses := store.ReadUserExpenses(chat, sheetName);
    if |expenses| == 0 {
      report := None;
    } else {
      var r := Statistics(expenses);
      report := Some(r);
    }
  }

  /** Two records of different categories list both categories, in order. */
  lemma TwoCategories(first: Expense, second: Expense)
    requires first.category != second.category
    ensures DistinctCategories([first, second]) == [first.category, second.category]
  {
    assert [first][..0] == [];
    assert DistinctCategories([first]) == [first.category];
    assert [first, second][..1] == [first];
    assert second.category !in [first.category];
  }

  /** Over two records of different categories, each category selects its own record. */
  lemma TwoMatches(first: Expense, second: Expense)
    requires first.category != second.category && first.category != All && second.category != All
    ensures Sum(Matching([first, second], first.category)) == first.amount
    ensures Sum(Matching([first, second], second.category)) == second.amount
    ensures Sum([first, second]) == first.amount + second.amount
  {
    assert [first, second][..1] == [first] && [first][..0] == [];
    assert Matching([first, second], first.category) == [first];
    assert Matching([first, second], second.category) == [second];
    assert [first][..0] == [] && [second][..0] == [];
  }

  /** The `/stats` numbers of two records in different categories. */
  lemma TwoRecordReport(first: Expense, second: Expense)
    requires first.category != second.category && first.category != All && second.category != All
    ensures Sum([first, second]) == first.amount + second.amount
    ensures Breakdown([first, second])
         == [Line(first.category, first.amount), Line(second.category, second.amount)]
  {
    TwoCategories(first, second);
    TwoMatches(first, second);
    var cats := [first.category, second.category];
    assert cats[..1] == [first.category] && [first.category][..0] == [];
    var rows := [first, second];
    assert Lines(cats[..1], rows) == [Line(first.category, first.amount)];
    assert Lines(cats, rows) == [Line(first.category, first.amount)] + [Line(second.category, second.amount)];
  }

  /** Two writes to the same sheet of a new workbook leave both rows there, in order. */
  lemma TwoWritesOneSheet(sheet: string, first: Expense, second: Expense)
    ensures SheetRows(Appended(Appended(NewWorkbook(), sheet, first), sheet, second), sheet) == [first, second]
  {
    WriteToNewWorkbook(sheet, first);
  }

  /** Two writes by a chat that had no file leave one file: the template sheet and both rows. */
  lemma TwoWritesFromNothing(chat: ChatId, sheet: string, first: Expense, second: Expense)
    ensures AfterWrite(AfterWrite(map[], chat, sheet, first), chat, sheet, second)
         == map[chat := Appended(Appended(NewWorkbook(), sheet, first), sheet, second)]
  {
    var files1 := AfterWrite(map[], chat, sheet, first);
    assert files1 == map[chat := Appended(NewWorkbook(), sheet, first)];
  }

  /** `/add` of two records dated in `sheet`'s month, by a chat that had no file yet. */
  method AddBoth(store: UserFiles, chat: ChatId, sheet: string, first: Expense, second: Expense)
    requires store.files == map[]
    requires SheetNameFromDate(first.date) == Some(sheet) && SheetNameFromDate(second.date) == Some(sheet)
    modifies store
    ensures store.files == map[chat := Appended(Appended(NewWorkbook(), sheet, first), sheet, second)]
  {
    var sheet1 := Add(store, chat, first.name, first.amount, first.category, first.date, first.id);
    assert first == Expense(first.id, first.name, first.amount, first.category, first.date);
    ghost var files1 := AfterWrite(map[], chat, sheet, first);
    assert store.files == files1;
    var sheet2 := Add(store, chat, second.name, second.amount, second.category, second.date, second.id);
    assert second == Expense(second.id, second.name, second.amount, second.category, second.date);
    assert store.files == AfterWrite(files1, chat, sheet, second);
    TwoWritesFromNothing(chat, sheet, first, second);
  }

  /** After `AddBoth`, the sheet holds the two rows, and ensuring the file again changes nothing. */
  lemma RowsAfterTwoWrites(files: map<ChatId, Workbook>, chat: ChatId, sheet: string,
                           first: Expense, second: Expense)
    requires files == map[chat := Appended(Appended(NewWorkbook(), sheet, first), sheet, second)]
    ensures EnsureFile(files, chat) == files
    ensures SheetRows(files[chat], sheet) == [first, second]
  {
    TwoWritesOneSheet(sheet, first, second);
  }

  /** The `/stats` reply on a sheet holding two records of different categories. */
  lemma StatsOfTwoRows(rows: seq<Expense>, first: Expense, second: Expense, report: Option<Report>)
    requires rows == [first, second]
    requires first.category != second.category && first.category != All && second.category != All
    requires report == if rows == [] then None else Some(Report(Sum(rows), Breakdown(rows)))
    ensures report == Some(Report(first.amount + second.amount,
                                  [Line(first.category, first.amount), Line(second.category, second.amount)]))
  {
    TwoRecordReport(first, second);
  }

  /**
   * Two expenses dated in the month `text` (see `AddKeyMatchesStatsKey`), in different
   * categories, then `/stats text`: the total is the sum of both amounts and there is one line per
   * category, in the order they were added. (With 01-03-2024 Food 50000 and 15-03-2024 Transport
   * 120000, `/stats 03-2024` gives 170000, Food 50000, Transport 120000.)
   */
  method StatsScenario(first: Expense, second: Expense, text: string) returns (report: Option<Report>)
    requires SheetNameFromDate(first.date) == Some(StatsSheetName(text))
    requires SheetNameFromDate(second.date) == Some(StatsSheetName(text))
    requires first.category != second.category && first.category != All && second.category != All
    ensures report == Some(Report(first.amount + second.amount,
                                  [Line(first.category, first.amount), Line(second.category, second.amount)]))
  {
    var store := new UserFiles();
    var sheet := StatsSheetName(text);
    AddBoth(store, 7, sheet, first, second);
    RowsAfterTwoWrites(store.files, 7, sheet, first, second);
    report := Stats(store, 7, text);
    StatsOfTwoRows(SheetRows(store.files[7], sheet), first, second, report);
  }

  /** One write by a chat that had no file: its sheet holds the record, every other sheet reads empty. */
  lemma OneWriteFromNothing(chat: ChatId, sheet: string, e: Expense, other: string)
    ensures var files := AfterWrite(map[], chat, sheet, e);
      EnsureFile(files, chat) == files &&
      SheetRows(files[chat], other) == if other == sheet then [e] else []
  {
    WriteToNewWorkbook(sheet, e);
  }

  /**
   * One expense dated in the month `text`, in a new store, then `/view text`: the record is found
   * only when the unpadded key is the padded one, that is (by `RawKeyMatchesStatsKeyIff`) when the
   * month is written with two or more characters; `/stats text` finds it in every case
   * (`StatsScenario`, `AddKeyMatchesStatsKey`).
   */
  method ViewScenario(e: Expense, text: string) returns (viewed: seq<Expense>)
    requires SheetNameFromDate(e.date) == Some(StatsSheetName(text))
    ensures viewed == if RawSheetName(text) == StatsSheetName(text) then [e] else []
  {
    var store := new UserFiles();
    var sheet := StatsSheetName(text);
    var added := Add(store, 7, e.name, e.amount, e.category, e.date, e.id);
    assert store.files == AfterWrite(map[], 7, sheet, e) by {
      assert e == Expense(e.id, e.name, e.amount, e.category, e.date);
    }
    OneWriteFromNothing(7, sheet, e, RawSheetName(text));
    viewed := View(store, 7, text);
  }
}
