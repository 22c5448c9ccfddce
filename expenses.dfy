/**
 * Expense records and the aggregation behind `/stats`: the category-filtered total
 * (`calculateTotalExpenses`) and the distinct-category list built through a `Set`.
 */
module Expenses {

  /** One row of a monthly sheet. The amount is the already-parsed number, as an integer. */
  datatype Expense = Expense(id: string, name: string, amount: int, category: string, date: string)

  /** The category sentinel that selects every record. */
  const All: string := "all"

  /** One per-category line of a `/stats` report. */
  datatype Line = Line(category: string, total: int)

  /** The numbers of a `/stats` report: the overall total and the per-category lines. */
  datatype Report = Report(total: int, lines: seq<Line>)

  /** Sum of the amounts of `rs`. */
  function Sum(rs: seq<Expense>): int
  {
    if |rs| == 0 then 0 else Sum(rs[..|rs| - 1]) + rs[|rs| - 1].amount
  }

  /** Whether a record is counted by `calculateTotalExpenses(_, category)`. */
  predicate Selects(category: string, e: Expense)
    ensures category == All ==> Selects(category, e)
    ensures category != All ==> (Selects(category, e) <==> e.category == category)
  {
    category == All || e.category == category
  }

  /** The records counted for `category`, in their original order. */
  function Matching(rs: seq<Expense>, category: string): (m: seq<Expense>)
    ensures forall e :: e in m <==> e in rs && Selects(category, e)
    ensures |m| <= |rs|
  {
    if |rs| == 0 then []
    else
      var last := rs[|rs| - 1];
      assert rs == rs[..|rs| - 1] + [last];
      Matching(rs[..|rs| - 1], category) + (if Selects(category, last) then [last] else [])
  }

  /** The sentinel selects every record: the `'all'` total is the sum of all amounts. */
  lemma {:induction false} MatchingAll(rs: seq<Expense>)
    ensures Matching(rs, All) == rs
  {
    if |rs| > 0 {
      MatchingAll(rs[..|rs| - 1]);
      assert rs == rs[..|rs| - 1] + [rs[|rs| - 1]];
    }
  }

  /** Selecting from a concatenation selects from each half. */
  lemma {:induction false} MatchingAppend(rs: seq<Expense>, e: Expense, category: string)
    ensures Matching(rs + [e], category)
         == Matching(rs, category) + (if Selects(category, e) then [e] else [])
  {
    assert (rs + [e])[..|rs|] == rs;
  }

  /** `Sum` distributes over appending one record. */
  lemma SumAppend(rs: seq<Expense>, e: Expense)
    ensures Sum(rs + [e]) == Sum(rs) + e.amount
  {
    assert (rs + [e])[..|rs|] == rs;
  }

  /**
   * `calculateTotalExpenses(expenses, category)`: a running total over `expenses`, adding the
   * amount of every record that the category selects.
   */
  method CalculateTotal(expenses: seq<Expense>, category: string) returns (total: int)
    ensures total == Sum(Matching(expenses, category))
  {
    total := 0;
    for i := 0 to |expenses|
      invariant total == Sum(Matching(expenses[..i], category))
    {
      var expense := expenses[i];
      MatchingAppend(expenses[..i], expense, category);
      assert expenses[..i + 1] == expenses[..i] + [expense];
      if category == All || expense.category == category {
        SumAppend(Matching(expenses[..i], category), expense);
        total := total + expense.amount;
      } else {
        assert Matching(expenses[..i + 1], category) == Matching(expenses[..i], category);
      }
    }
    assert expenses[..|expenses|] == expenses;
  }

  /** The `'all'` total is the sum of every amount; an empty sheet totals 0 for any category. */
  lemma TotalOfAll(rs: seq<Expense>, category: string)
    ensures Sum(Matching(rs, All)) == Sum(rs)
    ensures Sum(Matching([], category)) == 0
  {
    MatchingAll(rs);
  }

  predicate NoDuplicates(xs: seq<string>)
  {
    forall i, j :: 0 <= i < j < |xs| ==> xs[i] != xs[j]
  }

  /**
   * `[...new Set(expenses.map(e => e.category))]`: each category once, in the order of its
   * first occurrence. Every record's category is listed and every listed category occurs.
   */
  function DistinctCategories(rs: seq<Expense>): (cats: seq<string>)
    ensures NoDuplicates(cats)
    ensures forall i :: 0 <= i < |rs| ==> rs[i].category in cats
    ensures forall c :: c in cats ==> exists i :: 0 <= i < |rs| && rs[i].category == c
  {
    if |rs| == 0 then []
    else
      var prefix := rs[..|rs| - 1];
      var seen := DistinctCategories(prefix);
      var c := rs[|rs| - 1].category;
      assert forall i :: 0 <= i < |rs| - 1 ==> rs[i] == prefix[i];
      if c in seen then seen else seen + [c]
  }

  /** Whether every record of category `later` is preceded by a record of category `earlier`. */
  ghost predicate FirstSeenBefore(rs: seq<Expense>, earlier: string, later: string)
  {
    forall q :: 0 <= q < |rs| && rs[q].category == later ==>
      exists p :: 0 <= p < q && rs[p].category == earlier
  }

  /** Appending a record keeps an established order of first occurrences. */
  lemma FirstSeenBeforeExtend(prefix: seq<Expense>, x: Expense, earlier: string, later: string)
    requires FirstSeenBefore(prefix, earlier, later)
    requires exists k :: 0 <= k < |prefix| && prefix[k].category == earlier
    ensures FirstSeenBefore(prefix + [x], earlier, later)
  {
    var rs := prefix + [x];
    var k :| 0 <= k < |prefix| && prefix[k].category == earlier;
    forall q | 0 <= q < |rs| && rs[q].category == later
      ensures exists p :: 0 <= p < q && rs[p].category == earlier
    {
      if q < |prefix| {
        assert prefix[q] == rs[q];
        var p :| 0 <= p < q && prefix[p].category == earlier;
        assert rs[p] == prefix[p];
      } else {
        assert rs[k] == prefix[k];
      }
    }
  }

  /** A category first seen in the appended record comes after every category already seen. */
  lemma FirstSeenBeforeNew(prefix: seq<Expense>, x: Expense, earlier: string)
    requires exists k :: 0 <= k < |prefix| && prefix[k].category == earlier
    requires forall k :: 0 <= k < |prefix| ==> prefix[k].category != x.category
    ensures FirstSeenBefore(prefix + [x], earlier, x.category)
  {
    var rs := prefix + [x];
    var k :| 0 <= k < |prefix| && prefix[k].category == earlier;
    forall q | 0 <= q < |rs| && rs[q].category == x.category
      ensures exists p :: 0 <= p < q && rs[p].category == earlier
    {
      if q < |prefix| {
        assert false;
      }
      assert rs[k] == prefix[k];
    }
  }

  /** The distinct categories are listed in the order in which they first occur. */
  lemma {:induction false} DistinctInFirstOccurrenceOrder(rs: seq<Expense>)
    ensures forall i, j :: 0 <= i < j < |DistinctCategories(rs)| ==>
      FirstSeenBefore(rs, DistinctCategories(rs)[i], DistinctCategories(rs)[j])
  {
    if |rs| > 0 {
      var prefix := rs[..|rs| - 1];
      var x := rs[|rs| - 1];
      assert rs == prefix + [x];
      var seen := DistinctCategories(prefix);
      var cats := DistinctCategories(rs);
      DistinctInFirstOccurrenceOrder(prefix);
      assert cats == if x.category in seen then seen else seen + [x.category];
      forall i, j | 0 <= i < j < |cats| ensures FirstSeenBefore(rs, cats[i], cats[j]) {
        assert cats[i] == seen[i] && seen[i] in seen;
        if j < |seen| {
          assert cats[j] == seen[j];
          FirstSeenBeforeExtend(prefix, x, seen[i], seen[j]);
        } else {
          FirstSeenBeforeNew(prefix, x, seen[i]);
        }
      }
    }
  }

  /** The per-category lines for `cats` (category `'all'` is skipped), in the order of `cats`. */
  function Lines(cats: seq<string>, rs: seq<Expense>): (ls: seq<Line>)
    ensures |ls| <= |cats|
    ensures forall l :: l in ls ==> l.category in cats && l.category != All
  {
    if |cats| == 0 then []
    else
      var c := cats[|cats| - 1];
      Lines(cats[..|cats| - 1], rs) + (if c != All then [Line(c, Sum(Matching(rs, c)))] else [])
  }

  /** The breakdown `/stats` reports for a sheet. */
  function Breakdown(rs: seq<Expense>): (ls: seq<Line>)
    ensures forall l :: l in ls ==>
      l.category != All && l.total == Sum(Matching(rs, l.category)) &&
      exists i :: 0 <= i < |rs| && rs[i].category == l.category
    ensures forall i :: 0 <= i < |rs| && rs[i].category != All ==>
      Line(rs[i].category, Sum(Matching(rs, rs[i].category))) in ls
  {
    LinesDescribeCategories(DistinctCategories(rs), rs);
    Lines(DistinctCategories(rs), rs)
  }

  /** Sum of the totals of `lines`. */
  function LinesTotal(lines: seq<Line>): int
  {
    if |lines| == 0 then 0 else LinesTotal(lines[..|lines| - 1]) + lines[|lines| - 1].total
  }

  /** The lines of one more category of the list: that category's line follows, unless it is `'all'`. */
  lemma LinesStep(cats: seq<string>, i: nat, rs: seq<Expense>)
    requires i < |cats|
    ensures Lines(cats[..i + 1], rs)
         == Lines(cats[..i], rs) + (if cats[i] != All then [Line(cats[i], Sum(Matching(rs, cats[i])))] else [])
  {
    assert cats[..i + 1][..i] == cats[..i];
  }

  /**
   * The computation of the `/stats` handler: the `'all'` total, then one total per distinct
   * category other than `'all'`.
   */
  method Statistics(expenses: seq<Expense>) returns (report: Report)
    ensures report.total == Sum(expenses)
    ensures report.lines == Breakdown(expenses)
  {
    var totalAll := CalculateTotal(expenses, All);
    MatchingAll(expenses);
    var categories := DistinctCategories(expenses);
    var lines: seq<Line> := [];
    for i := 0 to |categories|
      invariant lines == Lines(categories[..i], expenses)
    {
      var category := categories[i];
      LinesStep(categories, i, expenses);
      if category != All {
        var totalCategory := CalculateTotal(expenses, category);
        lines := lines + [Line(category, totalCategory)];
      }
    }
    assert categories[..|categories|] == categories;
    report := Report(totalAll, lines);
  }

  /** Every line names a distinct category of the sheet other than `'all'`, with its exact total. */
  lemma {:induction false} LinesDescribeCategories(cats: seq<string>, rs: seq<Expense>)
    ensures forall l :: l in Lines(cats, rs) ==>
      l.category in cats && l.category != All && l.total == Sum(Matching(rs, l.category))
    ensures forall c :: c in cats && c != All ==> Line(c, Sum(Matching(rs, c))) in Lines(cats, rs)
    ensures |Lines(cats, rs)| <= |cats|
  {
    if |cats| > 0 {
      LinesDescribeCategories(cats[..|cats| - 1], rs);
      assert cats == cats[..|cats| - 1] + [cats[|cats| - 1]];
    }
  }

  /** Extending the category list by one adds that category's line total, unless it is `'all'`. */
  lemma LinesTotalSnoc(cats: seq<string>, c: string, rs: seq<Expense>)
    ensures LinesTotal(Lines(cats + [c], rs))
         == LinesTotal(Lines(cats, rs)) + (if c != All then Sum(Matching(rs, c)) else 0)
  {
    assert (cats + [c])[..|cats|] == cats;
    var before := Lines(cats, rs);
    if c != All {
      var line := Line(c, Sum(Matching(rs, c)));
      assert Lines(cats + [c], rs) == before + [line];
      assert (before + [line])[..|before|] == before;
    } else {
      assert Lines(cats + [c], rs) == before + [];
      assert before + [] == before;
    }
  }

  /**
   * Adding one record to the sheet adds its amount to the line of its category, if that category
   * is listed and is not `'all'`.
   */
  lemma {:induction false} LinesTotalAppend(cats: seq<string>, rs: seq<Expense>, e: Expense)
    requires NoDuplicates(cats)
    ensures LinesTotal(Lines(cats, rs + [e]))
         == LinesTotal(Lines(cats, rs)) + (if e.category in cats && e.category != All then e.amount else 0)
  {
    if |cats| > 0 {
      var init := cats[..|cats| - 1];
      var c := cats[|cats| - 1];
      assert cats == init + [c];
      assert NoDuplicates(init) && c !in init;
      LinesTotalAppend(init, rs, e);
      if c != All {
        SumMatchingAppend(rs, e, c);
      }
      LinesTotalSnoc(init, c, rs);
      LinesTotalSnoc(init, c, rs + [e]);
      assert e.category in cats <==> e.category in init || e.category == c;
    }
  }

  /** For a real category, appending a record adds its amount exactly when the category matches. */
  lemma SumMatchingAppend(rs: seq<Expense>, e: Expense, c: string)
    requires c != All
    ensures Sum(Matching(rs + [e], c)) == Sum(Matching(rs, c)) + (if e.category == c then e.amount else 0)
  {
    MatchingAppend(rs, e, c);
    if e.category == c {
      SumAppend(Matching(rs, c), e);
    } else {
      assert Matching(rs + [e], c) == Matching(rs, c) + [];
      assert Matching(rs, c) + [] == Matching(rs, c);
    }
  }

  /** The records filed under the literal category `'all'`, in their original order. */
  function FiledUnderAll(rs: seq<Expense>): (r: seq<Expense>)
    ensures forall e :: e in r <==> e in rs && e.category == All
  {
    if |rs| == 0 then []
    else
      var last := rs[|rs| - 1];
      assert rs == rs[..|rs| - 1] + [last];
      FiledUnderAll(rs[..|rs| - 1]) + (if last.category == All then [last] else [])
  }

  /** Without a record of category `'all'` nothing is filed under it. */
  lemma {:induction false} NothingFiledUnderAll(rs: seq<Expense>)
    requires forall i :: 0 <= i < |rs| ==> rs[i].category != All
    ensures FiledUnderAll(rs) == []
  {
    if |rs| > 0 {
      var prefix := rs[..|rs| - 1];
      assert forall i :: 0 <= i < |prefix| ==> prefix[i] == rs[i];
      NothingFiledUnderAll(prefix);
    }
  }

  /**
   * Lines over distinct categories that cover every record add up to the sheet's sum, less the
   * amounts filed under `'all'`, which get no line.
   */
  lemma {:induction false} LinesCoverSum(cats: seq<string>, rs: seq<Expense>)
    requires NoDuplicates(cats)
    requires forall i :: 0 <= i < |rs| ==> rs[i].category in cats
    ensures LinesTotal(Lines(cats, rs)) + Sum(FiledUnderAll(rs)) == Sum(rs)
  {
    if |rs| == 0 {
      LinesOfEmptySheet(cats);
    } else {
      var prefix := rs[..|rs| - 1];
      var e := rs[|rs| - 1];
      assert rs == prefix + [e];
      assert forall i :: 0 <= i < |prefix| ==> prefix[i] == rs[i];
      LinesCoverSum(cats, prefix);
      LinesTotalAppend(cats, prefix, e);
      var filed := FiledUnderAll(prefix);
      if e.category == All {
        assert FiledUnderAll(rs) == filed + [e];
        SumAppend(filed, e);
      } else {
        assert FiledUnderAll(rs) == filed + [];
        assert filed + [] == filed;
      }
      SumAppend(prefix, e);
    }
  }

  /** On an empty sheet every line totals 0. */
  lemma {:induction false} LinesOfEmptySheet(cats: seq<string>)
    ensures LinesTotal(Lines(cats, [])) == 0
  {
    if |cats| > 0 {
      LinesOfEmptySheet(cats[..|cats| - 1]);
      var c := cats[|cats| - 1];
      assert cats == cats[..|cats| - 1] + [c];
      LinesTotalSnoc(cats[..|cats| - 1], c, []);
      assert Matching([], c) == [];
    }
  }

  /**
   * The per-category lines of `/stats` add up to its overall total less the amounts filed under
   * the literal category `'all'`: such a record counts in the total but gets no line.
   */
  lemma BreakdownPlusFiledUnderAll(rs: seq<Expense>)
    ensures LinesTotal(Breakdown(rs)) + Sum(FiledUnderAll(rs)) == Sum(Matching(rs, All))
  {
    MatchingAll(rs);
    LinesCoverSum(DistinctCategories(rs), rs);
  }

  /** When no record's category is literally `'all'`, the lines add up to the overall total. */
  lemma BreakdownAddsUpToTotal(rs: seq<Expense>)
    requires forall i :: 0 <= i < |rs| ==> rs[i].category != All
    ensures LinesTotal(Breakdown(rs)) == Sum(Matching(rs, All))
  {
    BreakdownPlusFiledUnderAll(rs);
    NothingFiledUnderAll(rs);
  }
}
