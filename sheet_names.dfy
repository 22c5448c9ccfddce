/**
 * Sheet-name (monthly partition key) derivation of the expense bot.
 *
 * Three spellings exist in the bot:
 *  - `/add` derives the key from a `dd-mm-yyyy` date, zero-padding the month;
 *  - `/stats` derives it from `mm-yyyy`, zero-padding the month the same way;
 *  - `/view` and `/delete` prepend `T` to the raw text, without padding.
 * The lemmas below show where they agree and where they do not.
 */
module SheetNames {
  import opened Wrappers

  const Dash: char := '-'

  /** JavaScript's rendering of the `undefined` value inside a template literal. */
  const Undefined: string := "undefined"

  /** Inverse of `Split`: the parts glued back together with `sep` between them. */
  function Join(parts: seq<string>, sep: char): string
    requires |parts| >= 1
  {
    if |parts| == 1 then parts[0] else parts[0] + [sep] + Join(parts[1..], sep)
  }

  /** `String.prototype.split` with a one-character separator. */
  function Split(s: string, sep: char): (parts: seq<string>)
    ensures |parts| >= 1
    decreases |s|
  {
    if |s| == 0 then [""]
    else
      var rest := Split(s[1..], sep);
      if s[0] == sep then [""] + rest
      else [[s[0]] + rest[0]] + rest[1..]
  }

  /** No part of a split contains the separator. */
  lemma {:induction false} SplitPartsHaveNoSeparator(s: string, sep: char)
    ensures forall i :: 0 <= i < |Split(s, sep)| ==> sep !in Split(s, sep)[i]
    decreases |s|
  {
    if |s| > 0 {
      SplitPartsHaveNoSeparator(s[1..], sep);
      var rest := Split(s[1..], sep);
      if s[0] != sep {
        var parts := [[s[0]] + rest[0]] + rest[1..];
        assert Split(s, sep) == parts;
        assert forall i :: 1 <= i < |parts| ==> parts[i] == rest[i];
      }
    }
  }

  /** A split has a single part exactly when the input has no separator. */
  lemma {:induction false} SplitIsSingleIff(s: string, sep: char)
    ensures |Split(s, sep)| == 1 <==> sep !in s
    decreases |s|
  {
    if |s| > 0 {
      SplitIsSingleIff(s[1..], sep);
      assert s == [s[0]] + s[1..];
      assert sep in s <==> s[0] == sep || sep in s[1..];
    }
  }

  /** Joining the parts of a split gives the input back. */
  lemma {:induction false} JoinSplit(s: string, sep: char)
    ensures Join(Split(s, sep), sep) == s
    decreases |s|
  {
    if |s| > 0 {
      JoinSplit(s[1..], sep);
      var rest := Split(s[1..], sep);
      assert s == [s[0]] + s[1..];
      if s[0] == sep {
        assert Split(s, sep) == [""] + rest;
        assert ([""] + rest)[1..] == rest;
      } else {
        var parts := [[s[0]] + rest[0]] + rest[1..];
        assert Split(s, sep) == parts;
        assert parts[1..] == rest[1..];
        if |rest| > 1 {
          assert Join(rest, sep) == rest[0] + [sep] + Join(rest[1..], sep);
        }
      }
    }
  }

  /** Text without the separator splits into itself alone. */
  lemma {:induction false} SplitOfSeparatorFree(s: string, sep: char)
    requires sep !in s
    ensures Split(s, sep) == [s]
  {
    SplitIsSingleIff(s, sep);
    JoinSplit(s, sep);
  }

  /** Splitting a join of separator-free parts gives the parts back. */
  lemma {:induction false} SplitJoin(parts: seq<string>, sep: char)
    requires |parts| >= 1
    requires forall i :: 0 <= i < |parts| ==> sep !in parts[i]
    ensures Split(Join(parts, sep), sep) == parts
    decreases |parts|
  {
    if |parts| > 1 {
      SplitJoin(parts[1..], sep);
      SplitAfterPrefix(parts[0], sep, Join(parts[1..], sep));
      assert parts == [parts[0]] + parts[1..];
    } else {
      SplitOfSeparatorFree(parts[0], sep);
    }
  }

  /** A separator-free prefix followed by the separator becomes exactly one leading part. */
  lemma {:induction false} SplitAfterPrefix(d: string, sep: char, t: string)
    requires sep !in d
    ensures Split(d + [sep] + t, sep) == [d] + Split(t, sep)
    decreases |d|
  {
    var s := d + [sep] + t;
    if |d| == 0 {
      assert s[0] == sep && s[1..] == t;
    } else {
      assert s[0] == d[0] && s[1..] == d[1..] + [sep] + t;
      var rest := Split(s[1..], sep);
      SplitAfterPrefix(d[1..], sep, t);
      assert rest == [d[1..]] + Split(t, sep);
      assert Split(s, sep) == [[d[0]] + rest[0]] + rest[1..];
      assert rest[1..] == Split(t, sep);
      assert [d[0]] + d[1..] == d;
    }
  }

  /**
   * `String.prototype.padStart(n, fill)` with a one-character fill: the result has length
   * max(|s|, n), ends with `s`, and everything before `s` is `fill`.
   */
  function PadStart(s: string, n: nat, fill: char): (r: string)
    ensures |r| == if |s| >= n then |s| else n
    ensures r[|r| - |s|..] == s
    ensures forall i :: 0 <= i < |r| - |s| ==> r[i] == fill
    decreases n - |s|
  {
    if |s| >= n then s else PadStart([fill] + s, n, fill)
  }

  /** A destructured element of `parts` as a template literal renders it. */
  function Rendered(parts: seq<string>, i: nat): string
  {
    if i < |parts| then parts[i] else Undefined
  }

  /** The month as both key derivations print it: at least two characters, `'0'`-padded. */
  function PaddedMonth(month: string): string
  {
    PadStart(month, 2, '0')
  }

  /**
   * `getSheetNameFromDate`: `const [day, month, year] = date.split('-')`, then
   * `T${month.padStart(2, '0')}-${year}`. Without any dash `month` is `undefined`
   * and calling `padStart` on it throws: `None`.
   */
  function SheetNameFromDate(date: string): (r: Option<string>)
    ensures r.None? <==> Dash !in date
    ensures r.Some? ==> |r.value| >= 4 && r.value[0] == 'T'
  {
    SplitIsSingleIff(date, Dash);
    var parts := Split(date, Dash);
    if |parts| < 2 then None
    else Some("T" + PaddedMonth(parts[1]) + "-" + Rendered(parts, 2))
  }

  /**
   * The `/stats` key: `const [month, year] = text.split('-')`, then `T${padded month}-${year}`.
   * Text without a dash is all month, and the year prints as `undefined`.
   */
  function StatsSheetName(text: string): (r: string)
    ensures |r| >= 4 && r[0] == 'T'
    ensures Dash !in text ==> r == "T" + PaddedMonth(text) + "-" + Undefined
  {
    SplitIsSingleIff(text, Dash);
    JoinSplit(text, Dash);
    var parts := Split(text, Dash);
    "T" + PaddedMonth(parts[0]) + "-" + Rendered(parts, 1)
  }

  /** The `/view` and `/delete` key: `T` followed by the raw text. */
  function RawSheetName(text: string): (r: string)
    ensures |r| == |text| + 1 && r[0] == 'T' && r[1..] == text
  {
    "T" + text
  }

  /** A month already two or more characters long is kept unchanged by the padding. */
  lemma PaddedMonthKeepsLongMonth(month: string)
    requires |month| >= 2
    ensures PaddedMonth(month) == month
  {
    var r := PadStart(month, 2, '0');
    assert r == r[|r| - |month|..];
  }

  /** A date of the form day-month-rest gives `T` + padded month + `-` + the first part of rest. */
  lemma DateKeyShape(day: string, month: string, rest: string)
    requires Dash !in day && Dash !in month
    ensures SheetNameFromDate(day + "-" + month + "-" + rest)
         == Some("T" + PadStart(month, 2, '0') + "-" + Split(rest, Dash)[0])
  {
    var tail := month + [Dash] + rest;
    var date := day + [Dash] + tail;
    assert "-" == [Dash];
    assert day + "-" + month + "-" + rest == date;
    SplitAfterPrefix(month, Dash, rest);
    SplitAfterPrefix(day, Dash, tail);
    var parts := Split(date, Dash);
    assert parts == [day] + ([month] + Split(rest, Dash));
    assert parts[1] == month && |parts| >= 3 && parts[2] == Split(rest, Dash)[0];
    assert SheetNameFromDate(date) == Some("T" + PaddedMonth(month) + "-" + parts[2]);
  }

  /** For a dash-free day, month and year the key is `T` + padded month + `-` + year. */
  lemma DateKeyOfThreeFields(day: string, month: string, year: string)
    requires Dash !in day && Dash !in month && Dash !in year
    ensures SheetNameFromDate(day + "-" + month + "-" + year)
         == Some("T" + PadStart(month, 2, '0') + "-" + year)
  {
    DateKeyShape(day, month, year);
    SplitOfSeparatorFree(year, Dash);
  }

  /** The day never influences the key. */
  lemma DayIsIgnored(day1: string, day2: string, rest: string)
    requires Dash !in day1 && Dash !in day2
    ensures SheetNameFromDate(day1 + "-" + rest) == SheetNameFromDate(day2 + "-" + rest)
  {
    SplitAfterPrefix(day1, Dash, rest);
    SplitAfterPrefix(day2, Dash, rest);
  }

  /**
   * The sheet `/add` writes for a date `day-t` is the sheet `/stats` reads for `t`, whatever `t`
   * is (including the `undefined` year when `t` has no dash).
   */
  lemma {:induction false} AddKeyMatchesStatsKey(day: string, t: string)
    requires Dash !in day
    ensures SheetNameFromDate(day + "-" + t) == Some(StatsSheetName(t))
  {
    SplitAfterPrefix(day, Dash, t);
    var p := Split(t, Dash);
    assert Split(day + "-" + t, Dash) == [day] + p;
    assert Rendered([day] + p, 2) == Rendered(p, 1);
  }

  /**
   * The `/view` and `/delete` key of `month-year` equals the `/stats` key exactly when the
   * month already has two or more characters.
   */
  lemma {:induction false} RawKeyMatchesStatsKeyIff(month: string, year: string)
    requires Dash !in month && Dash !in year
    ensures RawSheetName(month + "-" + year) == StatsSheetName(month + "-" + year) <==> |month| >= 2
  {
    SplitAfterPrefix(month, Dash, year);
    SplitOfSeparatorFree(year, Dash);
    assert Split(month + "-" + year, Dash) == [month, year];
    var padded := PadStart(month, 2, '0');
    if |month| >= 2 {
      assert padded == padded[|padded| - |month|..] == month;
    } else {
      assert |RawSheetName(month + "-" + year)| != |StatsSheetName(month + "-" + year)|;
    }
  }

  /** A one-character month gains one leading `'0'`. */
  lemma {:induction false} PaddedSingleCharMonth(c: char)
    ensures PaddedMonth([c]) == ['0', c]
  {
    assert PadStart([c], 2, '0') == PadStart(['0'] + [c], 2, '0');
    assert ['0'] + [c] == ['0', c];
  }

  /**
   * A one-character month is zero-padded in the `/add` key: `5-3-2024` is stored under
   * `T03-2024`, the sheet `/stats 3-2024` reads.
   */
  lemma {:induction false} SingleCharMonthKey(day: string, month: char, year: string)
    requires Dash !in day && month != Dash && Dash !in year
    ensures SheetNameFromDate(day + "-" + [month] + "-" + year) == Some("T" + ['0', month] + "-" + year)
  {
    DateKeyOfThreeFields(day, [month], year);
    PaddedSingleCharMonth(month);
  }

  /**
   * A one-character month is zero-padded in the `/stats` key and kept as typed in the `/view` and
   * `/delete` key: `/stats 3-2024` reads `T03-2024`, `/view 3-2024` reads `T3-2024`.
   */
  lemma {:induction false} SingleCharMonthStatsKey(month: char, year: string)
    requires month != Dash && Dash !in year
    ensures StatsSheetName([month] + "-" + year) == "T" + ['0', month] + "-" + year
    ensures RawSheetName([month] + "-" + year) == "T" + [month] + "-" + year
  {
    SplitAfterPrefix([month], Dash, year);
    SplitOfSeparatorFree(year, Dash);
    assert Split([month] + "-" + year, Dash) == [[month], year];
    PaddedSingleCharMonth(month);
  }
}
