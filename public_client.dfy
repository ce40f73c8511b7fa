/**
 * src/public_client.go: the client of one tenant's public account.  Modelled
 * here: the webhook entry `ListenMessage`, the date-range splitter behind the
 * user statistics, the per-window concatenation of the statistics requests,
 * and the aggregation of `GetUserStatistics`.
 *
 * Instants and durations are whole Unix seconds (Go's `time.Time` and
 * `time.Duration` are nanoseconds; the arithmetic is the same).  The calendar
 * step "midnight of the day before now" is the parameter `yesterday`.
 */
module Public {
  import opened Errors
  import opened Storage
  import opened Replies
  import opened Dispatch

  const OneDay := 24 * 60 * 60
  const OneWeek := 7 * OneDay
  const FiveWeeks := 5 * OneWeek

  datatype DateTimeRange = DateTimeRange(beginDate: int, endDate: int)

  // ---------------------------------------------------------------------------
  // splitDateTimeRange.

  /**
   * The range after normalisation: ordered, its end no later than yesterday,
   * at least one day long, then cut to at most `maxRange`.
   */
  function Normalize(begin: int, end: int, yesterday: int, maxRange: int): (r: DateTimeRange)
  {
    var (b0, e0) := if begin > end then (end, begin) else (begin, end);
    var e1 := if e0 > yesterday then yesterday else e0;
    var b1 := if e1 - b0 < OneDay then e1 - OneDay else b0;
    var e2 := if e1 - b1 > maxRange then b1 + maxRange else e1;
    DateTimeRange(b1, e2)
  }

  /** The order of the two instants does not matter. */
  lemma NormalizeIgnoresOrder(begin: int, end: int, yesterday: int, maxRange: int)
    ensures Normalize(begin, end, yesterday, maxRange) == Normalize(end, begin, yesterday, maxRange)
  {
  }

  /** Each normalisation step, stated on the later and earlier of the two instants. */
  lemma NormalizeSteps(begin: int, end: int, yesterday: int, maxRange: int)
    ensures var r := Normalize(begin, end, yesterday, maxRange);
      var lo := if begin <= end then begin else end;
      var hi := if begin <= end then end else begin;
      var clamped := if hi > yesterday then yesterday else hi;
      && r.endDate <= clamped
      && (clamped - lo >= OneDay ==> r.beginDate == lo)
      && (clamped - lo < OneDay ==> r.beginDate == clamped - OneDay)
      && (clamped - r.beginDate <= maxRange ==> r.endDate == clamped)
      && (clamped - r.beginDate > maxRange ==> r.endDate == r.beginDate + maxRange)
      && r.endDate - r.beginDate <= maxRange
      && (maxRange >= OneDay ==> r.endDate - r.beginDate >= OneDay)
  {
  }

  /** The windows of [b, e): `split` long each, the last one possibly shorter. */
  function Windows(b: int, e: int, split: int): (r: seq<DateTimeRange>)
    requires split > 0
    decreases e - b
  {
    if e - b > split then [DateTimeRange(b, b + split)] + Windows(b + split, e, split)
    else if e - b > 0 then [DateTimeRange(b, e)]
    else []
  }

  ghost predicate Contiguous(ws: seq<DateTimeRange>) {
    forall i :: 0 <= i < |ws| - 1 ==> ws[i].endDate == ws[i + 1].beginDate
  }

  ghost predicate Bounded(ws: seq<DateTimeRange>, split: int) {
    forall i :: 0 <= i < |ws| ==> 0 < ws[i].endDate - ws[i].beginDate <= split
  }

  ghost predicate FullButLast(ws: seq<DateTimeRange>, split: int) {
    forall i :: 0 <= i < |ws| - 1 ==> ws[i].endDate - ws[i].beginDate == split
  }

  /** The windows start at the range's beginning and stop at its end; an empty range has none. */
  lemma {:induction false} WindowsEnds(b: int, e: int, split: int)
    requires split > 0
    ensures Windows(b, e, split) == [] <==> e <= b
    ensures Windows(b, e, split) != [] ==>
      Windows(b, e, split)[0].beginDate == b && Windows(b, e, split)[|Windows(b, e, split)| - 1].endDate == e
    decreases e - b
  {
    if e - b > split {
      WindowsEnds(b + split, e, split);
    }
  }

  /** Each window begins where the previous one ended. */
  lemma {:induction false} WindowsContiguous(b: int, e: int, split: int)
    requires split > 0
    ensures Contiguous(Windows(b, e, split))
    decreases e - b
  {
    if e - b > split {
      WindowsContiguous(b + split, e, split);
      WindowsEnds(b + split, e, split);
      var ws := Windows(b, e, split);
      var rest := Windows(b + split, e, split);
      assert ws == [DateTimeRange(b, b + split)] + rest;
      forall i | 1 <= i < |ws| - 1
        ensures ws[i].endDate == ws[i + 1].beginDate
      {
        assert ws[i] == rest[i - 1] && ws[i + 1] == rest[i];
      }
    }
  }

  /** Every window is non-empty and at most `split` long; all but the last are exactly `split` long. */
  lemma {:induction false} WindowsLengths(b: int, e: int, split: int)
    requires split > 0
    ensures Bounded(Windows(b, e, split), split) && FullButLast(Windows(b, e, split), split)
    decreases e - b
  {
    if e - b > split {
      WindowsLengths(b + split, e, split);
      var ws := Windows(b, e, split);
      var rest := Windows(b + split, e, split);
      assert ws == [DateTimeRange(b, b + split)] + rest;
      forall i | 1 <= i < |ws|
        ensures 0 < ws[i].endDate - ws[i].beginDate <= split
        ensures i < |ws| - 1 ==> ws[i].endDate - ws[i].beginDate == split
      {
        assert ws[i] == rest[i - 1];
      }
    }
  }

  /** splitDateTimeRange; `split` must be positive, or the loop never ends. */
  function SplitDateTimeRange(begin: int, end: int, split: int, maxRange: int, yesterday: int): seq<DateTimeRange>
    requires split > 0
  {
    var r := Normalize(begin, end, yesterday, maxRange);
    Windows(r.beginDate, r.endDate, split)
  }

  /**
   * The scenario of src/public_client_test.go: from 2020-11-01 to two months
   * later, split by weeks, at most five weeks, run on 2021-11-01 (so that
   * yesterday is 2021-10-31) gives five one-week windows from the beginning.
   */
  lemma SplitScenario()
    ensures var begin := 1604188800;
      SplitDateTimeRange(begin, 1609459200, OneWeek, FiveWeeks, 1635638400)
      == [DateTimeRange(begin + 0 * OneWeek, begin + 1 * OneWeek),
          DateTimeRange(begin + 1 * OneWeek, begin + 2 * OneWeek),
          DateTimeRange(begin + 2 * OneWeek, begin + 3 * OneWeek),
          DateTimeRange(begin + 3 * OneWeek, begin + 4 * OneWeek),
          DateTimeRange(begin + 4 * OneWeek, begin + 5 * OneWeek)]
  {
    var begin := 1604188800;
    assert Normalize(begin, 1609459200, 1635638400, FiveWeeks) == DateTimeRange(begin, begin + FiveWeeks);
    var end := begin + FiveWeeks;
    assert Windows(begin + 4 * OneWeek, end, OneWeek) == [DateTimeRange(begin + 4 * OneWeek, end)];
    assert Windows(begin + 3 * OneWeek, end, OneWeek)
        == [DateTimeRange(begin + 3 * OneWeek, begin + 4 * OneWeek)] + Windows(begin + 4 * OneWeek, end, OneWeek);
    assert Windows(begin + 2 * OneWeek, end, OneWeek)
        == [DateTimeRange(begin + 2 * OneWeek, begin + 3 * OneWeek)] + Windows(begin + 3 * OneWeek, end, OneWeek);
    assert Windows(begin + 1 * OneWeek, end, OneWeek)
        == [DateTimeRange(begin + 1 * OneWeek, begin + 2 * OneWeek)] + Windows(begin + 2 * OneWeek, end, OneWeek);
    assert Windows(begin, end, OneWeek)
        == [DateTimeRange(begin, begin + 1 * OneWeek)] + Windows(begin + 1 * OneWeek, end, OneWeek);
  }

  /** splitDateTimeRange: normalises the range, then cuts it into windows. */
  method Split(begin: int, end: int, split: int, maxRange: int, yesterday: int) returns (dtrs: seq<DateTimeRange>)
    requires split > 0
    ensures dtrs == SplitDateTimeRange(begin, end, split, maxRange, yesterday)
  {
    var beginDate, endDate := begin, end;
    if beginDate > endDate {
      beginDate, endDate := endDate, beginDate;
    }
    if endDate > yesterday {
      endDate := yesterday;
    }
    if endDate - beginDate < OneDay {
      beginDate := endDate - OneDay;
    }
    if endDate - beginDate > maxRange {
      endDate := beginDate + maxRange;
    }
    assert DateTimeRange(beginDate, endDate) == Normalize(begin, end, yesterday, maxRange);
    dtrs := CutWindows(beginDate, endDate, split);
  }

  /** The loop of splitDateTimeRange. */
  method CutWindows(b: int, e: int, split: int) returns (dtrs: seq<DateTimeRange>)
    requires split > 0
    ensures dtrs == Windows(b, e, split)
  {
    var beginDate := b;
    dtrs := [];
    while true
      invariant dtrs + Windows(beginDate, e, split) == Windows(b, e, split)
      decreases e - beginDate
    {
      var r := e - beginDate;
      if r > split {
        var dtr := DateTimeRange(beginDate, beginDate + split);
        assert Windows(beginDate, e, split) == [dtr] + Windows(beginDate + split, e, split);
        assert dtrs + ([dtr] + Windows(beginDate + split, e, split))
            == (dtrs + [dtr]) + Windows(beginDate + split, e, split);
        dtrs := dtrs + [dtr];
        beginDate := dtr.endDate;
      } else if r > 0 {
        var dtr := DateTimeRange(beginDate, beginDate + r);
        dtrs := dtrs + [dtr];
        beginDate := dtr.endDate;
      } else {
        break;
      }
    }
  }

  // ---------------------------------------------------------------------------
  // The per-window statistics requests of GetUserSummary and GetUserCumulate.

  function Flatten<T>(parts: seq<seq<T>>): seq<T>
  {
    if parts == [] then [] else parts[0] + Flatten(parts[1..])
  }

  /** What each window's request returned, the empty list for a failed one. */
  function Parts<T>(token: string, ws: seq<DateTimeRange>, fetch: (string, int, int) -> Result<seq<T>>): (r: seq<seq<T>>)
    ensures |r| == |ws|
    ensures forall i :: 0 <= i < |ws| && fetch(token, ws[i].beginDate, ws[i].endDate).Ok? ==>
      r[i] == fetch(token, ws[i].beginDate, ws[i].endDate).value
  {
    seq(|ws|, i requires 0 <= i < |ws| =>
      match fetch(token, ws[i].beginDate, ws[i].endDate)
      case Ok(xs) => xs
      case Err(_) => [])
  }

  /**
   * The requests for all windows, in order: the concatenation of every
   * window's list, or the error of the first window that failed.
   */
  function Gather<T>(token: string, ws: seq<DateTimeRange>, fetch: (string, int, int) -> Result<seq<T>>)
    : (r: Result<seq<T>>)
    ensures r.Ok? <==> forall i :: 0 <= i < |ws| ==> fetch(token, ws[i].beginDate, ws[i].endDate).Ok?
    ensures r.Ok? ==> r.value == Flatten(Parts(token, ws, fetch))
    ensures r.Err? ==> exists i :: 0 <= i < |ws| && fetch(token, ws[i].beginDate, ws[i].endDate) == Err(r.error)
                                   && forall j :: 0 <= j < i ==> fetch(token, ws[j].beginDate, ws[j].endDate).Ok?
    decreases |ws|
  {
    if ws == [] then Ok([])
    else match fetch(token, ws[0].beginDate, ws[0].endDate)
      case Err(e) => Err(e)
      case Ok(xs) =>
        var rest := Gather(token, ws[1..], fetch);
        assert forall i :: 1 <= i < |ws| ==> ws[i] == ws[1..][i - 1];
        assert Parts(token, ws, fetch) == [xs] + Parts(token, ws[1..], fetch);
        match rest
        case Err(e) =>
          ghost var i :| 0 <= i < |ws[1..]| && fetch(token, ws[1..][i].beginDate, ws[1..][i].endDate) == Err(e)
            && forall j :: 0 <= j < i ==> fetch(token, ws[1..][j].beginDate, ws[1..][j].endDate).Ok?;
          assert fetch(token, ws[i + 1].beginDate, ws[i + 1].endDate) == Err(e);
          Err(e)
        case Ok(ys) => Ok(xs + ys)
  }

  /** `acc` followed by a successful result; an error stays as it is. */
  function Prepend<T>(acc: seq<T>, r: Result<seq<T>>): Result<seq<T>>
  {
    match r
    case Ok(ys) => Ok(acc + ys)
    case Err(e) => Err(e)
  }

  /** The loop of GetUserSummary and GetUserCumulate over the windows. */
  method CollectWindows<T>(token: string, ws: seq<DateTimeRange>, fetch: (string, int, int) -> Result<seq<T>>)
    returns (r: Result<seq<T>>)
    ensures r == Gather(token, ws, fetch)
  {
    var collected: seq<T> := [];
    var i := 0;
    assert ws[i..] == ws;
    assert forall ys: seq<T> :: collected + ys == ys;
    while i < |ws|
      invariant 0 <= i <= |ws|
      invariant Gather(token, ws, fetch) == Prepend(collected, Gather(token, ws[i..], fetch))
    {
      assert ws[i..][1..] == ws[i + 1..];
      var got := fetch(token, ws[i].beginDate, ws[i].endDate);
      if got.Err? {
        return Err(got.error);
      }
      assert forall ys: seq<T> :: (collected + got.value) + ys == collected + (got.value + ys);
      collected := collected + got.value;
      i := i + 1;
    }
    assert ws[i..] == [];
    assert collected + [] == collected;
    r := Ok(collected);
  }

  // ---------------------------------------------------------------------------
  // GetUserStatistics.

  /** The records the statistics endpoints return (pkg/statistics/user.go). */
  datatype Summary = Summary(refDate: string, userSource: int, newUser: int, cancelUser: int)
  datatype Cumulate = Cumulate(refDate: string, cumulateUser: int)

  /** One day of the aggregated statistics, with the summaries of that day. */
  datatype UserCumulate = UserCumulate(refDate: string, cumulateUser: int, newUser: int, cancelUser: int,
                                       summaries: seq<Summary>)

  datatype UserStatistics = UserStatistics(cumulateUser: int, newUser: int, cancelUser: int,
                                           cumulates: seq<UserCumulate>)

  /** Go's `<` on strings: lexicographic order. */
  predicate LexLess(a: string, b: string)
    decreases |a|
  {
    if a == [] then b != []
    else b != [] && (a[0] < b[0] || (a[0] == b[0] && LexLess(a[1..], b[1..])))
  }

  lemma {:induction false} LexIrreflexive(a: string)
    ensures !LexLess(a, a)
    decreases |a|
  {
    if a != [] {
      LexIrreflexive(a[1..]);
    }
  }

  lemma {:induction false} LexTransitive(a: string, b: string, c: string)
    requires LexLess(a, b) && LexLess(b, c)
    ensures LexLess(a, c)
    decreases |a|
  {
    if a != [] && a[0] == b[0] && b[0] == c[0] {
      LexTransitive(a[1..], b[1..], c[1..]);
    }
  }

  lemma {:induction false} LexTotal(a: string, b: string)
    ensures a == b || LexLess(a, b) || LexLess(b, a)
    decreases |a|
  {
    if a != [] && b != [] && a[0] == b[0] {
      LexTotal(a[1..], b[1..]);
      if a[1..] == b[1..] {
        assert a == [a[0]] + a[1..] && b == [b[0]] + b[1..];
      }
    }
  }

  /**
   * The entry of `cs[..n]` that GetUserStatistics keeps as the latest: a later
   * entry replaces the kept one only when its date is strictly greater.
   */
  function Latest(cs: seq<Cumulate>, n: nat): (m: nat)
    requires 0 < n <= |cs|
    ensures m < n
  {
    if n == 1 then 0
    else
      var m := Latest(cs, n - 1);
      if LexLess(cs[m].refDate, cs[n - 1].refDate) then n - 1 else m
  }

  /** The kept entry has the greatest date of all, and is the first with that date. */
  lemma {:induction false} LatestIsFirstGreatest(cs: seq<Cumulate>, n: nat)
    requires 0 < n <= |cs|
    ensures var m := Latest(cs, n);
      && (forall j :: 0 <= j < n ==> !LexLess(cs[m].refDate, cs[j].refDate))
      && (forall j :: 0 <= j < m ==> LexLess(cs[j].refDate, cs[m].refDate))
  {
    if n == 1 {
      LexIrreflexive(cs[0].refDate);
    } else {
      var k := Latest(cs, n - 1);
      LatestIsFirstGreatest(cs, n - 1);
      if LexLess(cs[k].refDate, cs[n - 1].refDate) {
        forall j | 0 <= j < n
          ensures !LexLess(cs[n - 1].refDate, cs[j].refDate) && (j < n - 1 ==> LexLess(cs[j].refDate, cs[n - 1].refDate))
        {
          if j == n - 1 {
            LexIrreflexive(cs[j].refDate);
          } else {
            LexTotal(cs[j].refDate, cs[k].refDate);
            if cs[j].refDate != cs[k].refDate {
              LexTransitive(cs[j].refDate, cs[k].refDate, cs[n - 1].refDate);
            }
            if LexLess(cs[n - 1].refDate, cs[j].refDate) {
              LexTransitive(cs[j].refDate, cs[n - 1].refDate, cs[j].refDate);
              LexIrreflexive(cs[j].refDate);
            }
          }
        }
      }
    }
  }

  // The per-date sums, over a prefix of the summaries, as the inner loop builds them.

  function NewUsersOn(sums: seq<Summary>, date: string): int
  {
    if sums == [] then 0
    else NewUsersOn(sums[..|sums| - 1], date) + (if sums[|sums| - 1].refDate == date then sums[|sums| - 1].newUser else 0)
  }

  function CancelUsersOn(sums: seq<Summary>, date: string): int
  {
    if sums == [] then 0
    else CancelUsersOn(sums[..|sums| - 1], date) + (if sums[|sums| - 1].refDate == date then sums[|sums| - 1].cancelUser else 0)
  }

  /** The summaries of one date, in their order. */
  function SummariesOn(sums: seq<Summary>, date: string): (r: seq<Summary>)
    ensures |r| <= |sums|
    ensures forall x :: x in r ==> x in sums && x.refDate == date
  {
    if sums == [] then []
    else SummariesOn(sums[..|sums| - 1], date) + (if sums[|sums| - 1].refDate == date then [sums[|sums| - 1]] else [])
  }

  function TotalNew(sums: seq<Summary>): int
  {
    if sums == [] then 0 else TotalNew(sums[..|sums| - 1]) + sums[|sums| - 1].newUser
  }

  function TotalCancel(sums: seq<Summary>): int
  {
    if sums == [] then 0 else TotalCancel(sums[..|sums| - 1]) + sums[|sums| - 1].cancelUser
  }

  lemma {:induction false} TotalsAppend(a: seq<Summary>, x: Summary)
    ensures TotalNew(a + [x]) == TotalNew(a) + x.newUser
    ensures TotalCancel(a + [x]) == TotalCancel(a) + x.cancelUser
  {
    assert (a + [x])[..|a + [x]| - 1] == a;
  }

  /** A date's new users are the total over exactly its summaries. */
  lemma {:induction false} NewUsersOverMatching(sums: seq<Summary>, date: string)
    ensures NewUsersOn(sums, date) == TotalNew(SummariesOn(sums, date))
  {
    if sums != [] {
      var init, last := sums[..|sums| - 1], sums[|sums| - 1];
      NewUsersOverMatching(init, date);
      if last.refDate == date {
        assert SummariesOn(sums, date) == SummariesOn(init, date) + [last];
        TotalsAppend(SummariesOn(init, date), last);
      } else {
        assert SummariesOn(sums, date) == SummariesOn(init, date);
      }
    }
  }

  /** A date's cancelled users are the total over exactly its summaries. */
  lemma {:induction false} CancelUsersOverMatching(sums: seq<Summary>, date: string)
    ensures CancelUsersOn(sums, date) == TotalCancel(SummariesOn(sums, date))
  {
    if sums != [] {
      var init, last := sums[..|sums| - 1], sums[|sums| - 1];
      CancelUsersOverMatching(init, date);
      if last.refDate == date {
        assert SummariesOn(sums, date) == SummariesOn(init, date) + [last];
        TotalsAppend(SummariesOn(init, date), last);
      } else {
        assert SummariesOn(sums, date) == SummariesOn(init, date);
      }
    }
  }

  /** One output day: the cumulate's date and total, with the sums of its summaries. */
  function Aggregated(c: Cumulate, sums: seq<Summary>): UserCumulate
  {
    UserCumulate(c.refDate, c.cumulateUser, NewUsersOn(sums, c.refDate), CancelUsersOn(sums, c.refDate),
                 SummariesOn(sums, c.refDate))
  }

  function DaysNew(cs: seq<Cumulate>, sums: seq<Summary>): int
  {
    if cs == [] then 0 else DaysNew(cs[..|cs| - 1], sums) + NewUsersOn(sums, cs[|cs| - 1].refDate)
  }

  function DaysCancel(cs: seq<Cumulate>, sums: seq<Summary>): int
  {
    if cs == [] then 0 else DaysCancel(cs[..|cs| - 1], sums) + CancelUsersOn(sums, cs[|cs| - 1].refDate)
  }

  /**
   * GetUserStatistics from the two lists: one output day per cumulate, in
   * order; totals over the days; the overall total from the latest day, 0 for
   * no days.
   */
  function Statistics(cs: seq<Cumulate>, sums: seq<Summary>): UserStatistics
  {
    UserStatistics(
      if cs == [] then 0 else cs[Latest(cs, |cs|)].cumulateUser,
      DaysNew(cs, sums), DaysCancel(cs, sums),
      seq(|cs|, i requires 0 <= i < |cs| => Aggregated(cs[i], sums)))
  }

  function OutputNew(days: seq<UserCumulate>): int
  {
    if days == [] then 0 else OutputNew(days[..|days| - 1]) + days[|days| - 1].newUser
  }

  function OutputCancel(days: seq<UserCumulate>): int
  {
    if days == [] then 0 else OutputCancel(days[..|days| - 1]) + days[|days| - 1].cancelUser
  }

  /** The totals are the sums over the output days. */
  lemma {:induction false} StatisticsTotals(cs: seq<Cumulate>, sums: seq<Summary>)
    ensures Statistics(cs, sums).newUser == OutputNew(Statistics(cs, sums).cumulates)
    ensures Statistics(cs, sums).cancelUser == OutputCancel(Statistics(cs, sums).cumulates)
  {
    if cs != [] {
      var init := cs[..|cs| - 1];
      StatisticsTotals(init, sums);
      assert Statistics(cs, sums).cumulates[..|cs| - 1] == Statistics(init, sums).cumulates;
    }
  }

  /** An output day copies its cumulate and sums exactly the summaries of its date. */
  ghost predicate DayOf(d: UserCumulate, c: Cumulate, sums: seq<Summary>) {
    && d.refDate == c.refDate && d.cumulateUser == c.cumulateUser
    && d.newUser == TotalNew(d.summaries) && d.cancelUser == TotalCancel(d.summaries)
    && (forall x :: x in d.summaries ==> x in sums && x.refDate == c.refDate)
  }

  /** One output day per cumulate, in order, each summing the summaries of its date. */
  lemma StatisticsDays(cs: seq<Cumulate>, sums: seq<Summary>)
    ensures |Statistics(cs, sums).cumulates| == |cs|
    ensures forall i :: 0 <= i < |cs| ==> DayOf(Statistics(cs, sums).cumulates[i], cs[i], sums)
  {
    forall i | 0 <= i < |cs|
      ensures DayOf(Statistics(cs, sums).cumulates[i], cs[i], sums)
    {
      NewUsersOverMatching(sums, cs[i].refDate);
      CancelUsersOverMatching(sums, cs[i].refDate);
    }
  }

  /** `cs[m]` has the greatest date, and no earlier entry has that date. */
  ghost predicate FirstGreatest(cs: seq<Cumulate>, m: nat)
    requires m < |cs|
  {
    && (forall j :: 0 <= j < |cs| ==> !LexLess(cs[m].refDate, cs[j].refDate))
    && (forall j :: 0 <= j < m ==> LexLess(cs[j].refDate, cs[m].refDate))
  }

  /** The overall total is that of the greatest date, the first on ties, or 0 without days. */
  lemma StatisticsLatest(cs: seq<Cumulate>, sums: seq<Summary>)
    ensures cs == [] ==> Statistics(cs, sums).cumulateUser == 0
    ensures cs != [] ==> exists m: nat :: m < |cs| && FirstGreatest(cs, m)
                                        && Statistics(cs, sums).cumulateUser == cs[m].cumulateUser
  {
    if cs != [] {
      LatestIsFirstGreatest(cs, |cs|);
      assert FirstGreatest(cs, Latest(cs, |cs|));
    }
  }

  /** The inner loop: one cumulate against all summaries. */
  method AggregateDay(c: Cumulate, sums: seq<Summary>) returns (r: UserCumulate)
    ensures r == Aggregated(c, sums)
  {
    r := UserCumulate(c.refDate, c.cumulateUser, 0, 0, []);
    var j := 0;
    while j < |sums|
      invariant 0 <= j <= |sums|
      invariant r == Aggregated(c, sums[..j])
    {
      assert sums[..j + 1][..j] == sums[..j];
      var summary := sums[j];
      if summary.refDate == r.refDate {
        r := r.(newUser := r.newUser + summary.newUser, cancelUser := r.cancelUser + summary.cancelUser,
                summaries := r.summaries + [summary]);
      }
      j := j + 1;
    }
    assert sums[..j] == sums;
  }

  /** The outer loop of GetUserStatistics, filling the output days by index. */
  method Aggregate(cumulates: seq<Cumulate>, summaries: seq<Summary>) returns (us: UserStatistics)
    ensures us == Statistics(cumulates, summaries)
  {
    var days := new UserCumulate[|cumulates|](_ => UserCumulate("", 0, 0, 0, []));
    var newUser, cancelUser := 0, 0;
    var latest: Option<nat> := None;
    var idx := 0;
    while idx < |cumulates|
      modifies days
      invariant 0 <= idx <= |cumulates|
      invariant forall k :: 0 <= k < idx ==> days[k] == Aggregated(cumulates[k], summaries)
      invariant newUser == DaysNew(cumulates[..idx], summaries)
      invariant cancelUser == DaysCancel(cumulates[..idx], summaries)
      invariant idx == 0 <==> latest.None?
      invariant latest.Some? ==> latest.value == Latest(cumulates, idx)
    {
      assert cumulates[..idx + 1][..idx] == cumulates[..idx];
      var day := AggregateDay(cumulates[idx], summaries);
      days[idx] := day;
      cancelUser := cancelUser + day.cancelUser;
      newUser := newUser + day.newUser;
      match latest {
        case None =>
          latest := Some(idx);
        case Some(m) =>
          if LexLess(cumulates[m].refDate, day.refDate) {
            latest := Some(idx);
          }
      }
      idx := idx + 1;
    }
    assert cumulates[..idx] == cumulates;
    var cumulateUser := match latest case Some(m) => cumulates[m].cumulateUser case None => 0;
    us := UserStatistics(cumulateUser, newUser, cancelUser, days[..]);
  }

  // ---------------------------------------------------------------------------
  // ListenMessage.

  /** A request body read as a server message: its type, its sender and its parses. */
  datatype Incoming = Incoming(msgType: string, fromUser: string, data: MessageData)

  /** The getters ListenMessage hands to the context: the client's app getter and a responder to the sender. */
  function RequestGetters(app: nat -> Result<Option<AuthorizerInfo>>, m: Incoming): Getters
  {
    Getters(app, Some(Sender(m.fromUser)))
  }

  /** The reply writer's state after dispatching `m` on a body holding `before`. */
  function DispatchedWriter(texts: seq<Handler>, events: map<string, seq<Handler>>, app: nat -> Result<Option<AuthorizerInfo>>,
                            m: Incoming, sendFault: Option<string>, before: seq<Chunk>, now: int): WriterState
  {
    var w0 := WriterState(None, before);
    match TriggerOutcome(texts, events, m.msgType, m.data, RequestGetters(app, m), sendFault, w0, now).1
    case Some(ctx) => ctx.writer
    case None => w0
  }

  /**
   * ListenMessage: the body it leaves, given the echo string of the signature
   * check and the outcome of reading the message.  An echo is written back and
   * nothing is dispatched; an unreadable message writes nothing; otherwise the
   * message is dispatched and, if no handler took the reply slot, an empty
   * body is written.
   */
  function ListenOutcome(texts: seq<Handler>, events: map<string, seq<Handler>>, app: nat -> Result<Option<AuthorizerInfo>>,
                         echo: string, incoming: Result<Incoming>, sendFault: Option<string>, before: seq<Chunk>, now: int)
    : seq<Chunk>
  {
    if echo != "" then before + [Plain(echo)]
    else match incoming
      case Err(_) => before
      case Ok(m) =>
        var w := DispatchedWriter(texts, events, app, m, sendFault, before, now);
        if w.history.None? then w.body + [Plain("")] else w.body
  }

  lemma EchoSkipsDispatch(texts: seq<Handler>, events: map<string, seq<Handler>>, app: nat -> Result<Option<AuthorizerInfo>>,
                          echo: string, incoming: Result<Incoming>, sendFault: Option<string>, before: seq<Chunk>, now: int)
    requires echo != ""
    ensures ListenOutcome(texts, events, app, echo, incoming, sendFault, before, now) == before + [Plain(echo)]
  {
  }

  /**
   * After dispatch the body carries exactly one thing: the empty body when no
   * handler replied, else the one reply kept (nothing if sending it failed).
   */
  lemma ListenAnswersOnce(texts: seq<Handler>, events: map<string, seq<Handler>>, app: nat -> Result<Option<AuthorizerInfo>>,
                          m: Incoming, sendFault: Option<string>, before: seq<Chunk>, now: int)
    ensures var kept := DispatchedWriter(texts, events, app, m, sendFault, before, now).history;
      ListenOutcome(texts, events, app, "", Ok(m), sendFault, before, now)
      == before + (match kept
                   case None => [Plain("")]
                   case Some(reply) => if sendFault.None? then [Encrypted(reply)] else [])
  {
    TriggerAnswersOnce(texts, events, m.msgType, m.data, RequestGetters(app, m), sendFault, before,
                       WriterState(None, before), now);
  }

  /** The public client of one tenant. */
  class PublicClient {
    const dispatcher: Dispatcher
    const appGetter: nat -> Result<Option<AuthorizerInfo>>
    const msgVerifyToken: string
    /** What the access-token getter returns. */
    const token: Result<string>
    /** The platform's answers to the user-summary and user-cumulate requests. */
    const summaryApi: (string, int, int) -> Result<seq<Summary>>
    const cumulateApi: (string, int, int) -> Result<seq<Cumulate>>

    constructor (dispatcher: Dispatcher, appGetter: nat -> Result<Option<AuthorizerInfo>>, msgVerifyToken: string,
                 token: Result<string>, summaryApi: (string, int, int) -> Result<seq<Summary>>,
                 cumulateApi: (string, int, int) -> Result<seq<Cumulate>>)
      ensures this.dispatcher == dispatcher && this.appGetter == appGetter && this.msgVerifyToken == msgVerifyToken
      ensures this.token == token && this.summaryApi == summaryApi && this.cumulateApi == cumulateApi
    {
      this.dispatcher := dispatcher;
      this.appGetter := appGetter;
      this.msgVerifyToken := msgVerifyToken;
      this.token := token;
      this.summaryApi := summaryApi;
      this.cumulateApi := cumulateApi;
    }

    /** `echo` and `incoming` are the outcomes of the signature check and of reading the message. */
    method ListenMessage(echo: string, incoming: Result<Incoming>, sendFault: Option<string>, body: ResponseBody, now: int)
      modifies body
      ensures body.written == ListenOutcome(dispatcher.textMsgHandlers, dispatcher.eventHandlers, appGetter,
                                            echo, incoming, sendFault, old(body.written), now)
    {
      if echo != "" {
        body.Write(Plain(echo));
        return;
      }
      if incoming.Err? {
        return;
      }
      var m := incoming.value;
      var writer := new ResponseWriter(body, sendFault);
      var _, _ := dispatcher.Trigger(m.msgType, m.data, RequestGetters(appGetter, m), writer, now);
      if writer.history.None? {
        body.Write(Plain(""));
      }
    }

    method GetUserSummary(begin: int, end: int, yesterday: int) returns (r: Result<seq<Summary>>)
      ensures token.Err? ==> r == Err(token.error)
      ensures token.Ok? ==> r == Gather(token.value, SplitDateTimeRange(begin, end, OneWeek, FiveWeeks, yesterday), summaryApi)
    {
      if token.Err? {
        return Err(token.error);
      }
      var ranges := Split(begin, end, OneWeek, FiveWeeks, yesterday);
      r := CollectWindows(token.value, ranges, summaryApi);
    }

    method GetUserCumulate(begin: int, end: int, yesterday: int) returns (r: Result<seq<Cumulate>>)
      ensures token.Err? ==> r == Err(token.error)
      ensures token.Ok? ==> r == Gather(token.value, SplitDateTimeRange(begin, end, OneWeek, FiveWeeks, yesterday), cumulateApi)
    {
      if token.Err? {
        return Err(token.error);
      }
      var ranges := Split(begin, end, OneWeek, FiveWeeks, yesterday);
      r := CollectWindows(token.value, ranges, cumulateApi);
    }

    method GetUserStatistics(begin: int, end: int, yesterday: int) returns (r: Result<UserStatistics>)
      ensures token.Err? ==> r == Err(token.error)
      ensures token.Ok? ==>
        var ws := SplitDateTimeRange(begin, end, OneWeek, FiveWeeks, yesterday);
        match Gather(token.value, ws, summaryApi)
        case Err(e) => r == Err(e)
        case Ok(sums) =>
          match Gather(token.value, ws, cumulateApi)
          case Err(e) => r == Err(e)
          case Ok(cs) => r == Ok(Statistics(cs, sums))
    {
      var summaries := GetUserSummary(begin, end, yesterday);
      if summaries.Err? {
        return Err(summaries.error);
      }
      var cumulates := GetUserCumulate(begin, end, yesterday);
      if cumulates.Err? {
        return Err(cumulates.error);
      }
      var us := Aggregate(cumulates.value, summaries.value);
      r := Ok(us);
    }
  }
}
