/** The data pipeline of `TypingDataProcessor` (lib/data_processor.py): sort the sessions,
    average them per calendar date, lay the averages on a contiguous daily axis with linear
    gap filling, and add centred 7-day and 30-day rolling means. */
module DataProcessor {
  import opened Wrappers
  import opened Numeric
  import opened Constants

  const SECONDS_PER_DAY: int := 86400

  /** One typing session: the "Date/Time (UTC)" column as whole seconds since the epoch,
      and the "WPM" column. */
  datatype Session = Session(timestamp: int, wpm: real)

  /** The "WPM" column of a list of sessions. */
  function Wpms(rows: seq<Session>): (column: seq<real>)
    ensures |column| == |rows|
    ensures forall i :: 0 <= i < |rows| ==> column[i] == rows[i].wpm
  {
    seq(|rows|, i requires 0 <= i < |rows| => rows[i].wpm)
  }

  /** Calendar date of a UTC timestamp (`.dt.date`), as a day number since the epoch. */
  function CalendarDate(ts: int): (day: int)
    ensures day * SECONDS_PER_DAY <= ts < (day + 1) * SECONDS_PER_DAY
  {
    ts / SECONDS_PER_DAY
  }

  // ---------------------------------------------------------------------------------------
  // prepare_data: sort by timestamp

  predicate SortedByTimestamp(s: seq<Session>)
  {
    forall i, j :: 0 <= i < j < |s| ==> s[i].timestamp <= s[j].timestamp
  }

  /** Places x in a list sorted by timestamp, before the first session that is not earlier. */
  function InsertByTimestamp(x: Session, s: seq<Session>): (r: seq<Session>)
    requires SortedByTimestamp(s)
    ensures SortedByTimestamp(r)
    ensures multiset(r) == multiset(s) + multiset{x}
    ensures forall y :: y in r ==> y == x || y in s
  {
    if |s| == 0 then [x]
    else if x.timestamp <= s[0].timestamp then [x] + s
    else
      var rest := InsertByTimestamp(x, s[1..]);
      InsertBehindHead(x, s, rest);
      [s[0]] + rest
  }

  /** Inserting x into the tail of a sorted list whose head is earlier than x, then putting
      the head back in front, inserts x into the whole list. */
  lemma InsertBehindHead(x: Session, s: seq<Session>, rest: seq<Session>)
    requires |s| > 0 && SortedByTimestamp(s) && s[0].timestamp < x.timestamp
    requires SortedByTimestamp(rest) && multiset(rest) == multiset(s[1..]) + multiset{x}
    requires forall y :: y in rest ==> y == x || y in s[1..]
    ensures SortedByTimestamp([s[0]] + rest)
    ensures multiset([s[0]] + rest) == multiset(s) + multiset{x}
    ensures forall y :: y in [s[0]] + rest ==> y == x || y in s
  {
    assert s == [s[0]] + s[1..];
    assert forall j :: 0 <= j < |rest| ==> s[0].timestamp <= rest[j].timestamp by {
      forall j | 0 <= j < |rest| ensures s[0].timestamp <= rest[j].timestamp {
        assert rest[j] in rest;
      }
    }
    HeadBeforeSortedIsSorted(s[0], rest);
    assert multiset([s[0]] + rest) == multiset{s[0]} + multiset(rest);
  }

  /** A session no later than every session of a sorted list can be put in front of it. */
  lemma HeadBeforeSortedIsSorted(h: Session, rest: seq<Session>)
    requires SortedByTimestamp(rest)
    requires forall j :: 0 <= j < |rest| ==> h.timestamp <= rest[j].timestamp
    ensures SortedByTimestamp([h] + rest)
  {
    var r := [h] + rest;
    forall i, j | 0 <= i < j < |r| ensures r[i].timestamp <= r[j].timestamp {
      assert r[j] == rest[j - 1];
      if i > 0 {
        assert r[i] == rest[i - 1];
      }
    }
  }

  /** `sort_values` on the timestamp column: the rows in nondecreasing timestamp order. */
  function SortByTimestamp(s: seq<Session>): (r: seq<Session>)
    ensures SortedByTimestamp(r)
    ensures multiset(r) == multiset(s)
  {
    if |s| == 0 then []
    else
      assert s == [s[0]] + s[1..];
      InsertByTimestamp(s[0], SortByTimestamp(s[1..]))
  }

  /** Sorting rows that are already in timestamp order gives back their timestamp column
      unchanged; when no two timestamps are equal, it gives back the rows themselves. Rows
      that share a timestamp may come back in another order. */
  lemma SortIdempotent(s: seq<Session>)
    requires SortedByTimestamp(s)
    ensures |SortByTimestamp(s)| == |s|
    ensures forall i :: 0 <= i < |s| ==> SortByTimestamp(s)[i].timestamp == s[i].timestamp
    ensures (forall i, j :: 0 <= i < j < |s| ==> s[i].timestamp < s[j].timestamp) ==>
              SortByTimestamp(s) == s
  {
    var t := SortByTimestamp(s);
    assert |t| == |multiset(t)| == |multiset(s)| == |s|;
    SortedPermutationsAgreeOnTimestamps(t, s);
    if forall i, j :: 0 <= i < j < |s| ==> s[i].timestamp < s[j].timestamp {
      DistinctTimestampsFixRows(t, s);
    }
  }

  /** A permutation of rows with pairwise distinct timestamps that has the same timestamp
      column is the same list of rows. */
  lemma DistinctTimestampsFixRows(t: seq<Session>, s: seq<Session>)
    requires multiset(t) == multiset(s) && |t| == |s|
    requires forall i :: 0 <= i < |s| ==> t[i].timestamp == s[i].timestamp
    requires forall i, j :: 0 <= i < j < |s| ==> s[i].timestamp < s[j].timestamp
    ensures t == s
  {
    forall i | 0 <= i < |s| ensures t[i] == s[i] {
      assert t[i] in multiset(s);
      var j :| 0 <= j < |s| && s[j] == t[i];
    }
  }

  /** Dropping one row of a sorted list leaves it sorted. */
  lemma RemoveKeepsSorted(b: seq<Session>, k: nat)
    requires SortedByTimestamp(b) && k < |b|
    ensures SortedByTimestamp(b[..k] + b[k + 1..])
  {
    var b' := b[..k] + b[k + 1..];
    forall i, j | 0 <= i < j < |b'| ensures b'[i].timestamp <= b'[j].timestamp {
      var i0 := if i < k then i else i + 1;
      var j0 := if j < k then j else j + 1;
      assert b'[i] == b[i0] && b'[j] == b[j0];
    }
  }

  /** Two sorted permutations of the same rows start with the same timestamp. */
  lemma SortedPermutationsAgreeOnFirst(a: seq<Session>, b: seq<Session>)
    requires SortedByTimestamp(a) && SortedByTimestamp(b)
    requires multiset(a) == multiset(b) && |a| > 0
    ensures |b| > 0 && a[0].timestamp == b[0].timestamp
  {
    assert a[0] in multiset(b);
    assert b[0] in multiset(a);
  }

  /** If the rest of a agrees with b minus its row k, and b's first k + 1 timestamps are all
      a's first timestamp, then a and b agree everywhere. */
  lemma AgreementAfterRemoval(a: seq<Session>, b: seq<Session>, k: nat)
    requires SortedByTimestamp(b) && |a| == |b| && k < |b|
    requires a[0].timestamp == b[0].timestamp == b[k].timestamp
    requires forall i :: 0 <= i < |a| - 1 ==> a[1..][i].timestamp == (b[..k] + b[k + 1..])[i].timestamp
    ensures forall i :: 0 <= i < |a| ==> a[i].timestamp == b[i].timestamp
  {
    var b' := b[..k] + b[k + 1..];
    forall i | 0 < i < |a| ensures a[i].timestamp == b[i].timestamp {
      assert a[i] == a[1..][i - 1];
      if i - 1 < k {
        assert b'[i - 1] == b[i - 1];
        assert b[0].timestamp <= b[i - 1].timestamp <= b[i].timestamp <= b[k].timestamp;
      } else {
        assert b'[i - 1] == b[i];
      }
    }
  }

  /** The WPM column of a concatenation is the concatenation of the columns. */
  lemma WpmsAppend(a: seq<Session>, b: seq<Session>)
    ensures Wpms(a + b) == Wpms(a) + Wpms(b)
  {
  }

  /** In a permutation b of a, some row j matches a's first row, and the rest of b is a
      permutation of the rest of a. */
  lemma MatchFirst(a: seq<Session>, b: seq<Session>) returns (j: int)
    requires |a| > 0 && multiset(a) == multiset(b)
    ensures 0 <= j < |b| && b[j] == a[0]
    ensures multiset(a[1..]) == multiset(b[..j] + b[j + 1..])
  {
    j := PositionOf(b, a[0]);
    MultisetWithout(b, j);
    MultisetWithoutHead(a);
  }

  /** A row of the multiset sits at some position of the sequence. */
  lemma PositionOf(s: seq<Session>, x: Session) returns (j: int)
    requires x in multiset(s)
    ensures 0 <= j < |s| && s[j] == x
  {
    assert x in s;
    j :| 0 <= j < |s| && s[j] == x;
  }

  lemma MultisetWithoutHead(s: seq<Session>)
    requires |s| > 0
    ensures multiset(s[1..]) == multiset(s) - multiset{s[0]}
  {
    assert s == [s[0]] + s[1..];
  }

  /** Taking one row out of a sequence takes one copy of it out of its multiset. */
  lemma MultisetWithout(s: seq<Session>, j: int)
    requires 0 <= j < |s|
    ensures multiset(s[..j] + s[j + 1..]) == multiset(s) - multiset{s[j]}
  {
    assert s == s[..j] + [s[j]] + s[j + 1..];
  }

  /** Reordering the rows leaves the total of the WPM column unchanged. */
  lemma {:induction false} SumWpmsPermutation(a: seq<Session>, b: seq<Session>)
    requires multiset(a) == multiset(b)
    ensures Sum(Wpms(a)) == Sum(Wpms(b))
    decreases |a|
  {
    if |a| == 0 {
      assert |b| == |multiset(b)| == 0;
    } else {
      var j := MatchFirst(a, b);
      var rest := b[..j] + b[j + 1..];
      SumWpmsPermutation(a[1..], rest);
      WpmsSplit(b, j);
      assert Wpms(a)[1..] == Wpms(a[1..]);
    }
  }

  /** Taking row j out of the rows takes its WPM out of the column total. */
  lemma WpmsSplit(b: seq<Session>, j: int)
    requires 0 <= j < |b|
    ensures Sum(Wpms(b)) == b[j].wpm + Sum(Wpms(b[..j] + b[j + 1..]))
  {
    var left, right := Wpms(b[..j]), Wpms(b[j + 1..]);
    assert b == b[..j] + ([b[j]] + b[j + 1..]);
    WpmsAppend(b[..j], [b[j]] + b[j + 1..]);
    WpmsAppend([b[j]], b[j + 1..]);
    WpmsAppend(b[..j], b[j + 1..]);
    assert Wpms([b[j]]) == [b[j].wpm];
    assert Wpms(b) == left + ([b[j].wpm] + right);
    assert Wpms(b[..j] + b[j + 1..]) == left + right;
    assert ([b[j].wpm] + right)[1..] == right;
    SumAppend(left, [b[j].wpm] + right);
    SumAppend(left, right);
  }

  /** Whatever order the sort gives to sessions with equal timestamps, the timestamp column
      of a sorted permutation is determined by the input. */
  lemma {:induction false} SortedPermutationsAgreeOnTimestamps(a: seq<Session>, b: seq<Session>)
    requires SortedByTimestamp(a) && SortedByTimestamp(b)
    requires multiset(a) == multiset(b)
    ensures |a| == |b|
    ensures forall i :: 0 <= i < |a| ==> a[i].timestamp == b[i].timestamp
  {
    assert |a| == |multiset(a)| == |multiset(b)| == |b|;
    if |a| > 0 {
      SortedPermutationsAgreeOnFirst(a, b);
      var k := MatchFirst(a, b);
      var b' := b[..k] + b[k + 1..];
      RemoveKeepsSorted(b, k);
      SortedPermutationsAgreeOnTimestamps(a[1..], b');
      AgreementAfterRemoval(a, b, k);
    }
  }

  // ---------------------------------------------------------------------------------------
  // _calculate_daily_averages: group by calendar date, mean WPM per date

  /** The calendar dates on which at least one session took place. */
  function Dates(rows: seq<Session>): set<int>
  {
    set r | r in rows :: CalendarDate(r.timestamp)
  }

  lemma DatesCons(rows: seq<Session>)
    requires |rows| > 0
    ensures Dates(rows) == {CalendarDate(rows[0].timestamp)} + Dates(rows[1..])
  {
    assert forall r :: r in rows <==> r == rows[0] || r in rows[1..];
  }

  /** The WPM values of the sessions held on calendar date d, in row order: one group of
      the `groupby` on the "Date" column. */
  function WpmOn(rows: seq<Session>, d: int): (group: seq<real>)
    ensures |group| > 0 <==> d in Dates(rows)
  {
    if |rows| == 0 then []
    else
      DatesCons(rows);
      var head := if CalendarDate(rows[0].timestamp) == d then [rows[0].wpm] else [];
      head + WpmOn(rows[1..], d)
  }

  /** Every value of a date's group is the WPM of a session held on that date. */
  lemma {:induction false} WpmOnComesFromDate(rows: seq<Session>, d: int)
    ensures forall x :: x in WpmOn(rows, d) ==>
              exists r :: r in rows && CalendarDate(r.timestamp) == d && r.wpm == x
  {
    if |rows| > 0 {
      WpmOnComesFromDate(rows[1..], d);
      assert forall r :: r in rows[1..] ==> r in rows;
    }
  }

  /** Conversely, every session contributes its WPM to the group of its own date. */
  lemma SessionInItsGroup(rows: seq<Session>, k: int)
    requires 0 <= k < |rows|
    ensures rows[k].wpm in WpmOn(rows, CalendarDate(rows[k].timestamp))
  {
    var d := CalendarDate(rows[k].timestamp);
    assert rows == rows[..k] + rows[k..];
    WpmOnAppend(rows[..k], rows[k..], d);
    assert rows[k..][0] == rows[k];
    assert WpmOn(rows[k..], d)[0] == rows[k].wpm;
  }

  predicate StrictlyIncreasing(ds: seq<int>)
  {
    forall i, j :: 0 <= i < j < |ds| ==> ds[i] < ds[j]
  }

  /** Adds a date to a strictly increasing list of dates, keeping it strictly increasing. */
  function InsertDate(d: int, ds: seq<int>): (r: seq<int>)
    requires StrictlyIncreasing(ds)
    ensures StrictlyIncreasing(r)
    ensures forall x :: x in r <==> x == d || x in ds
  {
    if |ds| == 0 then [d]
    else if d < ds[0] then [d] + ds
    else if d == ds[0] then ds
    else
      var rest := InsertDate(d, ds[1..]);
      assert forall x :: x in ds <==> x == ds[0] || x in ds[1..];
      var r := [ds[0]] + rest;
      assert forall j :: 0 <= j < |rest| ==> ds[0] < rest[j] by {
        forall j | 0 <= j < |rest| ensures ds[0] < rest[j] {
          assert rest[j] in rest;
        }
      }
      assert forall i, j :: 0 <= i < j < |r| ==> r[i] < r[j] by {
        forall i, j | 0 <= i < j < |r| ensures r[i] < r[j] {
          assert r[j] == rest[j - 1];
          if i > 0 {
            assert r[i] == rest[i - 1];
          }
        }
      }
      r
  }

  /** The distinct calendar dates of the sessions, ascending: the group keys. */
  function DistinctDates(rows: seq<Session>): (ds: seq<int>)
    ensures StrictlyIncreasing(ds)
    ensures forall d :: d in ds <==> d in Dates(rows)
  {
    if |rows| == 0 then []
    else
      DatesCons(rows);
      InsertDate(CalendarDate(rows[0].timestamp), DistinctDates(rows[1..]))
  }

  /** One row of the daily-average frame: a calendar date and the mean WPM on it. */
  datatype DailyAverage = DailyAverage(date: int, wpm: real)

  /** `_calculate_daily_averages`: one entry per calendar date that has sessions, ascending
      by date, holding the mean WPM of that date's sessions. */
  function DailyAverages(rows: seq<Session>): (daily: seq<DailyAverage>)
    ensures forall i, j :: 0 <= i < j < |daily| ==> daily[i].date < daily[j].date
    ensures forall i :: 0 <= i < |daily| ==> daily[i].date in Dates(rows)
    ensures forall d :: d in Dates(rows) ==> exists i :: 0 <= i < |daily| && daily[i].date == d
    ensures forall i :: 0 <= i < |daily| ==>
              |WpmOn(rows, daily[i].date)| > 0 && daily[i].wpm == Mean(WpmOn(rows, daily[i].date))
    ensures |daily| == 0 <==> |rows| == 0
  {
    DistinctDatesCover(rows);
    MeansOver(rows, DistinctDates(rows))
  }

  /** One entry per key, in key order, holding the mean of that key's group. */
  function MeansOver(rows: seq<Session>, ds: seq<int>): (daily: seq<DailyAverage>)
    requires forall d :: d in ds ==> d in Dates(rows)
    ensures |daily| == |ds|
    ensures forall i :: 0 <= i < |ds| ==>
              daily[i].date == ds[i] && |WpmOn(rows, ds[i])| > 0 && daily[i].wpm == Mean(WpmOn(rows, ds[i]))
  {
    if |ds| == 0 then []
    else
      assert ds[0] in ds;
      [DailyAverage(ds[0], Mean(WpmOn(rows, ds[0])))] + MeansOver(rows, ds[1..])
  }

  /** There are group keys as soon as there are rows. */
  lemma DistinctDatesCover(rows: seq<Session>)
    ensures |DistinctDates(rows)| == 0 <==> |rows| == 0
  {
    if |rows| > 0 {
      assert rows[0] in rows;
      assert CalendarDate(rows[0].timestamp) in Dates(rows);
      assert CalendarDate(rows[0].timestamp) in DistinctDates(rows);
    }
  }

  /** Grouping a concatenation groups the parts: the group of a date keeps row order. */
  lemma {:induction false} WpmOnAppend(a: seq<Session>, b: seq<Session>, d: int)
    ensures WpmOn(a + b, d) == WpmOn(a, d) + WpmOn(b, d)
  {
    if |a| == 0 {
      assert a + b == b;
    } else {
      assert (a + b)[0] == a[0] && (a + b)[1..] == a[1..] + b;
      WpmOnAppend(a[1..], b, d);
      var head := if CalendarDate(a[0].timestamp) == d then [a[0].wpm] else [];
      calc {
        WpmOn(a + b, d);
        head + WpmOn(a[1..] + b, d);
        head + (WpmOn(a[1..], d) + WpmOn(b, d));
        { assert head + (WpmOn(a[1..], d) + WpmOn(b, d)) == (head + WpmOn(a[1..], d)) + WpmOn(b, d); }
        (head + WpmOn(a[1..], d)) + WpmOn(b, d);
        WpmOn(a, d) + WpmOn(b, d);
      }
    }
  }

  /** Reordering the rows leaves each date's group with the same size and the same total. */
  lemma {:induction false} WpmOnPermutation(a: seq<Session>, b: seq<Session>, d: int)
    requires multiset(a) == multiset(b)
    ensures |WpmOn(a, d)| == |WpmOn(b, d)| && Sum(WpmOn(a, d)) == Sum(WpmOn(b, d))
    decreases |a|
  {
    if |a| == 0 {
      assert |b| == |multiset(b)| == 0;
    } else {
      var j := MatchFirst(a, b);
      var rest := b[..j] + b[j + 1..];
      WpmOnPermutation(a[1..], rest, d);
      WpmOnSplit(b, j, d);
      assert a == [a[0]] + a[1..];
      WpmOnAppend([a[0]], a[1..], d);
      SumAppend(WpmOn([a[0]], d), WpmOn(a[1..], d));
    }
  }

  /** Taking row j out of the rows takes its WPM out of its date's group, if it falls on it. */
  lemma WpmOnSplit(b: seq<Session>, j: int, d: int)
    requires 0 <= j < |b|
    ensures var rest, head := b[..j] + b[j + 1..], WpmOn([b[j]], d);
            |WpmOn(b, d)| == |head| + |WpmOn(rest, d)| &&
            Sum(WpmOn(b, d)) == Sum(head) + Sum(WpmOn(rest, d))
  {
    var head := WpmOn([b[j]], d);
    var left, right := WpmOn(b[..j], d), WpmOn(b[j + 1..], d);
    assert b == b[..j] + ([b[j]] + b[j + 1..]);
    WpmOnAppend(b[..j], [b[j]] + b[j + 1..], d);
    WpmOnAppend([b[j]], b[j + 1..], d);
    WpmOnAppend(b[..j], b[j + 1..], d);
    SumAppend(head, right);
    SumAppend(left, head + right);
    SumAppend(left, right);
  }

  lemma HeadIsMember(s: seq<int>)
    requires |s| > 0
    ensures s[0] in s
  {
  }

  /** Two strictly increasing lists of the same dates are the same list. */
  lemma {:induction false} StrictlyIncreasingUnique(x: seq<int>, y: seq<int>)
    requires StrictlyIncreasing(x) && StrictlyIncreasing(y)
    requires forall d :: d in x <==> d in y
    ensures x == y
    decreases |x|
  {
    if |x| == 0 {
      if |y| > 0 {
        HeadIsMember(y);
        assert false;
      }
    } else {
      assert x[0] in x;
      assert |y| > 0;
      assert y[0] in x;
      assert x[0] == y[0];
      assert forall d :: d in x[1..] <==> d in y[1..] by {
        assert forall d :: d in x <==> d == x[0] || d in x[1..];
        assert forall d :: d in y <==> d == y[0] || d in y[1..];
        forall d ensures d in x[1..] ==> d != x[0] {
        }
        forall d ensures d in y[1..] ==> d != y[0] {
        }
      }
      StrictlyIncreasingUnique(x[1..], y[1..]);
      assert x == [x[0]] + x[1..] && y == [y[0]] + y[1..];
    }
  }

  /** The daily averages do not depend on the order of the rows, so neither the unstable sort
      nor the order of the loaded files changes them. */
  lemma DailyAveragesIgnoreOrder(a: seq<Session>, b: seq<Session>)
    requires multiset(a) == multiset(b)
    ensures DailyAverages(a) == DailyAverages(b)
  {
    SameRowsSameDates(a, b);
    StrictlyIncreasingUnique(DistinctDates(a), DistinctDates(b));
    GroupMeansIgnoreOrder(a, b, DistinctDates(a));
  }

  /** Rows that are a reordering of each other are held on the same calendar dates. */
  lemma SameRowsSameDates(a: seq<Session>, b: seq<Session>)
    requires multiset(a) == multiset(b)
    ensures Dates(a) == Dates(b)
  {
    forall r ensures r in a <==> r in b {
      assert r in a <==> r in multiset(a);
      assert r in b <==> r in multiset(b);
    }
  }

  /** Reordering the rows leaves the mean of every group unchanged. */
  lemma {:induction false} GroupMeansIgnoreOrder(a: seq<Session>, b: seq<Session>, ds: seq<int>)
    requires multiset(a) == multiset(b)
    requires forall d :: d in ds ==> d in Dates(a) && d in Dates(b)
    ensures MeansOver(a, ds) == MeansOver(b, ds)
  {
    if |ds| > 0 {
      WpmOnPermutation(a, b, ds[0]);
      GroupMeansIgnoreOrder(a, b, ds[1..]);
    }
  }

  // ---------------------------------------------------------------------------------------
  // _create_full_date_range: every day from the first to the last observed date

  /** Earliest date of a non-empty daily-average frame (`.min()`). */
  function MinDate(daily: seq<DailyAverage>): (d: int)
    requires |daily| > 0
    ensures exists i :: 0 <= i < |daily| && daily[i].date == d
    ensures forall i :: 0 <= i < |daily| ==> d <= daily[i].date
  {
    if |daily| == 1 then daily[0].date
    else
      var rest := MinDate(daily[1..]);
      assert forall i :: 1 <= i < |daily| ==> daily[i] == daily[1..][i - 1];
      if daily[0].date <= rest then daily[0].date else rest
  }

  /** Latest date of a non-empty daily-average frame (`.max()`). */
  function MaxDate(daily: seq<DailyAverage>): (d: int)
    requires |daily| > 0
    ensures exists i :: 0 <= i < |daily| && daily[i].date == d
    ensures forall i :: 0 <= i < |daily| ==> daily[i].date <= d
  {
    if |daily| == 1 then daily[0].date
    else
      var rest := MaxDate(daily[1..]);
      assert forall i :: 1 <= i < |daily| ==> daily[i] == daily[1..][i - 1];
      if daily[0].date >= rest then daily[0].date else rest
  }

  /** Every entry is as many days after the first as its position: a run of consecutive
      days with step 1. */
  predicate Contiguous(range: seq<int>)
  {
    forall i :: 0 <= i < |range| ==> range[i] == range[0] + i
  }

  /** `pd.date_range(min, max, freq="D")` over the observed dates. */
  function FullDateRange(daily: seq<DailyAverage>): (range: seq<int>)
    requires |daily| > 0
    ensures |range| > 0 && Contiguous(range)
    ensures range[0] == MinDate(daily) && range[|range| - 1] == MaxDate(daily)
    ensures forall i :: 0 <= i < |daily| ==> daily[i].date in range
  {
    var lo, hi := MinDate(daily), MaxDate(daily);
    var range := seq(hi - lo + 1, i requires 0 <= i <= hi - lo => lo + i);
    assert forall i :: 0 <= i < |daily| ==> daily[i].date in range by {
      forall i | 0 <= i < |daily| ensures daily[i].date in range {
        assert range[daily[i].date - lo] == daily[i].date;
      }
    }
    range
  }

  /** The full date range has max - min + 1 days; one observed date gives a single day. */
  lemma FullDateRangeLength(daily: seq<DailyAverage>)
    requires |daily| > 0
    ensures |FullDateRange(daily)| == MaxDate(daily) - MinDate(daily) + 1
    ensures (forall i :: 0 <= i < |daily| ==> daily[i].date == daily[0].date) ==> |FullDateRange(daily)| == 1
  {
  }

  // ---------------------------------------------------------------------------------------
  // _interpolate_missing_dates: reindex onto the range, fill the gaps linearly

  /** One row of the interpolated daily frame. */
  datatype DailyPoint = DailyPoint(date: int, wpm: real)

  /** The daily average recorded for date d, if any (the `reindex` lookup). */
  function Lookup(daily: seq<DailyAverage>, d: int): (v: Option<real>)
    ensures v.Some? <==> exists i :: 0 <= i < |daily| && daily[i].date == d
    ensures v.Some? ==> exists i :: 0 <= i < |daily| && daily[i].date == d && daily[i].wpm == v.value
  {
    if |daily| == 0 then None
    else if daily[0].date == d then Some(daily[0].wpm)
    else
      var rest := Lookup(daily[1..], d);
      assert forall i :: 1 <= i < |daily| ==> daily[i] == daily[1..][i - 1];
      assert (exists i :: 0 <= i < |daily| && daily[i].date == d) ==>
             (exists i :: 0 <= i < |daily[1..]| && daily[1..][i].date == d) by {
        if exists i :: 0 <= i < |daily| && daily[i].date == d {
          var i :| 0 <= i < |daily| && daily[i].date == d;
          assert daily[1..][i - 1].date == d;
        }
      }
      rest
  }

  /** No date appears twice: `reindex` refuses duplicate labels. */
  predicate UniqueDates(daily: seq<DailyAverage>)
  {
    forall i, j :: 0 <= i < j < |daily| ==> daily[i].date != daily[j].date
  }

  /** With unique dates, the lookup finds exactly the entry recorded for that date. */
  lemma {:induction false} LookupFindsEntry(daily: seq<DailyAverage>, k: nat)
    requires UniqueDates(daily) && k < |daily|
    ensures Lookup(daily, daily[k].date) == Some(daily[k].wpm)
  {
    if k > 0 {
      assert daily[0].date != daily[k].date;
      assert daily[1..][k - 1] == daily[k];
      LookupFindsEntry(daily[1..], k - 1);
    }
  }

  /** Both ends of the target axis carry an observed daily average. */
  predicate EndsObserved(daily: seq<DailyAverage>, range: seq<int>)
  {
    |range| > 0 && Lookup(daily, range[0]).Some? && Lookup(daily, range[|range| - 1]).Some?
  }

  /** Nearest position before i whose date was observed. */
  function PrevObserved(daily: seq<DailyAverage>, range: seq<int>, i: int): (j: nat)
    requires EndsObserved(daily, range) && 0 < i < |range|
    ensures j < i && Lookup(daily, range[j]).Some?
    ensures forall k :: j < k < i ==> Lookup(daily, range[k]).None?
    decreases i
  {
    if Lookup(daily, range[i - 1]).Some? then i - 1 else PrevObserved(daily, range, i - 1)
  }

  /** Nearest position after i whose date was observed. */
  function NextObserved(daily: seq<DailyAverage>, range: seq<int>, i: int): (j: nat)
    requires EndsObserved(daily, range) && 0 <= i < |range| - 1
    ensures i < j < |range| && Lookup(daily, range[j]).Some?
    ensures forall k :: i < k < j ==> Lookup(daily, range[k]).None?
    decreases |range| - i
  {
    if Lookup(daily, range[i + 1]).Some? then i + 1 else NextObserved(daily, range, i + 1)
  }

  /** The value pandas' linear method gives a gap at position i: the line through the nearest
      observed neighbours, positions counted along the axis (the index itself is ignored). */
  function GapValue(daily: seq<DailyAverage>, range: seq<int>, i: int): real
    requires EndsObserved(daily, range) && 0 < i < |range| - 1
  {
    var lo, hi := PrevObserved(daily, range, i), NextObserved(daily, range, i);
    LinePoint(Lookup(daily, range[lo]).value, Lookup(daily, range[hi]).value, hi - lo, i - lo)
  }

  /** `interpolate(method="linear")` at position i: an observed value is kept, a gap is filled. */
  function InterpolatedValue(daily: seq<DailyAverage>, range: seq<int>, i: int): real
    requires EndsObserved(daily, range) && 0 <= i < |range|
  {
    var observed := Lookup(daily, range[i]);
    if observed.Some? then observed.value else GapValue(daily, range, i)
  }

  /** A gap's value lies between its two nearest observed neighbours. */
  lemma GapValueBetween(daily: seq<DailyAverage>, range: seq<int>, i: int)
    requires EndsObserved(daily, range) && 0 < i < |range| - 1
    ensures Between(GapValue(daily, range, i),
                    Lookup(daily, range[PrevObserved(daily, range, i)]).value,
                    Lookup(daily, range[NextObserved(daily, range, i)]).value)
  {
    var lo, hi := PrevObserved(daily, range, i), NextObserved(daily, range, i);
    var vlo, vhi := Lookup(daily, range[lo]).value, Lookup(daily, range[hi]).value;
    LinearStepBetween(vlo, vhi, hi - lo, i - lo);
  }

  /** `_interpolate_missing_dates`: the daily averages reindexed onto the target axis, gaps
      filled linearly. */
  function InterpolateMissingDates(daily: seq<DailyAverage>, range: seq<int>): (series: seq<DailyPoint>)
    requires UniqueDates(daily)
    requires EndsObserved(daily, range)
    ensures |series| == |range|
    ensures forall i :: 0 <= i < |range| ==> series[i].date == range[i]
    ensures forall i, k :: 0 <= i < |range| && 0 <= k < |daily| && daily[k].date == range[i] ==>
              series[i].wpm == daily[k].wpm
    ensures forall i :: 0 <= i < |range| && Lookup(daily, range[i]).None? ==>
              0 < i < |range| - 1 &&
              Between(series[i].wpm, Lookup(daily, range[PrevObserved(daily, range, i)]).value,
                                     Lookup(daily, range[NextObserved(daily, range, i)]).value)
  {
    var series := seq(|range|, i requires 0 <= i < |range| => DailyPoint(range[i], InterpolatedValue(daily, range, i)));
    forall i, k | 0 <= i < |range| && 0 <= k < |daily| && daily[k].date == range[i]
      ensures series[i].wpm == daily[k].wpm
    {
      LookupFindsEntry(daily, k);
    }
    forall i | 0 <= i < |range| && Lookup(daily, range[i]).None?
      ensures 0 < i < |range| - 1
      ensures Between(series[i].wpm, Lookup(daily, range[PrevObserved(daily, range, i)]).value,
                                     Lookup(daily, range[NextObserved(daily, range, i)]).value)
    {
      assert i != 0 && i != |range| - 1;
      GapValueBetween(daily, range, i);
    }
    series
  }

  /** Between two consecutive observed positions the filled series is the straight line
      through their values; at the two ends it is the observed values themselves. */
  lemma PiecewiseLinear(daily: seq<DailyAverage>, range: seq<int>, lo: nat, hi: nat, i: nat)
    requires EndsObserved(daily, range)
    requires lo < hi < |range| && lo <= i <= hi
    requires Lookup(daily, range[lo]).Some? && Lookup(daily, range[hi]).Some?
    requires forall k :: lo < k < hi ==> Lookup(daily, range[k]).None?
    ensures InterpolatedValue(daily, range, i)
              == LinePoint(Lookup(daily, range[lo]).value, Lookup(daily, range[hi]).value,
                           hi - lo, i - lo)
    ensures UniqueDates(daily) ==>
              InterpolateMissingDates(daily, range)[i].wpm
                == LinePoint(Lookup(daily, range[lo]).value, Lookup(daily, range[hi]).value,
                             hi - lo, i - lo)
  {
    ValueOnSegment(daily, range, lo, hi, i);
    if UniqueDates(daily) {
      SeriesHoldsInterpolatedValue(daily, range, i);
    }
  }

  /** The value `interpolate` gives at a position between two consecutive observed ones. */
  lemma ValueOnSegment(daily: seq<DailyAverage>, range: seq<int>, lo: nat, hi: nat, i: nat)
    requires EndsObserved(daily, range)
    requires lo < hi < |range| && lo <= i <= hi
    requires Lookup(daily, range[lo]).Some? && Lookup(daily, range[hi]).Some?
    requires forall k :: lo < k < hi ==> Lookup(daily, range[k]).None?
    ensures InterpolatedValue(daily, range, i)
              == LinePoint(Lookup(daily, range[lo]).value, Lookup(daily, range[hi]).value,
                           hi - lo, i - lo)
  {
    var vlo, vhi := Lookup(daily, range[lo]).value, Lookup(daily, range[hi]).value;
    LinePointEnds(vlo, vhi, hi - lo);
    if lo < i < hi {
      var p, n := PrevObserved(daily, range, i), NextObserved(daily, range, i);
      assert p == lo;
      assert n == hi;
    }
  }

  /** Position i of the interpolated series holds the value `interpolate` gives there. */
  lemma SeriesHoldsInterpolatedValue(daily: seq<DailyAverage>, range: seq<int>, i: int)
    requires UniqueDates(daily) && EndsObserved(daily, range) && 0 <= i < |range|
    ensures InterpolateMissingDates(daily, range)[i].wpm == InterpolatedValue(daily, range, i)
  {
  }

  /** On the contiguous daily axis, positions are day counts: a gap's value is weighted by
      the number of days elapsed since the previous observed date. */
  lemma GapIsDayWeighted(daily: seq<DailyAverage>, range: seq<int>, i: int) returns (lo: int, hi: int)
    requires EndsObserved(daily, range) && Contiguous(range) && 0 < i < |range| - 1
    requires Lookup(daily, range[i]).None?
    ensures lo == PrevObserved(daily, range, i) && hi == NextObserved(daily, range, i)
    ensures 0 <= lo < i < hi < |range| && range[hi] - range[lo] == hi - lo
    ensures Lookup(daily, range[lo]).Some? && Lookup(daily, range[hi]).Some?
    ensures InterpolatedValue(daily, range, i)
              == LinePoint(Lookup(daily, range[lo]).value, Lookup(daily, range[hi]).value,
                           range[hi] - range[lo], range[i] - range[lo])
    ensures UniqueDates(daily) ==>
              InterpolateMissingDates(daily, range)[i].wpm
                == LinePoint(Lookup(daily, range[lo]).value, Lookup(daily, range[hi]).value,
                             range[hi] - range[lo], range[i] - range[lo])
  {
    lo, hi := PrevObserved(daily, range, i), NextObserved(daily, range, i);
    PiecewiseLinear(daily, range, lo, hi, i);
    ContiguousOffsets(range, lo, hi, i);
  }

  /** In a contiguous range, positions and days advance together. */
  lemma ContiguousOffsets(range: seq<int>, lo: int, hi: int, i: int)
    requires Contiguous(range) && 0 <= lo <= i <= hi < |range|
    ensures range[hi] - range[lo] == hi - lo && range[i] - range[lo] == i - lo
  {
    assert range[hi] == range[0] + hi && range[lo] == range[0] + lo && range[i] == range[0] + i;
  }

  // ---------------------------------------------------------------------------------------
  // add_rolling_averages: centred 7-day and 30-day means

  /** `rolling(window, center=True).mean()` at position i, with pandas' default min_periods
      equal to the window. pandas centres a window by ending it (window - 1) / 2 positions
      after i, so an even window reaches one position further back than forward; the mean is
      defined only where the whole window lies inside the series. */
  function RollingMean(values: seq<real>, window: nat, i: int): (r: Option<real>)
    requires window > 0
    ensures r.Some? <==> window / 2 <= i && i + (window - 1) / 2 < |values|
    ensures r.Some? ==>
              var w := values[i - window / 2 .. i + (window - 1) / 2 + 1];
              |w| == window && r.value == Mean(w) && Min(w) <= r.value <= Max(w)
  {
    var end := i + (window - 1) / 2 + 1;
    var start := end - window;
    if 0 <= start && end <= |values| then
      MeanBetweenExtremes(values[start..end]);
      Some(Mean(values[start..end]))
    else None
  }

  /** The "WPM" column of the interpolated frame. */
  function WpmSeries(series: seq<DailyPoint>): (column: seq<real>)
    ensures |column| == |series|
    ensures forall i :: 0 <= i < |series| ==> column[i] == series[i].wpm
  {
    seq(|series|, i requires 0 <= i < |series| => series[i].wpm)
  }

  /** One row of the smoothed frame: date, interpolated WPM, and the "WPM_7day" and
      "WPM_30day" columns (None where pandas has NaN). */
  datatype SmoothedPoint = SmoothedPoint(date: int, wpm: real, wpm7: Option<real>, wpm30: Option<real>)

  /** `add_rolling_averages`: a copy of the frame with the two rolling columns added. */
  function AddRollingAverages(series: seq<DailyPoint>): (smooth: seq<SmoothedPoint>)
    ensures |smooth| == |series|
    ensures forall i :: 0 <= i < |series| ==> smooth[i].date == series[i].date && smooth[i].wpm == series[i].wpm
    ensures forall i :: 0 <= i < |series| ==> (smooth[i].wpm7.Some? <==> 3 <= i < |series| - 3)
    ensures forall i :: 3 <= i < |series| - 3 ==>
              smooth[i].wpm7 == Some(Mean(WpmSeries(series)[i - 3 .. i + 4]))
    ensures forall i :: 0 <= i < |series| ==> (smooth[i].wpm30.Some? <==> 15 <= i <= |series| - 15)
    ensures forall i :: 15 <= i <= |series| - 15 ==>
              smooth[i].wpm30 == Some(Mean(WpmSeries(series)[i - 15 .. i + 15]))
  {
    var wpm := WpmSeries(series);
    assert ROLLING_7_DAYS / 2 == 3 && (ROLLING_7_DAYS - 1) / 2 == 3;
    assert ROLLING_30_DAYS / 2 == 15 && (ROLLING_30_DAYS - 1) / 2 == 14;
    seq(|series|, i requires 0 <= i < |series| =>
      SmoothedPoint(series[i].date, series[i].wpm,
                    RollingMean(wpm, ROLLING_7_DAYS, i), RollingMean(wpm, ROLLING_30_DAYS, i)))
  }

  /** A series shorter than a window has no value for that window anywhere. */
  lemma ShortSeriesHasNoRollingValues(series: seq<DailyPoint>)
    ensures |series| < ROLLING_7_DAYS ==>
              forall i :: 0 <= i < |series| ==> AddRollingAverages(series)[i].wpm7.None?
    ensures |series| < ROLLING_30_DAYS ==>
              forall i :: 0 <= i < |series| ==> AddRollingAverages(series)[i].wpm30.None?
  {
  }

  /** On a steady series every defined rolling value equals that steady value. */
  lemma RollingOfSteadySeries(series: seq<DailyPoint>, c: real)
    requires forall i :: 0 <= i < |series| ==> series[i].wpm == c
    ensures forall i :: 0 <= i < |series| && AddRollingAverages(series)[i].wpm7.Some? ==>
              AddRollingAverages(series)[i].wpm7.value == c
    ensures forall i :: 0 <= i < |series| && AddRollingAverages(series)[i].wpm30.Some? ==>
              AddRollingAverages(series)[i].wpm30.value == c
  {
    var wpm := WpmSeries(series);
    var smooth := AddRollingAverages(series);
    assert forall x :: x in wpm ==> x == c;
    forall i | 3 <= i < |series| - 3 ensures smooth[i].wpm7.value == c {
      var w := wpm[i - 3 .. i + 4];
      assert forall x :: x in w ==> x in wpm;
      MeanConstant(w, c);
    }
    forall i | 15 <= i <= |series| - 15 ensures smooth[i].wpm30.value == c {
      var w := wpm[i - 15 .. i + 15];
      assert forall x :: x in w ==> x in wpm;
      MeanConstant(w, c);
    }
  }

  // ---------------------------------------------------------------------------------------
  // create_daily_averages: the three steps in sequence

  /** A date has a daily average exactly when some session took place on it. */
  lemma ObservedIffSessions(rows: seq<Session>, d: int)
    ensures Lookup(DailyAverages(rows), d).Some? <==> d in Dates(rows)
  {
    var daily := DailyAverages(rows);
    if d in Dates(rows) {
      var i :| 0 <= i < |daily| && daily[i].date == d;
    }
  }

  /** The daily averages satisfy what the reindexing needs: no duplicate dates, and both
      ends of their full date range observed. */
  lemma DailyAveragesFitTheirRange(rows: seq<Session>)
    requires |rows| > 0
    ensures |DailyAverages(rows)| > 0
    ensures UniqueDates(DailyAverages(rows))
    ensures EndsObserved(DailyAverages(rows), FullDateRange(DailyAverages(rows)))
  {
    var daily := DailyAverages(rows);
    var range := FullDateRange(daily);
    var lo :| 0 <= lo < |daily| && daily[lo].date == MinDate(daily);
    var hi :| 0 <= hi < |daily| && daily[hi].date == MaxDate(daily);
    assert Lookup(daily, range[0]).Some?;
    assert Lookup(daily, range[|range| - 1]).Some?;
  }

  /** `create_daily_averages` on the rows of a frame: one point per day from the first to
      the last session date, each observed date carrying its mean WPM. */
  function DailySeries(rows: seq<Session>): (series: seq<DailyPoint>)
    requires |rows| > 0
    ensures |series| > 0
    ensures forall i :: 0 <= i < |series| ==> series[i].date == series[0].date + i
    ensures series[0].date in Dates(rows) && series[|series| - 1].date in Dates(rows)
    ensures forall d :: d in Dates(rows) ==> series[0].date <= d <= series[|series| - 1].date
    ensures forall i :: 0 <= i < |series| && series[i].date in Dates(rows) ==>
              |WpmOn(rows, series[i].date)| > 0 && series[i].wpm == Mean(WpmOn(rows, series[i].date))
  {
    var daily := DailyAverages(rows);
    DailyAveragesFitTheirRange(rows);
    var range := FullDateRange(daily);
    RangeSpansSessionDates(rows);
    ObservedDaysKeepTheirMeans(rows);
    InterpolateMissingDates(daily, range)
  }

  /** The full date range of the daily averages starts and ends on session dates and covers
      every session date. */
  lemma RangeSpansSessionDates(rows: seq<Session>)
    requires |rows| > 0
    ensures |DailyAverages(rows)| > 0
    ensures var range := FullDateRange(DailyAverages(rows));
            range[0] in Dates(rows) && range[|range| - 1] in Dates(rows) &&
            forall d :: d in Dates(rows) ==> range[0] <= d <= range[|range| - 1]
  {
    var daily := DailyAverages(rows);
    DailyAveragesFitTheirRange(rows);
    var range := FullDateRange(daily);
    ObservedIffSessions(rows, range[0]);
    ObservedIffSessions(rows, range[|range| - 1]);
    forall d | d in Dates(rows) ensures range[0] <= d <= range[|range| - 1] {
      var k :| 0 <= k < |daily| && daily[k].date == d;
    }
  }

  /** After reindexing and interpolation, every session date still holds its mean WPM. */
  lemma ObservedDaysKeepTheirMeans(rows: seq<Session>)
    requires |rows| > 0
    ensures UniqueDates(DailyAverages(rows))
    ensures EndsObserved(DailyAverages(rows), FullDateRange(DailyAverages(rows)))
    ensures var series := InterpolateMissingDates(DailyAverages(rows), FullDateRange(DailyAverages(rows)));
            forall i :: 0 <= i < |series| && series[i].date in Dates(rows) ==>
              |WpmOn(rows, series[i].date)| > 0 && series[i].wpm == Mean(WpmOn(rows, series[i].date))
  {
    var daily := DailyAverages(rows);
    DailyAveragesFitTheirRange(rows);
    var range := FullDateRange(daily);
    var series := InterpolateMissingDates(daily, range);
    forall i | 0 <= i < |series| && series[i].date in Dates(rows)
      ensures |WpmOn(rows, series[i].date)| > 0 && series[i].wpm == Mean(WpmOn(rows, series[i].date))
    {
      var d := series[i].date;
      assert d == range[i];
      var k :| 0 <= k < |daily| && daily[k].date == d;
      assert series[i].wpm == daily[k].wpm;
    }
  }

  /** In an interpolated series, a gap's value lies between the values at the nearest
      observed positions on either side. */
  lemma GapBetweenNeighbours(daily: seq<DailyAverage>, range: seq<int>, i: int) returns (lo: int, hi: int)
    requires UniqueDates(daily) && EndsObserved(daily, range)
    requires 0 <= i < |range| && Lookup(daily, range[i]).None?
    ensures 0 <= lo < i < hi < |range|
    ensures Lookup(daily, range[lo]).Some? && Lookup(daily, range[hi]).Some?
    ensures forall k :: lo < k < hi ==> Lookup(daily, range[k]).None?
    ensures var series := InterpolateMissingDates(daily, range);
            Between(series[i].wpm, series[lo].wpm, series[hi].wpm)
  {
    assert 0 < i < |range| - 1;
    lo, hi := PrevObserved(daily, range, i), NextObserved(daily, range, i);
    ObservedValueKept(daily, range, lo);
    ObservedValueKept(daily, range, hi);
    GapFilled(daily, range, i);
    GapValueBetween(daily, range, i);
    forall k | lo < k < hi ensures Lookup(daily, range[k]).None? {
      if k < i {
        assert lo < k < i;
      } else if i < k {
        assert i < k < hi;
      }
    }
  }

  /** At a gap the interpolated series holds the value on the line between its neighbours. */
  lemma GapFilled(daily: seq<DailyAverage>, range: seq<int>, i: int)
    requires UniqueDates(daily) && EndsObserved(daily, range)
    requires 0 < i < |range| - 1 && Lookup(daily, range[i]).None?
    ensures InterpolateMissingDates(daily, range)[i].wpm == GapValue(daily, range, i)
  {
    assert InterpolateMissingDates(daily, range)[i].wpm == InterpolatedValue(daily, range, i);
  }

  /** At an observed position the interpolated series holds the observed value. */
  lemma ObservedValueKept(daily: seq<DailyAverage>, range: seq<int>, j: int)
    requires UniqueDates(daily) && EndsObserved(daily, range)
    requires 0 <= j < |range| && Lookup(daily, range[j]).Some?
    ensures InterpolateMissingDates(daily, range)[j].wpm == Lookup(daily, range[j]).value
  {
    assert InterpolateMissingDates(daily, range)[j].wpm == InterpolatedValue(daily, range, j);
  }

  /** A day without sessions lies strictly between two days with sessions, and its value lies
      between their daily means. */
  lemma DailySeriesGap(rows: seq<Session>, i: int)
    requires |rows| > 0 && 0 <= i < |DailySeries(rows)|
    requires DailySeries(rows)[i].date !in Dates(rows)
    ensures var series := DailySeries(rows);
            exists lo, hi :: 0 <= lo < i < hi < |series| &&
              series[lo].date in Dates(rows) && series[hi].date in Dates(rows) &&
              (forall k :: lo < k < hi ==> series[k].date !in Dates(rows)) &&
              Between(series[i].wpm, series[lo].wpm, series[hi].wpm)
  {
    var daily := DailyAverages(rows);
    DailyAveragesFitTheirRange(rows);
    var range := FullDateRange(daily);
    var series := DailySeries(rows);
    assert series == InterpolateMissingDates(daily, range);
    ObservedIffSessions(rows, range[i]);
    var lo, hi := GapBetweenNeighbours(daily, range, i);
    ObservedIffSessions(rows, range[lo]);
    ObservedIffSessions(rows, range[hi]);
    forall k | lo < k < hi ensures series[k].date !in Dates(rows) {
      ObservedIffSessions(rows, range[k]);
    }
  }

  /** Daily averages of 10 and 50 four days apart give five evenly spaced points. */
  lemma EvenlySpacedFillExample(daily: seq<DailyAverage>)
    requires daily == [DailyAverage(0, 10.0), DailyAverage(4, 50.0)]
    ensures var series := InterpolateMissingDates(daily, FullDateRange(daily));
            |series| == 5 &&
            (forall i :: 0 <= i < 5 ==> series[i].date == i) &&
            series[0].wpm == 10.0 && series[1].wpm == 20.0 && series[2].wpm == 30.0 &&
            series[3].wpm == 40.0 && series[4].wpm == 50.0
  {
    var range := FullDateRange(daily);
    assert range == [0, 1, 2, 3, 4];
    assert UniqueDates(daily);
    assert Lookup(daily, range[0]) == Some(10.0) && Lookup(daily, range[4]) == Some(50.0);
    assert Lookup(daily, range[1]).None? && Lookup(daily, range[2]).None? && Lookup(daily, range[3]).None?;
    var series := InterpolateMissingDates(daily, range);
    assert 10.0 + 10.0 * (4 as real) == 50.0;
    assert series[0].wpm == 10.0 by { ObservedValueKept(daily, range, 0); }
    assert series[4].wpm == 50.0 by { ObservedValueKept(daily, range, 4); }
    assert series[1].wpm == 20.0 by {
      FiveDayFill(daily, range, 10.0, 50.0, 1);
      LinePointEvenSteps(10.0, 10.0, 4, 1);
    }
    assert series[2].wpm == 30.0 by {
      FiveDayFill(daily, range, 10.0, 50.0, 2);
      LinePointEvenSteps(10.0, 10.0, 4, 2);
    }
    assert series[3].wpm == 40.0 by {
      FiveDayFill(daily, range, 10.0, 50.0, 3);
      LinePointEvenSteps(10.0, 10.0, 4, 3);
    }
  }

  /** Over five days of which only the first and last were observed, with values a and b, the
      day at position i lies on the line from a to b. */
  lemma FiveDayFill(daily: seq<DailyAverage>, range: seq<int>, a: real, b: real, i: int)
    requires UniqueDates(daily) && |range| == 5
    requires Lookup(daily, range[0]) == Some(a) && Lookup(daily, range[4]) == Some(b)
    requires Lookup(daily, range[1]).None? && Lookup(daily, range[2]).None?
    requires Lookup(daily, range[3]).None?
    requires 0 < i < 4
    ensures EndsObserved(daily, range)
    ensures InterpolateMissingDates(daily, range)[i].wpm == LinePoint(a, b, 4, i)
  {
    assert forall k :: 0 < k < 4 ==> Lookup(daily, range[k]).None? by {
      forall k | 0 < k < 4 ensures Lookup(daily, range[k]).None? {
        assert k == 1 || k == 2 || k == 3;
      }
    }
    PiecewiseLinear(daily, range, 0, 4, i);
    assert InterpolateMissingDates(daily, range)[i].wpm == InterpolatedValue(daily, range, i);
  }

  /** The daily series built from the sorted rows is the one built from the rows as loaded. */
  lemma DailySeriesIgnoresOrder(raw: seq<Session>)
    requires |raw| > 0
    ensures |SortByTimestamp(raw)| > 0
    ensures DailySeries(SortByTimestamp(raw)) == DailySeries(raw)
  {
    var sorted := SortByTimestamp(raw);
    assert |sorted| == |multiset(sorted)| == |multiset(raw)| == |raw|;
    DailyAveragesIgnoreOrder(sorted, raw);
  }

  /** Sessions that all fall on one calendar date give a one-point series with no rolling
      value of either window. */
  lemma SingleDateDataset(rows: seq<Session>)
    requires |rows| > 0
    requires forall r :: r in rows ==> CalendarDate(r.timestamp) == CalendarDate(rows[0].timestamp)
    ensures |DailySeries(rows)| == 1
    ensures AddRollingAverages(DailySeries(rows))[0].wpm7.None?
    ensures AddRollingAverages(DailySeries(rows))[0].wpm30.None?
  {
    var series := DailySeries(rows);
    assert forall d :: d in Dates(rows) ==> d == CalendarDate(rows[0].timestamp);
    assert series[0].date == series[|series| - 1].date;
  }

  /** The "Date" column that `_calculate_daily_averages` adds: each row's calendar date. */
  function DateColumn(rows: seq<Session>): seq<int>
  {
    seq(|rows|, i requires 0 <= i < |rows| => CalendarDate(rows[i].timestamp))
  }

  /** A session frame as the pipeline holds it: the parsed "Date/Time (UTC)" and "WPM"
      columns, and the "Date" column once the daily averages have been computed from it. */
  class SessionFrame {
    var rows: seq<Session>
    var dateColumn: Option<seq<int>>

    constructor (rows: seq<Session>)
      ensures this.rows == rows && dateColumn == None
    {
      this.rows := rows;
      dateColumn := None;
    }

    /** `_calculate_daily_averages`: writes the "Date" column into this frame, then groups. */
    method CalculateDailyAverages() returns (daily: seq<DailyAverage>)
      modifies this`dateColumn
      ensures dateColumn == Some(DateColumn(rows))
      ensures daily == DailyAverages(rows)
    {
      dateColumn := Some(DateColumn(rows));
      daily := DailyAverages(rows);
    }

    /** `create_daily_averages`: the daily series, leaving the "Date" column behind in this frame. */
    method CreateDailyAverages() returns (series: seq<DailyPoint>)
      requires |rows| > 0
      modifies this`dateColumn
      ensures dateColumn == Some(DateColumn(rows))
      ensures series == DailySeries(rows)
    {
      var daily := CalculateDailyAverages();
      DailyAveragesFitTheirRange(rows);
      var range := FullDateRange(daily);
      series := InterpolateMissingDates(daily, range);
    }
  }

  /** `prepare_data`: a new frame holding the rows sorted by timestamp; the caller's rows are
      values and stay as they were. */
  method PrepareData(raw: seq<Session>) returns (df: SessionFrame)
    ensures fresh(df)
    ensures df.rows == SortByTimestamp(raw) && df.dateColumn == None
  {
    df := new SessionFrame(SortByTimestamp(raw));
  }
}
