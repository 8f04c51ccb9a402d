/**
 * Turning transaction records into a gap-free daily sales series for one
 * channel: filter on the channel name, sum the amounts per day (a group-by on
 * the date), then re-index to every day from the first to the last observed
 * day, with 0 on the days that have no transaction.
 *
 * Calendar dates are day numbers (`int`); amounts are integer minor units.
 */
module DailySeries {

  /** One transaction row, reduced to the three columns the aggregation reads. */
  datatype Record = Record(channel: string, amount: nat, day: int)

  /** A daily series: `values[i]` is the total for day `start + i`. */
  datatype Series = Series(start: int, values: seq<nat>)

  /** Sum of a sequence of naturals. */
  function Sum(s: seq<nat>): nat
  {
    if s == [] then 0 else s[0] + Sum(s[1..])
  }

  /** Sum of the amounts of the given records, whatever their channel or day. */
  function Total(rs: seq<Record>): nat
  {
    if rs == [] then 0 else rs[0].amount + Total(rs[1..])
  }

  /** Reference definition: the amount a channel sold on one day, read straight off the records. */
  function AmountOn(rs: seq<Record>, channel: string, d: int): nat
  {
    if rs == [] then 0
    else (if rs[0].channel == channel && rs[0].day == d then rs[0].amount else 0)
         + AmountOn(rs[1..], channel, d)
  }

  /** Reference definition: total amount a channel sold over all its records. */
  function ChannelTotal(rs: seq<Record>, channel: string): nat
  {
    if rs == [] then 0
    else (if rs[0].channel == channel then rs[0].amount else 0) + ChannelTotal(rs[1..], channel)
  }

  /** The rows whose channel name equals `channel`, in their original order. */
  function Filter(rs: seq<Record>, channel: string): (f: seq<Record>)
    ensures |f| <= |rs|
  {
    if rs == [] then []
    else if rs[0].channel == channel then [rs[0]] + Filter(rs[1..], channel)
    else Filter(rs[1..], channel)
  }

  /** Sum of the amounts of the records dated `d`. */
  function DayTotal(rs: seq<Record>, d: int): nat
  {
    if rs == [] then 0
    else (if rs[0].day == d then rs[0].amount else 0) + DayTotal(rs[1..], d)
  }

  /** Adds one record's amount to its day's running total. */
  function AddRecord(m: map<int, nat>, r: Record): (m': map<int, nat>)
    ensures m'.Keys == m.Keys + {r.day}
  {
    m[r.day := (if r.day in m then m[r.day] else 0) + r.amount]
  }

  /** The group-by on the date column with a sum over amounts: one key per observed day. */
  function GroupByDay(rs: seq<Record>): map<int, nat>
  {
    if rs == [] then map[] else AddRecord(GroupByDay(rs[1..]), rs[0])
  }

  /** The earliest day among the records. */
  function MinDay(rs: seq<Record>): (m: int)
    requires rs != []
    ensures m <= rs[0].day
  {
    if |rs| == 1 then rs[0].day
    else
      var rest := MinDay(rs[1..]);
      if rs[0].day <= rest then rs[0].day else rest
  }

  /** The latest day among the records. */
  function MaxDay(rs: seq<Record>): (m: int)
    requires rs != []
    ensures rs[0].day <= m
  {
    if |rs| == 1 then rs[0].day
    else
      var rest := MaxDay(rs[1..]);
      if rs[0].day >= rest then rs[0].day else rest
  }

  /** Daily re-indexing from `lo` to `hi`: every day gets its group total, or 0 when absent. */
  function AsFreq(m: map<int, nat>, lo: int, hi: int): (s: Series)
    requires lo <= hi
    ensures s.start == lo && |s.values| == hi - lo + 1
  {
    Series(lo, seq(hi - lo + 1, i requires 0 <= i <= hi - lo => if lo + i in m then m[lo + i] else 0))
  }

  /**
   * The daily series of one channel. With no record of the channel, the
   * group-by is empty and so is the re-indexed series.
   */
  function Aggregate(rs: seq<Record>, channel: string): Series
  {
    var f := Filter(rs, channel);
    if f == [] then Series(0, [])
    else AsFreq(GroupByDay(f), MinDay(f), MaxDay(f))
  }

  /** The last day a non-empty series covers. */
  function LastDay(s: Series): (d: int)
    requires s.values != []
    ensures s.start <= d
  {
    s.start + |s.values| - 1
  }

  // ---------------------------------------------------------------------
  // Lemmas

  /** The filter keeps exactly the records of the channel. */
  lemma {:induction false} FilterMembers(rs: seq<Record>, channel: string)
    ensures forall r :: r in Filter(rs, channel) <==> r in rs && r.channel == channel
  {
    if rs != [] {
      FilterMembers(rs[1..], channel);
      assert forall r :: r in rs <==> r == rs[0] || r in rs[1..];
    }
  }

  /** MinDay is the least day of the records, and some record carries it. */
  lemma {:induction false} MinDayIsLeast(rs: seq<Record>)
    requires rs != []
    ensures forall r :: r in rs ==> MinDay(rs) <= r.day
    ensures exists r :: r in rs && r.day == MinDay(rs)
  {
    assert rs[0] in rs;
    if |rs| == 1 {
      assert forall r :: r in rs ==> r == rs[0];
    } else {
      MinDayIsLeast(rs[1..]);
      assert forall r :: r in rs <==> r == rs[0] || r in rs[1..];
    }
  }

  /** MaxDay is the greatest day of the records, and some record carries it. */
  lemma {:induction false} MaxDayIsGreatest(rs: seq<Record>)
    requires rs != []
    ensures forall r :: r in rs ==> r.day <= MaxDay(rs)
    ensures exists r :: r in rs && r.day == MaxDay(rs)
  {
    assert rs[0] in rs;
    if |rs| == 1 {
      assert forall r :: r in rs ==> r == rs[0];
    } else {
      MaxDayIsGreatest(rs[1..]);
      assert forall r :: r in rs <==> r == rs[0] || r in rs[1..];
    }
  }

  /** The group-by has one key per day that some record carries, and no other. */
  lemma {:induction false} GroupByDayKeys(rs: seq<Record>)
    ensures forall d :: d in GroupByDay(rs) <==> exists r :: r in rs && r.day == d
  {
    if rs != [] {
      GroupByDayKeys(rs[1..]);
      assert forall r :: r in rs <==> r == rs[0] || r in rs[1..];
    }
  }

  lemma {:induction false} GroupByDayTotal(rs: seq<Record>, d: int)
    ensures (if d in GroupByDay(rs) then GroupByDay(rs)[d] else 0) == DayTotal(rs, d)
  {
    if rs != [] {
      GroupByDayTotal(rs[1..], d);
    }
  }

  lemma {:induction false} FilterDayTotal(rs: seq<Record>, channel: string, d: int)
    ensures DayTotal(Filter(rs, channel), d) == AmountOn(rs, channel, d)
  {
    if rs != [] {
      FilterDayTotal(rs[1..], channel, d);
      if rs[0].channel == channel {
        assert ([rs[0]] + Filter(rs[1..], channel))[1..] == Filter(rs[1..], channel);
      }
    }
  }

  lemma {:induction false} FilterTotal(rs: seq<Record>, channel: string)
    ensures Total(Filter(rs, channel)) == ChannelTotal(rs, channel)
  {
    if rs != [] {
      FilterTotal(rs[1..], channel);
      if rs[0].channel == channel {
        assert ([rs[0]] + Filter(rs[1..], channel))[1..] == Filter(rs[1..], channel);
      }
    }
  }

  /** A channel has no amount on a day none of its records carries. */
  lemma {:induction false} AmountOnAbsent(rs: seq<Record>, channel: string, d: int)
    requires forall r :: r in rs && r.channel == channel ==> r.day != d
    ensures AmountOn(rs, channel, d) == 0
  {
    if rs != [] {
      assert rs[0] in rs;
      AmountOnAbsent(rs[1..], channel, d);
    }
  }

  /** The series is empty exactly when the channel has no record. */
  lemma AggregateEmpty(rs: seq<Record>, channel: string)
    ensures Aggregate(rs, channel).values == [] <==> forall r :: r in rs ==> r.channel != channel
  {
    var f := Filter(rs, channel);
    FilterMembers(rs, channel);
    if f != [] {
      assert f[0] in f;
    }
  }

  /**
   * A non-empty series runs from the channel's earliest to its latest day,
   * one entry per day: every record of the channel falls inside it, and both
   * ends are days some record of the channel carries.
   */
  lemma AggregateSpan(rs: seq<Record>, channel: string)
    requires exists r :: r in rs && r.channel == channel
    ensures var s := Aggregate(rs, channel);
      && s.values != []
      && (forall r :: r in rs && r.channel == channel ==> s.start <= r.day <= LastDay(s))
      && (exists r :: r in rs && r.channel == channel && r.day == s.start)
      && (exists r :: r in rs && r.channel == channel && r.day == LastDay(s))
  {
    var f := Filter(rs, channel);
    FilterMembers(rs, channel);
    var r :| r in rs && r.channel == channel;
    assert r in f;
    MinDayIsLeast(f);
    MaxDayIsGreatest(f);
  }

  /**
   * Each entry is the channel's amount on its day: the sum over that
   * channel's records dated that day, which is 0 when there is none.
   */
  lemma {:induction false} AggregateValue(rs: seq<Record>, channel: string, i: int)
    requires 0 <= i < |Aggregate(rs, channel).values|
    ensures Aggregate(rs, channel).values[i] == AmountOn(rs, channel, Aggregate(rs, channel).start + i)
  {
    var f := Filter(rs, channel);
    assert f != [];
    var lo, hi := MinDay(f), MaxDay(f);
    var s := AsFreq(GroupByDay(f), lo, hi);
    assert Aggregate(rs, channel) == s;
    GroupedEntry(rs, channel, f, GroupByDay(f), lo, hi, i);
    assert s.values[i] == AmountOn(rs, channel, s.start + i);
  }

  /** A day inside the span with no record of the channel holds 0. */
  lemma AggregateGapIsZero(rs: seq<Record>, channel: string, i: int)
    requires 0 <= i < |Aggregate(rs, channel).values|
    requires forall r :: r in rs && r.channel == channel ==> r.day != Aggregate(rs, channel).start + i
    ensures Aggregate(rs, channel).values[i] == 0
  {
    AggregateValue(rs, channel, i);
    AmountOnAbsent(rs, channel, Aggregate(rs, channel).start + i);
  }

  lemma GroupedEntry(rs: seq<Record>, channel: string, f: seq<Record>, m: map<int, nat>, lo: int, hi: int, i: int)
    requires f == Filter(rs, channel) && m == GroupByDay(f)
    requires lo <= hi && 0 <= i <= hi - lo
    ensures AsFreq(m, lo, hi).values[i] == AmountOn(rs, channel, lo + i)
  {
    AsFreqAt(m, lo, hi, i);
    GroupByDayTotal(f, lo + i);
    FilterDayTotal(rs, channel, lo + i);
  }

  lemma AsFreqAt(m: map<int, nat>, lo: int, hi: int, i: int)
    requires lo <= hi && 0 <= i <= hi - lo
    ensures AsFreq(m, lo, hi).values[i] == if lo + i in m then m[lo + i] else 0
  {
  }

  // Sum of the day totals over the days lo, lo+1, ..., lo+n-1.
  function DaysTotal(rs: seq<Record>, lo: int, n: nat): nat
    decreases n
  {
    if n == 0 then 0 else DayTotal(rs, lo) + DaysTotal(rs, lo + 1, n - 1)
  }

  lemma {:induction false} DaysTotalCons(r: Record, rs: seq<Record>, lo: int, n: nat)
    ensures DaysTotal([r] + rs, lo, n)
         == (if lo <= r.day < lo + n then r.amount else 0) + DaysTotal(rs, lo, n)
    decreases n
  {
    if n > 0 {
      assert ([r] + rs)[1..] == rs;
      DaysTotalCons(r, rs, lo + 1, n - 1);
    }
  }

  lemma {:induction false} DaysTotalCovers(rs: seq<Record>, lo: int, n: nat)
    requires forall r :: r in rs ==> lo <= r.day < lo + n
    ensures DaysTotal(rs, lo, n) == Total(rs)
  {
    if rs == [] {
      DaysTotalEmpty(lo, n);
    } else {
      assert rs[0] in rs;
      DaysTotalCovers(rs[1..], lo, n);
      assert [rs[0]] + rs[1..] == rs;
      DaysTotalCons(rs[0], rs[1..], lo, n);
    }
  }

  lemma {:induction false} DaysTotalEmpty(lo: int, n: nat)
    ensures DaysTotal([], lo, n) == 0
    decreases n
  {
    if n > 0 {
      DaysTotalEmpty(lo + 1, n - 1);
    }
  }

  lemma {:induction false} SumAsFreq(m: map<int, nat>, rs: seq<Record>, lo: int, hi: int, k: nat)
    requires lo <= hi && k <= hi - lo + 1
    requires forall d :: (if d in m then m[d] else 0) == DayTotal(rs, d)
    ensures Sum(AsFreq(m, lo, hi).values[hi - lo + 1 - k..]) == DaysTotal(rs, hi + 1 - k, k)
  {
    var v := AsFreq(m, lo, hi).values;
    if k > 0 {
      var j := hi - lo + 1 - k;
      SumAsFreq(m, rs, lo, hi, k - 1);
      assert v[j..][1..] == v[j + 1..];
      assert v[j] == DayTotal(rs, lo + j);
    }
  }

  /**
   * No amount is created or lost: the series sums to the channel's total
   * over its records.
   */
  lemma AggregateTotal(rs: seq<Record>, channel: string)
    ensures Sum(Aggregate(rs, channel).values) == ChannelTotal(rs, channel)
  {
    var f := Filter(rs, channel);
    FilterTotal(rs, channel);
    if f != [] {
      GroupedTotal(f);
    }
  }

  lemma GroupedTotal(f: seq<Record>)
    requires f != []
    ensures Sum(AsFreq(GroupByDay(f), MinDay(f), MaxDay(f)).values) == Total(f)
  {
    var lo, hi := MinDay(f), MaxDay(f);
    var m := GroupByDay(f);
    forall d ensures (if d in m then m[d] else 0) == DayTotal(f, d) {
      GroupByDayTotal(f, d);
    }
    MinDayIsLeast(f);
    MaxDayIsGreatest(f);
    SumAsFreq(m, f, lo, hi, hi - lo + 1);
    assert AsFreq(m, lo, hi).values[0..] == AsFreq(m, lo, hi).values;
    DaysTotalCovers(f, lo, hi - lo + 1);
  }

  lemma {:induction false} FilterAppendOther(rs: seq<Record>, r: Record, channel: string)
    requires r.channel != channel
    ensures Filter(rs + [r], channel) == Filter(rs, channel)
  {
    if rs != [] {
      assert (rs + [r])[1..] == rs[1..] + [r];
      FilterAppendOther(rs[1..], r, channel);
    }
  }

  lemma {:induction false} FilterPrependOther(rs: seq<Record>, r: Record, channel: string)
    requires r.channel != channel
    ensures Filter([r] + rs, channel) == Filter(rs, channel)
  {
  }

  /** A record of another channel, added before or after the rest, leaves the series unchanged. */
  lemma OtherChannelIgnored(rs: seq<Record>, r: Record, channel: string)
    requires r.channel != channel
    ensures Aggregate(rs + [r], channel) == Aggregate(rs, channel)
    ensures Aggregate([r] + rs, channel) == Aggregate(rs, channel)
  {
    FilterAppendOther(rs, r, channel);
    FilterPrependOther(rs, r, channel);
  }

  lemma {:induction false} FilterIdempotent(rs: seq<Record>, channel: string)
    ensures Filter(Filter(rs, channel), channel) == Filter(rs, channel)
  {
    if rs != [] {
      FilterIdempotent(rs[1..], channel);
      var f := Filter(rs[1..], channel);
      if rs[0].channel == channel {
        assert ([rs[0]] + f)[1..] == f;
      }
    }
  }

  /**
   * Only the channel's own records matter: dropping every record of other
   * channels, wherever they stand and however many there are, leaves the
   * series unchanged.
   */
  lemma OthersIgnored(rs: seq<Record>, channel: string)
    ensures Aggregate(Filter(rs, channel), channel) == Aggregate(rs, channel)
  {
    FilterIdempotent(rs, channel);
  }

  lemma {:induction false} AmountOnConcat(a: seq<Record>, b: seq<Record>, channel: string, d: int)
    ensures AmountOn(a + b, channel, d) == AmountOn(a, channel, d) + AmountOn(b, channel, d)
  {
    if a == [] {
      assert a + b == b;
    } else {
      assert (a + b)[0] == a[0];
      assert (a + b)[1..] == a[1..] + b;
      AmountOnConcat(a[1..], b, channel, d);
    }
  }

  lemma AmountOnSplit(a: seq<Record>, x: Record, b: seq<Record>, channel: string, d: int)
    ensures AmountOn(a + [x] + b, channel, d)
         == AmountOn([x], channel, d) + AmountOn(a + b, channel, d)
  {
    AmountOnConcat(a, b, channel, d);
    AmountOnConcat(a + [x], b, channel, d);
    AmountOnConcat(a, [x], channel, d);
  }

  lemma RemoveOne(rs1: seq<Record>, rs2: seq<Record>, k: int)
    requires multiset(rs1) == multiset(rs2) && rs1 != [] && 0 <= k < |rs2| && rs2[k] == rs1[0]
    ensures multiset(rs1[1..]) == multiset(rs2[..k] + rs2[k + 1..])
  {
    var x, a, b := rs1[0], rs2[..k], rs2[k + 1..];
    assert rs1 == [x] + rs1[1..];
    assert rs2 == a + [x] + b;
    assert multiset(rs2) == multiset(a) + multiset{x} + multiset(b);
    assert multiset(a + b) == multiset(a) + multiset(b);
    calc {
      multiset(rs1[1..]);
      multiset(rs1) - multiset{x};
      multiset(rs2) - multiset{x};
      multiset(a + b);
    }
  }

  lemma {:induction false} AmountOnPermutation(rs1: seq<Record>, rs2: seq<Record>, channel: string, d: int)
    requires multiset(rs1) == multiset(rs2)
    ensures AmountOn(rs1, channel, d) == AmountOn(rs2, channel, d)
    decreases |rs1|
  {
    if rs1 != [] {
      var x := rs1[0];
      assert x in multiset(rs2);
      var k :| 0 <= k < |rs2| && rs2[k] == x;
      var a, b := rs2[..k], rs2[k + 1..];
      assert rs2 == a + [x] + b;
      RemoveOne(rs1, rs2, k);
      AmountOnPermutation(rs1[1..], a + b, channel, d);
      AmountOnSplit(a, x, b, channel, d);
    }
  }

  lemma MinMaxSameMembers(f1: seq<Record>, f2: seq<Record>)
    requires f1 != [] && forall r :: r in f1 <==> r in f2
    ensures f2 != [] && MinDay(f1) == MinDay(f2) && MaxDay(f1) == MaxDay(f2)
  {
    assert f1[0] in f2;
    MinDayIsLeast(f1);
    MinDayIsLeast(f2);
    MaxDayIsGreatest(f1);
    MaxDayIsGreatest(f2);
  }

  lemma SameMembers(rs1: seq<Record>, rs2: seq<Record>)
    requires multiset(rs1) == multiset(rs2)
    ensures forall r :: r in rs1 <==> r in rs2
  {
    forall r ensures r in rs1 <==> r in rs2 {
      assert r in rs1 <==> r in multiset(rs1);
      assert r in rs2 <==> r in multiset(rs2);
    }
  }

  lemma SameValues(rs1: seq<Record>, rs2: seq<Record>, channel: string)
    requires multiset(rs1) == multiset(rs2)
    requires Aggregate(rs1, channel).start == Aggregate(rs2, channel).start
    requires |Aggregate(rs1, channel).values| == |Aggregate(rs2, channel).values|
    ensures Aggregate(rs1, channel) == Aggregate(rs2, channel)
  {
    var s1, s2 := Aggregate(rs1, channel), Aggregate(rs2, channel);
    forall i | 0 <= i < |s1.values| ensures s1.values[i] == s2.values[i] {
      SameValueAt(rs1, rs2, channel, i);
    }
    assert s1.values == s2.values;
  }

  lemma SameValueAt(rs1: seq<Record>, rs2: seq<Record>, channel: string, i: int)
    requires multiset(rs1) == multiset(rs2)
    requires Aggregate(rs1, channel).start == Aggregate(rs2, channel).start
    requires 0 <= i < |Aggregate(rs1, channel).values| == |Aggregate(rs2, channel).values|
    ensures Aggregate(rs1, channel).values[i] == Aggregate(rs2, channel).values[i]
  {
    var d := Aggregate(rs1, channel).start + i;
    AggregateValue(rs1, channel, i);
    AggregateValue(rs2, channel, i);
    AmountOnPermutation(rs1, rs2, channel, d);
  }

  /**
   * The row order of the input does not matter: any permutation of the
   * records gives the same series.
   */
  lemma AggregatePermutation(rs1: seq<Record>, rs2: seq<Record>, channel: string)
    requires multiset(rs1) == multiset(rs2)
    ensures Aggregate(rs1, channel) == Aggregate(rs2, channel)
  {
    var f1, f2 := Filter(rs1, channel), Filter(rs2, channel);
    FilterMembers(rs1, channel);
    FilterMembers(rs2, channel);
    SameMembers(rs1, rs2);
    if f1 != [] {
      MinMaxSameMembers(f1, f2);
      SameValues(rs1, rs2, channel);
    }
  }
}
