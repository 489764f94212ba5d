/** `TimeTracker` of parse/sched.py: statistics over durations delimited by
    a start record and a store record of the same job. The tracker's state
    is the `Tracker` value; the class `TimeTracker` holds the same state in
    fields and updates it in place, as the source does. */
module Durations {
  import opened Common
  import opened Records
  import Layout

  datatype Tracker = Tracker(
    begin: int,          // start of the current duration
    avg: real,           // running average of the recorded durations
    max: int,            // largest recorded duration
    num: nat,            // number of recorded durations
    nextJob: int,        // job of the last start_time
    joinJob: bool,       // stored by the constructor, never read
    matches: nat,        // store_time calls whose job matched, after the first
    disjoints: nat,      // store_time calls whose job did not match
    last: Option<Record> // record of the last matching store_time
  )

  function NewTracker(joinJob: bool): Tracker
  {
    Tracker(0, 0.0, 0, 0, 0, joinJob, 0, 0, None)
  }

  /** `dur` in `store_time`: from `begin` to the last matching stored
      record, or -1 when there is none. */
  function Duration(t: Tracker): int
  {
    match t.last
    case None => -1
    case Some(l) => Time(l) - t.begin
  }

  /** The running average once a `num + 1`-th duration `dur` is recorded.
      As written, `float(num / (num + 1))` divides two integers and is 0. */
  function AvgUpdate(p: Policy, avg: real, num: nat, dur: int): real
  {
    avg * Scale(p, num) + dur as real / (num + 1) as real
  }

  /** The factor `float(num / (num + 1))` applied to the old average. */
  function Scale(p: Policy, num: nat): real
  {
    match p
    case AsWritten => PyDiv(num, num + 1) as real
    case Corrected => num as real / (num + 1) as real
  }

  /** `store_time(next)`. */
  function Store(p: Policy, t: Tracker, next: Record): Tracker
  {
    var dur := Duration(t);
    if t.nextJob == next.hdr.job then
      var m := t.(matches := t.matches + (if t.last.Some? then 1 else 0), last := Some(next));
      if dur > 0 then
        m.(max := Max(t.max, dur), avg := AvgUpdate(p, t.avg, t.num, dur),
           num := t.num + 1, begin := 0, nextJob := 0)
      else m
    else t.(disjoints := t.disjoints + 1)
  }

  /** Python truth of the optional `time` argument: None and 0 are false. */
  predicate Given(time: Option<int>)
  {
    time.Some? && time.value != 0
  }

  /** `start_time(record, time)`. */
  function Start(t: Tracker, r: Record, time: Option<int>): Tracker
  {
    var b := if t.last.None? then t.begin
      else if !Given(time) then Time(t.last.value)
      else time.value;
    t.(begin := b, nextJob := r.hdr.job)
  }

  /** A store whose job differs from the started one only counts a
      disjoint; one whose job matches latches the record and counts a match
      when an earlier record was latched. */
  lemma StoreCounts(p: Policy, t: Tracker, next: Record)
    ensures var u := Store(p, t, next);
      && u.joinJob == t.joinJob
      && (t.nextJob != next.hdr.job ==> u == t.(disjoints := t.disjoints + 1))
      && (t.nextJob == next.hdr.job ==>
            u.last == Some(next) && u.disjoints == t.disjoints
            && u.matches == t.matches + (if t.last.Some? then 1 else 0))
  {
  }

  /** A duration is recorded exactly when the job matches and the duration
      is positive; it then raises `max` to at least that duration and resets
      `begin` and the expected job. Otherwise the statistics and the pending
      interval (`begin`, the expected job) stay as they were. */
  lemma StoreSample(p: Policy, t: Tracker, next: Record)
    ensures var u := Store(p, t, next);
      && (u.num == t.num + 1 <==> t.nextJob == next.hdr.job && Duration(t) > 0)
      && (u.num != t.num + 1 ==> u.num == t.num && u.max == t.max && u.avg == t.avg)
      && (u.num != t.num + 1 ==> u.begin == t.begin && u.nextJob == t.nextJob)
      && (u.num == t.num + 1 ==>
            u.max == Max(t.max, Duration(t)) && u.begin == 0 && u.nextJob == 0)
  {
  }

  /** `start_time` touches only `begin` and the expected job; `begin` moves
      only once a record is latched: to `time` when given, else to the
      latched record's time. */
  lemma StartEffects(t: Tracker, r: Record, time: Option<int>)
    ensures var u := Start(t, r, time);
      && u.(begin := t.begin, nextJob := t.nextJob) == t
      && u.nextJob == r.hdr.job
      && (t.last.None? ==> u.begin == t.begin)
      && (t.last.Some? && Given(time) ==> u.begin == time.value)
      && (t.last.Some? && !Given(time) ==> u.begin == Time(t.last.value))
  {
  }

  /** A start without `time` directly followed by its store never records a
      duration: with a latched record `begin` is set to the end of the
      duration the store then measures, so `dur` is 0; without one `dur` is
      -1. */
  lemma PairedStartStoreRecordsNothing(p: Policy, t: Tracker, r: Record, next: Record)
    ensures var u := Store(p, Start(t, r, None), next);
      u.num == t.num && u.avg == t.avg && u.max == t.max
  {
    assert Duration(Start(t, r, None)) <= 0;
  }

  /** A store that follows another store of the same job without a start in
      between can record a duration. On the block tracker of one job, Block
      at 10, Resume at 20, Block at 25, Resume at 30 and Resume at 40 (a
      Block record before the last Resume lost) record 30 - 20 = 10: the
      Resume at 30 measures 0 and leaves `begin` at 20. */
  lemma UnpairedStoreRecords(p: Policy)
    ensures var h := Header(Layout.BlockTag, 0, 1, 2);
      var g := Header(Layout.ResumeTag, 0, 1, 2);
      var t1 := Start(NewTracker(false), Record(h, Block(10)), None);
      var t2 := Store(p, t1, Record(g, Resume(20)));
      var t3 := Start(t2, Record(h, Block(25)), None);
      var t4 := Store(p, t3, Record(g, Resume(30)));
      var t5 := Store(p, t4, Record(g, Resume(40)));
      t4.num == 0 && t5.num == 1 && t5.max == 10
  {
  }

  /** Consistency of the statistics: no more recorded durations than
      matches, and the average lies between 0 and the maximum. */
  predicate TrackerInv(t: Tracker)
  {
    && t.num <= t.matches
    && 0.0 <= t.avg <= t.max as real
    && (t.num == 0 ==> t.avg == 0.0 && t.max == 0)
  }

  lemma NewTrackerInv(joinJob: bool)
    ensures TrackerInv(NewTracker(joinJob))
  {
  }

  lemma AvgUpdateBounds(p: Policy, avg: real, num: nat, dur: int, hi: int)
    requires 0.0 <= avg <= hi as real && 0 < dur <= hi
    ensures 0.0 <= AvgUpdate(p, avg, num, dur) <= hi as real
  {
    var n1 := (num + 1) as real;
    ShareBounds(dur as real, hi as real, n1);
    match p
    case AsWritten =>
      assert PyDiv(num, num + 1) == 0;
      assert hi as real / n1 <= hi as real;
    case Corrected =>
      WeightedBound(avg, hi as real, num as real);
  }

  /** `x / n` lies between 0 and `h / n` when `x` lies between 0 and `h`. */
  lemma ShareBounds(x: real, h: real, n: real)
    requires 0.0 <= x <= h && n >= 1.0
    ensures 0.0 <= x / n <= h / n <= h
  {
  }

  /** Weighting a value at most `h` by `n / (n + 1)` and adding `h / (n + 1)`
      stays at most `h`. */
  lemma WeightedBound(a: real, h: real, n: real)
    requires 0.0 <= a <= h && n >= 0.0
    ensures 0.0 <= a * (n / (n + 1.0)) && a * (n / (n + 1.0)) + h / (n + 1.0) <= h
  {
    var w := n / (n + 1.0);
    assert 0.0 <= w;
    assert a * w <= h * w;
    assert h * w + h / (n + 1.0) == h * ((n + 1.0) / (n + 1.0));
  }

  lemma StorePreservesInv(p: Policy, t: Tracker, next: Record)
    requires TrackerInv(t)
    ensures TrackerInv(Store(p, t, next))
  {
    var dur := Duration(t);
    if t.nextJob == next.hdr.job && dur > 0 {
      assert t.last.Some?;
      AvgUpdateBounds(p, t.avg, t.num, dur, Max(t.max, dur));
    }
  }

  lemma StartPreservesInv(t: Tracker, r: Record, time: Option<int>)
    requires TrackerInv(t)
    ensures TrackerInv(Start(t, r, time))
  {
  }

  /** The average of a series of recorded durations, built one sample at a time. */
  function SampleAvg(p: Policy, ds: seq<int>): real
  {
    if ds == [] then 0.0
    else AvgUpdate(p, SampleAvg(p, ds[..|ds| - 1]), |ds| - 1, ds[|ds| - 1])
  }

  function Total(ds: seq<int>): int
  {
    if ds == [] then 0 else Total(ds[..|ds| - 1]) + ds[|ds| - 1]
  }

  /** As written, the "average" is the last duration divided by the count. */
  lemma SampleAvgAsWritten(ds: seq<int>)
    requires ds != []
    ensures SampleAvg(AsWritten, ds) == ds[|ds| - 1] as real / |ds| as real
  {
    assert PyDiv(|ds| - 1, |ds|) == 0;
  }

  /** Corrected, it is the mean of the recorded durations. */
  lemma {:induction false} SampleAvgCorrected(ds: seq<int>)
    ensures SampleAvg(Corrected, ds) * |ds| as real == Total(ds) as real
  {
    if ds != [] {
      var init := ds[..|ds| - 1];
      var a := SampleAvg(Corrected, init);
      var n := |init| as real;
      var n1 := n + 1.0;
      var d := ds[|ds| - 1] as real;
      SampleAvgCorrected(init);
      assert SampleAvg(Corrected, ds) == a * (n / n1) + d / n1;
      MeanStep(a, n, d);
    }
  }

  /** Multiplying the updated average by the new count gives the old total
      plus the new sample. */
  lemma MeanStep(a: real, n: real, d: real)
    requires n >= 0.0
    ensures (a * (n / (n + 1.0)) + d / (n + 1.0)) * (n + 1.0) == a * n + d
  {
    var n1 := n + 1.0;
    assert (n / n1) * n1 == n;
    assert (d / n1) * n1 == d;
  }

  /** Two durations 4 and 2 average 1.0 as written, where 3.0 is meant. */
  lemma AvgCounterexample()
    ensures SampleAvg(AsWritten, [4, 2]) == 1.0
    ensures SampleAvg(Corrected, [4, 2]) == 3.0
  {
    SampleAvgCorrected([4, 2]);
    assert [4, 2][..1] == [4];
    assert [4][..0] == [];
  }

  /** The tracker summarizes the durations `ds` it recorded. */
  predicate Summarizes(p: Policy, t: Tracker, ds: seq<int>)
  {
    t.num == |ds| && t.avg == SampleAvg(p, ds)
  }

  /** Each store keeps the average equal to SampleAvg over the recorded
      durations, appending `Duration(t)` when it records one. */
  lemma StoreSummarizes(p: Policy, t: Tracker, next: Record, ds: seq<int>)
    requires Summarizes(p, t, ds)
    ensures var u := Store(p, t, next);
      Summarizes(p, u, if u.num == t.num then ds else ds + [Duration(t)])
  {
    var ds' := ds + [Duration(t)];
    assert ds'[..|ds'| - 1] == ds;
  }

  /** The in-place tracker: its fields are those of `Tracker`. */
  class TimeTracker {
    var begin: int
    var avg: real
    var max: int
    var num: nat
    var nextJob: int
    const joinJob: bool
    var matches: nat
    var disjoints: nat
    var lastRecord: Option<Record>

    function State(): Tracker
      reads this
    {
      Tracker(begin, avg, max, num, nextJob, joinJob, matches, disjoints, lastRecord)
    }

    constructor (joinJob: bool)
      ensures State() == NewTracker(joinJob)
    {
      begin, avg, max, num, nextJob := 0, 0.0, 0, 0, 0;
      this.joinJob := joinJob;
      matches, disjoints := 0, 0;
      lastRecord := None;
    }

    method StoreTime(p: Policy, next: Record)
      modifies this
      ensures State() == Store(p, old(State()), next)
    {
      var dur := if lastRecord.Some? then Time(lastRecord.value) - begin else -1;
      if nextJob == next.hdr.job {
        if lastRecord.Some? {
          matches := matches + 1;
        }
        lastRecord := Some(next);
        if dur > 0 {
          max := Max(max, dur);
          avg := avg * Scale(p, num);
          num := num + 1;
          avg := avg + dur as real / num as real;
          begin := 0;
          nextJob := 0;
        }
      } else {
        disjoints := disjoints + 1;
      }
    }

    method StartTime(r: Record, time: Option<int>)
      modifies this
      ensures State() == Start(old(State()), r, time)
    {
      if lastRecord.Some? {
        if !Given(time) {
          begin := Time(lastRecord.value);
        } else {
          begin := time.value;
        }
      }
      nextJob := r.hdr.job;
    }
  }
}
