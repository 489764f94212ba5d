/** `LeveledArray` and `extract_sched_data` of parse/sched.py: per-task
    statistics grouped by metric name and criticality level, and written into
    the result under names such as "B-miss-ratio". The summary a
    `Measurement` makes of each sample list is not part of this model: the
    result holds the samples themselves. */
module Aggregate {
  import opened Common
  import opened Durations
  import opened Tasks

  const NsecPerMsec: int := 1000000

  /** Metric name -> level -> samples, the nested defaultdict of LeveledArray. */
  type Vals = map<string, map<string, seq<real>>>

  /** Python 2 `str` case mapping in the C locale: ASCII letters only. */
  function Upper(c: char): char
  {
    if 'a' <= c <= 'z' then (c as int - 32) as char else c
  }

  function Lower(c: char): char
  {
    if 'A' <= c <= 'Z' then (c as int + 32) as char else c
  }

  /** `str.capitalize()`: first character upper case, the rest lower case. */
  function Capitalize(s: string): (r: string)
    ensures |r| == |s|
    ensures s != [] ==> r[0] == Upper(s[0])
    ensures forall i :: 0 < i < |s| ==> r[i] == Lower(s[i])
  {
    if s == [] then []
    else [Upper(s[0])] + seq(|s| - 1, i requires 0 <= i < |s| - 1 => Lower(s[i + 1]))
  }

  /** The name a (metric, level) list is written under; an empty level adds no prefix. */
  function ResultName(level: string, stat: string): string
  {
    if level == [] then stat else Capitalize(level) + "-" + stat
  }

  lemma ResultNameExample()
    ensures ResultName("b", "miss-ratio") == "B-miss-ratio"
    ensures ResultName("", "LOAD") == "LOAD"
  {
  }

  /** A level as `ParamRecord.process` makes it: one letter `chr(97 + level)`. */
  predicate LetterLevel(l: string)
  {
    |l| == 1 && 97 <= l[0] as int <= 255
  }

  /** Distinct (level, metric) pairs get distinct names, so the order in
      which they are written does not matter. */
  lemma ResultNameInjective(l1: string, s1: string, l2: string, s2: string)
    requires LetterLevel(l1) && LetterLevel(l2)
    ensures ResultName(l1, s1) == ResultName(l2, s2) <==> l1 == l2 && s1 == s2
  {
    var n1, n2 := ResultName(l1, s1), ResultName(l2, s2);
    if n1 == n2 {
      assert n1[0] == Upper(l1[0]) && n2[0] == Upper(l2[0]);
      assert l1[0] == l2[0];
      assert l1 == [l1[0]] && l2 == [l2[0]];
      assert n1[2..] == s1 && n2[2..] == s2;
    }
  }

  /** The samples of one (metric, level) list; missing lists read as empty. */
  function Samples(vals: Vals, name: string, level: string): seq<real>
  {
    if name in vals && level in vals[name] then vals[name][level] else []
  }

  predicate Has(vals: Vals, name: string, level: string)
  {
    name in vals && level in vals[name]
  }

  /** `LeveledArray.add(name, level, values)` on values: the list grows by
      `values`, and no other list changes. */
  function AddSample(vals: Vals, name: string, level: string, values: seq<real>): Vals
  {
    var inner := if name in vals then vals[name] else map[];
    vals[name := inner[level := Samples(vals, name, level) + values]]
  }

  lemma AddSampleEffect(vals: Vals, name: string, level: string, values: seq<real>)
    ensures var r := AddSample(vals, name, level, values);
      && Samples(r, name, level) == Samples(vals, name, level) + values
      && (forall n, l :: (n != name || l != level) ==> Samples(r, n, l) == Samples(vals, n, l))
      && (forall n, l :: Has(r, n, l) <==> Has(vals, n, l) || (n == name && l == level))
  {
  }

  /** One `stat_data.add` of `extract_sched_data`. */
  datatype Entry = Entry(stat: string, level: string, values: seq<real>)

  function AddEntry(vals: Vals, e: Entry): Vals
  {
    AddSample(vals, e.stat, e.level, e.values)
  }

  /** The adds `es`, in order. */
  function AddEntries(vals: Vals, es: seq<Entry>): Vals
  {
    if es == [] then vals else AddEntry(AddEntries(vals, es[..|es| - 1]), es[|es| - 1])
  }

  lemma AddEntriesSnoc(vals: Vals, es: seq<Entry>, e: Entry)
    ensures AddEntries(vals, es + [e]) == AddEntry(AddEntries(vals, es), e)
  {
    assert (es + [e])[..|es|] == es;
  }

  /** The task's record loss: the share of store records whose job did not match. */
  function Loss(miss: Tracker): real
    requires miss.matches + miss.disjoints != 0
  {
    miss.disjoints as real / (miss.matches + miss.disjoints) as real
  }

  /** `avg_tard / period`: the average tardiness weighted by the miss ratio,
      over the period, in real division. */
  function AvgTard(miss: Tracker, period: int): real
    requires miss.matches != 0 && period != 0
  {
    miss.avg * (miss.num as real / miss.matches as real) / period as real
  }

  /** The tardiness adds of a kept task: miss ratio, and the largest and
      the average tardiness over the period. */
  function TardEntries(t: TaskState): seq<Entry>
    requires t.params.Some? && t.misses.matches != 0 && t.params.value.period != 0
  {
    var level := [t.params.value.level];
    var miss := t.misses;
    var period := t.params.value.period;
    var ratio := miss.num as real / miss.matches as real;
    [Entry("miss-ratio", level, [ratio]),
     Entry("max-tard", level, [PyDiv(miss.max, period) as real]),
     Entry("avg-tard", level, [AvgTard(miss, period)])]
  }

  /** The blocking adds of a kept task, in milliseconds, and its loads for level 'b'. */
  function BlockEntries(t: TaskState): seq<Entry>
    requires t.params.Some?
  {
    var level := [t.params.value.level];
    [Entry("avg-block", level, [t.blocks.avg / NsecPerMsec as real]),
     Entry("max-block", level, [PyDiv(t.blocks.max, NsecPerMsec) as real])]
    + (if t.params.value.level == 'b' then [Entry("LOAD", level, t.loads)] else [])
  }

  /** The adds the task loop of `extract_sched_data` makes for one task, or
      the exception it raises. */
  function TaskEntries(t: TaskState, maxLoss: real): Result<seq<Entry>>
  {
    if t.params.None? then Ok([])
    else
      var miss := t.misses;
      if miss.matches + miss.disjoints == 0 then Err(ZeroDivision)
      else
        var lossEntry := Entry("record-loss", [t.params.value.level], [Loss(miss)]);
        if Loss(miss) > maxLoss then Ok([lossEntry])
        else if miss.matches == 0 || t.params.value.period == 0 then Err(ZeroDivision)
        else Ok([lossEntry] + TardEntries(t) + BlockEntries(t))
  }

  /** When the task loop raises: a task with parameters but no store records
      at all, or one kept in the statistics without a matching store record
      or with period 0. */
  lemma TaskEntriesRaises(t: TaskState, maxLoss: real)
    ensures TaskEntries(t, maxLoss).Err? <==>
      t.params.Some? &&
      (t.misses.matches + t.misses.disjoints == 0 ||
       (Loss(t.misses) <= maxLoss && (t.misses.matches == 0 || t.params.value.period == 0)))
    ensures TaskEntries(t, maxLoss).Err? ==> TaskEntries(t, maxLoss).error == ZeroDivision
  {
  }

  /** Tasks without parameters contribute nothing; the record loss is added
      before the threshold test; a task whose loss is strictly above the
      threshold contributes nothing else, and a kept task contributes every
      metric, LOAD exactly for level 'b'. */
  lemma TaskEntriesShape(t: TaskState, maxLoss: real)
    requires TaskEntries(t, maxLoss).Ok?
    ensures var es := TaskEntries(t, maxLoss).value;
      && (t.params.None? <==> es == [])
      && (t.params.Some? ==>
            es[0] == Entry("record-loss", [t.params.value.level], [Loss(t.misses)])
            && (|es| == 1 <==> Loss(t.misses) > maxLoss)
            && (|es| > 1 ==> |es| == 6 + (if t.params.value.level == 'b' then 1 else 0)))
      && (forall e :: e in es ==> e.level == [t.params.value.level])
      && (forall e :: e in es && e.stat == "LOAD" ==> t.params.value.level == 'b' && e.values == t.loads)
  {
  }

  /** With consistent trackers, the miss ratio lies in [0, 1] and the
      average tardiness is at most the largest tardiness over the period. */
  lemma TardEntriesBounds(t: TaskState)
    requires TaskInv(t) && t.params.Some? && t.misses.matches != 0 && t.params.value.period > 0
    ensures var es := TardEntries(t);
      && 0.0 <= es[0].values[0] <= 1.0
      && 0.0 <= es[2].values[0] <= t.misses.max as real / t.params.value.period as real
  {
    var miss := t.misses;
    var ratio := miss.num as real / miss.matches as real;
    var period := t.params.value.period as real;
    Fraction(miss.num as real, miss.matches as real);
    ScaleDown(miss.avg, ratio);
    DivMono(0.0, miss.avg * ratio, period);
    DivMono(miss.avg * ratio, miss.max as real, period);
    assert TardEntries(t)[0].values[0] == ratio;
    assert TardEntries(t)[2].values[0] == AvgTard(miss, t.params.value.period);
  }

  /** With consistent trackers, the record loss and the miss ratio lie in
      [0, 1] and the average tardiness is at most the largest tardiness over
      the period. */
  lemma TaskEntriesBounds(t: TaskState, maxLoss: real)
    requires TaskInv(t) && TaskEntries(t, maxLoss).Ok? && |TaskEntries(t, maxLoss).value| > 1
    ensures var es := TaskEntries(t, maxLoss).value;
      && 0.0 <= es[0].values[0] <= 1.0
      && 0.0 <= es[1].values[0] <= 1.0
      && 0.0 <= es[3].values[0] <= t.misses.max as real / t.params.value.period as real
  {
    var es := TaskEntries(t, maxLoss).value;
    var miss := t.misses;
    assert 0.0 <= Loss(miss) <= 1.0;
    var tard := TardEntries(t);
    assert es == [es[0]] + tard + BlockEntries(t);
    assert es[1] == tard[0] && es[3] == tard[2];
    TardEntriesBounds(t);
  }

  /** The task loop over the tasks in `order`, the dictionary's iteration
      order; the first exception ends it. */
  function Collect(vals: Vals, tasks: map<nat, TaskState>, order: seq<nat>, maxLoss: real): Result<Vals>
    requires forall i :: 0 <= i < |order| ==> order[i] in tasks
    decreases |order|
  {
    if order == [] then Ok(vals)
    else match TaskEntries(tasks[order[0]], maxLoss)
      case Err(e) => Err(e)
      case Ok(es) => Collect(AddEntries(vals, es), tasks, order[1..], maxLoss)
  }

  /** Every name written for the lists of `vals`. */
  function Names(vals: Vals): set<string>
  {
    set n, l | n in vals && l in vals[n] :: ResultName(l, n)
  }

  function Pairs(vals: Vals): set<(string, string)>
  {
    set n, l | n in vals && l in vals[n] :: (n, l)
  }

  function NamesOf(ps: set<(string, string)>): set<string>
  {
    set pr | pr in ps :: ResultName(pr.1, pr.0)
  }

  predicate LetterLevels(vals: Vals)
  {
    forall n, l :: n in vals && l in vals[n] ==> LetterLevel(l)
  }

  /** `result` after `write_measurements`: the written names are added, other
      entries are kept, and when names do not collide each holds its list. */
  ghost predicate Written(result: map<string, seq<real>>, vals: Vals, r: map<string, seq<real>>)
  {
    && (forall n :: n in r <==> n in result || n in Names(vals))
    && (forall n :: n in result && n !in Names(vals) ==> r[n] == result[n])
    && (LetterLevels(vals) ==>
          forall n, l :: n in vals && l in vals[n] ==> ResultName(l, n) in r && r[ResultName(l, n)] == vals[n][l])
  }

  lemma AddEntriesLevels(vals: Vals, es: seq<Entry>)
    requires LetterLevels(vals) && forall e :: e in es ==> LetterLevel(e.level)
    ensures LetterLevels(AddEntries(vals, es))
  {
    if es != [] {
      AddEntriesLevels(vals, es[..|es| - 1]);
      var e := es[|es| - 1];
      AddSampleEffect(AddEntries(vals, es[..|es| - 1]), e.stat, e.level, e.values);
    }
  }

  lemma {:induction false} CollectLevels(vals: Vals, tasks: map<nat, TaskState>, order: seq<nat>, maxLoss: real)
    requires forall i :: 0 <= i < |order| ==> order[i] in tasks
    requires LetterLevels(vals) && LevelsOk(tasks)
    ensures Collect(vals, tasks, order, maxLoss).Ok? ==> LetterLevels(Collect(vals, tasks, order, maxLoss).value)
    decreases |order|
  {
    if order != [] {
      var t := tasks[order[0]];
      if TaskEntries(t, maxLoss).Ok? {
        var es := TaskEntries(t, maxLoss).value;
        TaskEntriesShape(t, maxLoss);
        AddEntriesLevels(vals, es);
        CollectLevels(AddEntries(vals, es), tasks, order[1..], maxLoss);
      }
    }
  }

  /** Groups statistics by the level of the task they belong to. */
  class LeveledArray {
    var vals: Vals

    constructor ()
      ensures vals == map[]
    {
      vals := map[];
    }

    /** `add(name, level, value)`; a single value is passed as a one-element list. */
    method Add(name: string, level: string, values: seq<real>)
      modifies this
      ensures vals == AddSample(old(vals), name, level, values)
    {
      var inner := if name in vals then vals[name] else map[];
      var current := if level in inner then inner[level] else [];
      vals := vals[name := inner[level := current + values]];
    }

    /** `write_measurements(result)`; the lists are visited in no particular order. */
    method WriteMeasurements(result: map<string, seq<real>>) returns (r: map<string, seq<real>>)
      ensures Written(result, vals, r)
    {
      r := result;
      var todo := Pairs(vals);
      ghost var all := todo;
      ghost var done: set<(string, string)> := {};
      ghost var names: set<string> := {};
      while todo != {}
        invariant todo !! done && todo + done == all
        invariant names == NamesOf(done)
        invariant forall n :: n in r <==> n in result || n in names
        invariant forall n :: n in result && n !in names ==> r[n] == result[n]
        invariant LetterLevels(vals) ==> Holds(r, done)
        decreases |todo|
      {
        var pr :| pr in todo;
        var name := ResultName(pr.1, pr.0);
        PairsMember(vals, pr);
        r := WriteOne(r, pr, result, done, names);
        Move(todo, done, pr);
        todo, done, names := todo - {pr}, done + {pr}, names + {name};
      }
      WrittenAll(result, r, names);
    }

    /** Once every pair is done, `r` is the result of `write_measurements`. */
    lemma WrittenAll(result: map<string, seq<real>>, r: map<string, seq<real>>, names: set<string>)
      requires names == NamesOf(Pairs(vals))
      requires forall n :: n in r <==> n in result || n in names
      requires forall n :: n in result && n !in names ==> r[n] == result[n]
      requires LetterLevels(vals) ==> Holds(r, Pairs(vals))
      ensures Written(result, vals, r)
    {
      NamesOfPairs(vals);
      if LetterLevels(vals) {
        forall n, l | n in vals && l in vals[n]
          ensures ResultName(l, n) in r && r[ResultName(l, n)] == vals[n][l]
        {
          PairsMember(vals, (n, l));
        }
      }
    }

    /** One pass of the loop: the list of `pr` is written under its name. */
    method WriteOne(r: map<string, seq<real>>, pr: (string, string), ghost result: map<string, seq<real>>,
                    ghost done: set<(string, string)>, ghost names: set<string>) returns (r': map<string, seq<real>>)
      requires pr.0 in vals && pr.1 in vals[pr.0] && pr !in done
      requires names == NamesOf(done)
      requires forall n :: n in r <==> n in result || n in names
      requires forall n :: n in result && n !in names ==> r[n] == result[n]
      requires LetterLevels(vals) ==> Holds(r, done)
      ensures NamesOf(done + {pr}) == names + {ResultName(pr.1, pr.0)}
      ensures forall n :: n in r' <==> n in result || n in names + {ResultName(pr.1, pr.0)}
      ensures forall n :: n in result && n !in names + {ResultName(pr.1, pr.0)} ==> r'[n] == result[n]
      ensures LetterLevels(vals) ==> Holds(r', done + {pr})
    {
      if LetterLevels(vals) {
        WriteKeeps(r, done, pr, vals[pr.0][pr.1]);
      }
      NamesOfAdd(done, pr);
      r' := r[ResultName(pr.1, pr.0) := vals[pr.0][pr.1]];
    }

    /** Every list of `done` is in `r` under its name. */
    ghost predicate Holds(r: map<string, seq<real>>, done: set<(string, string)>)
      reads this
    {
      forall pr :: pr in done ==>
        pr.0 in vals && pr.1 in vals[pr.0] &&
        ResultName(pr.1, pr.0) in r && r[ResultName(pr.1, pr.0)] == vals[pr.0][pr.1]
    }

    lemma WriteKeeps(r: map<string, seq<real>>, done: set<(string, string)>, pr: (string, string), v: seq<real>)
      requires LetterLevels(vals) && Holds(r, done) && pr !in done
      requires pr.0 in vals && pr.1 in vals[pr.0] && v == vals[pr.0][pr.1]
      ensures Holds(r[ResultName(pr.1, pr.0) := v], done + {pr})
    {
      forall q | q in done ensures ResultName(q.1, q.0) != ResultName(pr.1, pr.0) {
        ResultNameInjective(q.1, q.0, pr.1, pr.0);
      }
    }
  }

  lemma Move<T>(todo: set<T>, done: set<T>, x: T)
    requires x in todo && todo !! done
    ensures (todo - {x}) !! (done + {x}) && (todo - {x}) + (done + {x}) == todo + done
    ensures |todo - {x}| < |todo|
  {
  }

  lemma PairsMember(vals: Vals, pr: (string, string))
    ensures pr in Pairs(vals) <==> pr.0 in vals && pr.1 in vals[pr.0]
  {
    if pr.0 in vals && pr.1 in vals[pr.0] {
      assert (pr.0, pr.1) in Pairs(vals);
    }
  }

  lemma NamesOfAdd(ps: set<(string, string)>, pr: (string, string))
    ensures NamesOf(ps + {pr}) == NamesOf(ps) + {ResultName(pr.1, pr.0)}
  {
  }

  lemma NamesOfPairs(vals: Vals)
    ensures NamesOf(Pairs(vals)) == Names(vals)
  {
    forall x | x in Names(vals) ensures x in NamesOf(Pairs(vals)) {
      var n, l :| n in vals && l in vals[n] && x == ResultName(l, n);
      PairsMember(vals, (n, l));
    }
  }

  lemma {:induction false} AddEntriesAppend(vals: Vals, a: seq<Entry>, b: seq<Entry>)
    ensures AddEntries(vals, a + b) == AddEntries(AddEntries(vals, a), b)
    decreases |b|
  {
    if b == [] {
      assert a + b == a;
    } else {
      var b' := b[..|b| - 1];
      assert (a + b)[..|a + b| - 1] == a + b';
      AddEntriesAppend(vals, a, b');
    }
  }

  /** The statements of the task loop of `extract_sched_data` for one task;
      `continue` is a return without error. */
  method AddTask(stats: LeveledArray, t: TaskState, maxLoss: real) returns (err: Option<Error>)
    modifies stats
    ensures TaskEntries(t, maxLoss).Err? ==> err == Some(TaskEntries(t, maxLoss).error)
    ensures TaskEntries(t, maxLoss).Ok? ==>
      err == None && stats.vals == AddEntries(old(stats.vals), TaskEntries(t, maxLoss).value)
  {
    if t.params.None? {
      return None;
    }
    var level := [t.params.value.level];
    var miss := t.misses;
    if miss.matches + miss.disjoints == 0 {
      return Some(ZeroDivision);
    }
    var recordLoss := miss.disjoints as real / (miss.matches + miss.disjoints) as real;
    var lossEntry := Entry("record-loss", level, [recordLoss]);
    AddEntriesSnoc(stats.vals, [], lossEntry);
    assert [] + [lossEntry] == [lossEntry];
    stats.Add("record-loss", level, [recordLoss]);
    if recordLoss > maxLoss {
      return None;
    }
    ghost var v1 := stats.vals;
    err := AddTardiness(stats, t);
    if err.Some? {
      return;
    }
    ghost var v2 := stats.vals;
    AddBlocking(stats, t);
    AddEntriesAppend(old(stats.vals), [lossEntry], TardEntries(t));
    AddEntriesAppend(old(stats.vals), [lossEntry] + TardEntries(t), BlockEntries(t));
  }

  /** From `miss_ratio` to `avg-tard`. */
  method AddTardiness(stats: LeveledArray, t: TaskState) returns (err: Option<Error>)
    requires t.params.Some?
    modifies stats
    ensures err.Some? <==> t.misses.matches == 0 || t.params.value.period == 0
    ensures err.Some? ==> err == Some(ZeroDivision)
    ensures err.None? ==> stats.vals == AddEntries(old(stats.vals), TardEntries(t))
  {
    var level := [t.params.value.level];
    var miss := t.misses;
    if miss.matches == 0 {
      return Some(ZeroDivision);
    }
    var missRatio := miss.num as real / miss.matches as real;
    var avgTard := miss.avg * missRatio;
    var e1 := Entry("miss-ratio", level, [missRatio]);
    AddEntriesSnoc(stats.vals, [], e1);
    assert [] + [e1] == [e1];
    stats.Add(e1.stat, e1.level, e1.values);
    var period := t.params.value.period;
    if period == 0 {
      return Some(ZeroDivision);
    }
    var e2 := Entry("max-tard", level, [PyDiv(miss.max, period) as real]);
    AddEntriesSnoc(old(stats.vals), [e1], e2);
    stats.Add(e2.stat, e2.level, e2.values);
    var e3 := Entry("avg-tard", level, [avgTard / period as real]);
    assert avgTard / period as real == AvgTard(miss, period);
    AddEntriesSnoc(old(stats.vals), [e1, e2], e3);
    stats.Add(e3.stat, e3.level, e3.values);
    assert [e1, e2] + [e3] == TardEntries(t);
    err := None;
  }

  /** From `avg-block` to `LOAD`. */
  method AddBlocking(stats: LeveledArray, t: TaskState)
    requires t.params.Some?
    modifies stats
    ensures stats.vals == AddEntries(old(stats.vals), BlockEntries(t))
  {
    var level := [t.params.value.level];
    var e := Entry("avg-block", level, [t.blocks.avg / NsecPerMsec as real]);
    AddEntriesSnoc(stats.vals, [], e);
    assert [] + [e] == [e];
    stats.Add(e.stat, e.level, e.values);
    ghost var done := [e];
    e := Entry("max-block", level, [PyDiv(t.blocks.max, NsecPerMsec) as real]);
    AddEntriesSnoc(old(stats.vals), done, e);
    stats.Add(e.stat, e.level, e.values);
    done := done + [e];
    if t.params.value.level == 'b' {
      e := Entry("LOAD", level, t.loads);
      AddEntriesSnoc(old(stats.vals), done, e);
      stats.Add(e.stat, e.level, e.values);
      done := done + [e];
    }
    assert done == BlockEntries(t);
  }

  /** `order` is an iteration order of `tasks`, as `itervalues()` gives one:
      keys of `tasks`, none twice, as many as there are entries. */
  predicate Iterates(tasks: map<nat, TaskState>, order: seq<nat>)
  {
    && (forall i :: 0 <= i < |order| ==> order[i] in tasks)
    && (forall i, j :: 0 <= i < j < |order| ==> order[i] != order[j])
    && |order| == |tasks|
  }

  function Elems(s: seq<nat>): set<nat>
  {
    set x | x in s
  }

  lemma {:induction false} DistinctElems(s: seq<nat>)
    requires forall i, j :: 0 <= i < j < |s| ==> s[i] != s[j]
    ensures |Elems(s)| == |s|
  {
    if s != [] {
      var rest := s[1..];
      DistinctElems(rest);
      assert forall x :: x in s <==> x == s[0] || x in rest;
      assert Elems(s) == Elems(rest) + {s[0]};
      assert s[0] !in Elems(rest);
    }
  }

  lemma {:induction false} SubsetCard(a: set<nat>, b: set<nat>)
    requires a <= b
    ensures |a| <= |b|
    decreases |b|
  {
    if b != {} {
      var y :| y in b;
      SubsetCard(a - {y}, b - {y});
    }
  }

  /** Such an order visits every task exactly once. */
  lemma IteratesVisitsAll(tasks: map<nat, TaskState>, order: seq<nat>)
    requires Iterates(tasks, order)
    ensures forall k :: k in tasks <==> k in order
  {
    var e := Elems(order);
    DistinctElems(order);
    assert e <= tasks.Keys;
    if k :| k in tasks && k !in e {
      SubsetCard(e, tasks.Keys - {k});
      assert false;
    }
  }

  /** `extract_sched_data(result, ...)` over the tasks `read_data` produced,
      visited in `order`, which visits each of them once. An exception
      leaves `result` untouched. */
  method ExtractSchedData(tasks: map<nat, TaskState>, order: seq<nat>, maxLoss: real,
                          result: map<string, seq<real>>)
    returns (r: Result<map<string, seq<real>>>)
    requires Iterates(tasks, order)
    ensures Collect(map[], tasks, order, maxLoss).Err? ==> r == Err(Collect(map[], tasks, order, maxLoss).error)
    ensures Collect(map[], tasks, order, maxLoss).Ok? ==>
      r.Ok? && Written(result, Collect(map[], tasks, order, maxLoss).value, r.value)
    ensures LevelsOk(tasks) && r.Ok? ==> LetterLevels(Collect(map[], tasks, order, maxLoss).value)
  {
    var stats := new LeveledArray();
    for i := 0 to |order|
      invariant Collect(map[], tasks, order, maxLoss) == Collect(stats.vals, tasks, order[i..], maxLoss)
    {
      assert order[i..][0] == order[i] && order[i..][1..] == order[i + 1..];
      var err := AddTask(stats, tasks[order[i]], maxLoss);
      if err.Some? {
        return Err(err.value);
      }
    }
    var out := stats.WriteMeasurements(result);
    if LevelsOk(tasks) {
      CollectLevels(map[], tasks, order, maxLoss);
    }
    return Ok(out);
  }
}
