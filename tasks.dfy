/** Per-task state of parse/sched.py: `TaskData` records, the `process`
    method of each record kind, and `read_data`, which feeds the merged
    records of all trace files to them. `Step` and `Dispatch` say on values
    what processing does; the classes `TaskData` and `TaskDict` do it in
    place, as the source's record objects and defaultdict do. */
module Tasks {
  import opened Common
  import opened Layout
  import opened Records
  import opened TraceReader
  import opened Durations
  import opened Merge

  /** TaskParams(wcet, period, cpu, level); `cpu` is the record's partition. */
  datatype TaskParams = TaskParams(wcet: nat, period: nat, cpu: nat, level: char)

  /** TaskData(params, jobs, loads, blocks, misses, execs). */
  datatype TaskState = TaskState(
    params: Option<TaskParams>,
    jobs: int,
    loads: seq<real>,
    blocks: Tracker,
    misses: Tracker,
    execs: Tracker)

  /** The defaultdict's factory: no params, one job, no loads; only the
      execution tracker joins jobs. */
  function NewTask(): TaskState
  {
    TaskState(None, 1, [], NewTracker(false), NewTracker(false), NewTracker(true))
  }

  /** `chr(97 + level)`: Python raises ValueError past 255. */
  function LevelLetter(level: nat): (c: Option<char>)
    ensures c.Some? <==> level <= 158
    ensures c.Some? ==> c.value as int == 97 + level
  {
    if 97 + level <= 255 then Some((97 + level) as char) else None
  }

  /** NSEC_PER_USEC: completion loads are stored in microseconds. */
  const NsecPerUsec: real := 1000.0

  /** `task_dict[pid]`: the defaultdict creates a missing entry. */
  function Lookup(m: map<nat, TaskState>, pid: nat): TaskState
  {
    if pid in m then m[pid] else NewTask()
  }

  /** Whether `process` raises before touching anything: only a Param
      record whose level has no letter does. */
  predicate Raises(r: Record)
  {
    r.body.Param? && LevelLetter(r.body.level).None?
  }

  /** What `record.process` does to the record's own task. */
  function Effect(p: Policy, t: TaskState, r: Record): TaskState
    requires !Raises(r)
  {
    match r.body
    case Param(wcet, period, _, partition, _, level) =>
      t.(params := Some(TaskParams(wcet, period, partition, LevelLetter(level).value)))
    case Release(when, _) =>
      var t1 := t.(jobs := t.jobs + 1);
      if t.params.Some? then t1.(misses := Start(t.misses, r, Some(when + t.params.value.period))) else t1
    case Completion(_, load) =>
      t.(misses := Store(p, t.misses, r), loads := t.loads + [load as real / NsecPerUsec])
    case Block(_) => t.(blocks := Start(t.blocks, r, None))
    case Resume(_) => t.(blocks := Store(p, t.blocks, r))
    case SwitchTo(_) => t.(execs := Start(t.execs, r, None))
    case SwitchAway(_) => t.(execs := Store(p, t.execs, r))
  }

  /** `record.process(task_dict)`. */
  function Step(p: Policy, m: map<nat, TaskState>, r: Record): Result<map<nat, TaskState>>
  {
    if Raises(r) then Err(ValueError)
    else Ok(m[r.hdr.pid := Effect(p, Lookup(m, r.hdr.pid), r)])
  }

  /** How far processing got: the exception that stopped it, if any, and the tasks. */
  datatype Outcome = Outcome(error: Option<Error>, tasks: map<nat, TaskState>)

  /** Processing a sequence of records in order; an exception stops it with
      the updates made so far kept. */
  function Dispatch(p: Policy, m: map<nat, TaskState>, rs: seq<Record>): Outcome
    decreases |rs|
  {
    if rs == [] then Outcome(None, m)
    else match Step(p, m, rs[0])
      case Err(e) => Outcome(Some(e), m)
      case Ok(m1) => Dispatch(p, m1, rs[1..])
  }

  /** A record touches only its own task's entry; a record that raises touches nothing. */
  lemma StepLocal(p: Policy, m: map<nat, TaskState>, r: Record)
    ensures Step(p, m, r).Ok? ==> Step(p, m, r).value.Keys == m.Keys + {r.hdr.pid}
    ensures Step(p, m, r).Ok? ==> forall q :: q in m && q != r.hdr.pid ==> Step(p, m, r).value[q] == m[q]
    ensures Step(p, m, r).Err? <==> r.body.Param? && r.body.level > 158
  {
  }

  /** Processing never changes a task's parameters except through its own
      Param record, and every Release adds exactly one job. */
  lemma StepJobs(p: Policy, m: map<nat, TaskState>, r: Record)
    requires Step(p, m, r).Ok?
    ensures var t := Lookup(m, r.hdr.pid);
      var u := Step(p, m, r).value[r.hdr.pid];
      && u.jobs == t.jobs + (if r.body.Release? then 1 else 0)
      && (!r.body.Param? ==> u.params == t.params)
      && (r.body.Completion? <==> |u.loads| == |t.loads| + 1)
  {
  }

  /** Every tracker statistic stays consistent whatever records arrive. */
  predicate TaskInv(t: TaskState)
  {
    TrackerInv(t.blocks) && TrackerInv(t.misses) && TrackerInv(t.execs)
  }

  lemma NewTaskInv()
    ensures TaskInv(NewTask())
  {
    NewTrackerInv(false);
    NewTrackerInv(true);
  }

  lemma StepPreservesInv(p: Policy, m: map<nat, TaskState>, r: Record)
    requires forall q :: q in m ==> TaskInv(m[q])
    ensures Step(p, m, r).Ok? ==> forall q :: q in Step(p, m, r).value ==> TaskInv(Step(p, m, r).value[q])
  {
    var t := Lookup(m, r.hdr.pid);
    NewTaskInv();
    assert TaskInv(t);
    match r.body
    case Param(_, _, _, _, _, _) =>
    case Release(when, _) =>
      if t.params.Some? {
        StartPreservesInv(t.misses, r, Some(when + t.params.value.period));
      }
    case Completion(_, _) => StorePreservesInv(p, t.misses, r);
    case Block(_) => StartPreservesInv(t.blocks, r, None);
    case Resume(_) => StorePreservesInv(p, t.blocks, r);
    case SwitchTo(_) => StartPreservesInv(t.execs, r, None);
    case SwitchAway(_) => StorePreservesInv(p, t.execs, r);
  }

  lemma {:induction false} DispatchPreservesInv(p: Policy, m: map<nat, TaskState>, rs: seq<Record>)
    requires forall q :: q in m ==> TaskInv(m[q])
    ensures var o := Dispatch(p, m, rs); forall q :: q in o.tasks ==> TaskInv(o.tasks[q])
    decreases |rs|
  {
    if rs != [] {
      StepPreservesInv(p, m, rs[0]);
      if Step(p, m, rs[0]).Ok? {
        assert Dispatch(p, m, rs) == Dispatch(p, Step(p, m, rs[0]).value, rs[1..]);
        DispatchPreservesInv(p, Step(p, m, rs[0]).value, rs[1..]);
      }
    }
  }

  /** Levels come from `chr(97 + level)`, so every known level letter has a
      code from 97 to 255. */
  predicate LevelsOk(m: map<nat, TaskState>)
  {
    forall q :: q in m && m[q].params.Some? ==> 97 <= m[q].params.value.level as int <= 255
  }

  lemma StepLevels(p: Policy, m: map<nat, TaskState>, r: Record)
    requires LevelsOk(m)
    ensures Step(p, m, r).Ok? ==> LevelsOk(Step(p, m, r).value)
  {
  }

  lemma {:induction false} DispatchLevels(p: Policy, m: map<nat, TaskState>, rs: seq<Record>)
    requires LevelsOk(m)
    ensures LevelsOk(Dispatch(p, m, rs).tasks)
    decreases |rs|
  {
    if rs != [] {
      StepLevels(p, m, rs[0]);
      if Step(p, m, rs[0]).Ok? {
        assert Dispatch(p, m, rs) == Dispatch(p, Step(p, m, rs[0]).value, rs[1..]);
        DispatchLevels(p, Step(p, m, rs[0]).value, rs[1..]);
      }
    }
  }

  /** The record streams of the trace files, one per file. */
  function Streams(files: seq<seq<byte>>): (its: seq<seq<Record>>)
    ensures |its| == |files|
    ensures forall i :: 0 <= i < |files| ==> its[i] == TraceRecords(files[i])
  {
    seq(|files|, i requires 0 <= i < |files| => TraceRecords(files[i]))
  }

  /** `read_data(task_dict, fnames)` on values. */
  function ReadResult(p: Policy, m: map<nat, TaskState>, files: seq<seq<byte>>): Outcome
  {
    Dispatch(p, m, MergedOrder(p, Streams(files)))
  }

  /** A TaskData record object; its trackers are objects of their own. */
  class TaskData {
    var params: Option<TaskParams>
    var jobs: int
    var loads: seq<real>
    const blocks: TimeTracker
    const misses: TimeTracker
    const execs: TimeTracker

    ghost function Objs(): set<object>
    {
      {this, blocks, misses, execs}
    }

    ghost predicate Distinct()
    {
      blocks != misses && blocks != execs && misses != execs
    }

    function State(): TaskState
      reads this, blocks, misses, execs
    {
      TaskState(params, jobs, loads, blocks.State(), misses.State(), execs.State())
    }

    constructor ()
      ensures State() == NewTask() && Distinct()
      ensures fresh(blocks) && fresh(misses) && fresh(execs)
    {
      params := None;
      jobs := 1;
      loads := [];
      blocks := new TimeTracker(false);
      misses := new TimeTracker(false);
      execs := new TimeTracker(true);
    }

    /** The body of each record kind's `process`, applied to this task. */
    method Process(p: Policy, r: Record)
      requires !Raises(r) && Distinct()
      modifies this, blocks, misses, execs
      ensures State() == Effect(p, old(State()), r)
    {
      match r.body
      case Param(wcet, period, _, partition, _, level) =>
        params := Some(TaskParams(wcet, period, partition, (97 + level) as char));
      case Release(when, _) =>
        jobs := jobs + 1;
        if params.Some? {
          misses.StartTime(r, Some(when + params.value.period));
        }
      case Completion(_, load) =>
        misses.StoreTime(p, r);
        loads := loads + [load as real / NsecPerUsec];
      case Block(_) => blocks.StartTime(r, None);
      case Resume(_) => blocks.StoreTime(p, r);
      case SwitchTo(_) => execs.StartTime(r, None);
      case SwitchAway(_) => execs.StoreTime(p, r);
    }
  }

  /** `task_dict`: a defaultdict from pid to TaskData. `owner` names the
      pid each task object belongs to, which keeps the tasks' objects apart. */
  class TaskDict {
    var tasks: map<nat, TaskData>
    ghost var owner: map<object, nat>
    ghost var Repr: set<object>

    ghost predicate Owns(q: nat, d: TaskData)
      reads this
    {
      && d in owner && d.blocks in owner && d.misses in owner && d.execs in owner
      && owner[d] == q && owner[d.blocks] == q && owner[d.misses] == q && owner[d.execs] == q
      && d in Repr && d.blocks in Repr && d.misses in Repr && d.execs in Repr
    }

    ghost predicate Valid()
      reads this
    {
      && this in Repr
      && (forall q :: q in tasks ==> Owns(q, tasks[q]) && tasks[q].Distinct())
    }

    ghost function Abs(): map<nat, TaskState>
      reads this, Repr
      requires Valid()
    {
      map q | q in tasks :: tasks[q].State()
    }

    constructor ()
      ensures Valid() && Abs() == map[] && fresh(Repr)
    {
      tasks := map[];
      owner := map[];
      Repr := {this};
    }

    /** `task_dict[pid]`, creating the entry when it is missing. */
    method Get(pid: nat) returns (t: TaskData)
      requires Valid()
      modifies this
      ensures Valid() && fresh(Repr - old(Repr))
      ensures pid in tasks && t == tasks[pid]
      ensures Abs() == old(Abs())[pid := Lookup(old(Abs()), pid)]
      ensures t.State() == Lookup(old(Abs()), pid)
    {
      if pid in tasks {
        t := tasks[pid];
        MapSelf(Abs(), pid);
      } else {
        t := Create(pid);
      }
    }

    /** The missing entry `pid`, a fresh task. */
    method Create(pid: nat) returns (t: TaskData)
      requires Valid() && pid !in tasks
      modifies this
      ensures Valid() && fresh(Repr - old(Repr))
      ensures pid in tasks && t == tasks[pid]
      ensures pid !in old(Abs()) && Abs() == old(Abs())[pid := NewTask()]
      ensures t.State() == NewTask()
    {
      t := new TaskData();
      Repr := Repr + {t, t.blocks, t.misses, t.execs};
      owner := owner[t := pid][t.blocks := pid][t.misses := pid][t.execs := pid];
      tasks := tasks[pid := t];
      Added(pid, t);
    }

    /** A fresh entry keeps the tasks apart and leaves the other entries alone. */
    twostate lemma Added(pid: nat, new t: TaskData)
      requires old(Valid()) && pid !in old(tasks)
      requires fresh(t) && fresh(t.blocks) && fresh(t.misses) && fresh(t.execs) && t.Distinct()
      requires tasks == old(tasks)[pid := t] && Repr == old(Repr) + {t, t.blocks, t.misses, t.execs}
      requires owner == old(owner)[t := pid][t.blocks := pid][t.misses := pid][t.execs := pid]
      requires unchanged(old(Repr) - {this})
      ensures Valid()
      ensures Abs() == old(Abs())[pid := t.State()]
    {
      forall q | q in tasks && q != pid ensures Owns(q, tasks[q]) && tasks[q].State() == old(tasks[q].State()) {
        var d := tasks[q];
        assert d == old(tasks[q]) && old(Owns(q, d));
        assert d in old(Repr) && d.blocks in old(Repr) && d.misses in old(Repr) && d.execs in old(Repr);
      }
      ghost var a := Abs();
      ghost var b := old(Abs())[pid := t.State()];
      assert a.Keys == b.Keys;
      forall q | q in a ensures a[q] == b[q] {
        if q != pid {
          assert a[q] == tasks[q].State();
          assert b[q] == old(tasks[q].State());
        }
      }
    }

    /** `record.process(task_dict)`; an exception is returned as an error. */
    method Process(p: Policy, r: Record) returns (err: Option<Error>)
      requires Valid()
      modifies this, Repr
      ensures Valid() && fresh(Repr - old(Repr))
      ensures Step(p, old(Abs()), r).Err? ==> err == Some(Step(p, old(Abs()), r).error) && Abs() == old(Abs())
      ensures Step(p, old(Abs()), r).Ok? ==> err == None && Abs() == Step(p, old(Abs()), r).value
    {
      if r.body.Param? && 97 + r.body.level > 255 {
        return Some(ValueError);
      }
      Apply(p, r);
      err := None;
    }

    /** `process` of a record that does not raise: the record's task,
        created when missing, takes the record's effect. */
    method Apply(p: Policy, r: Record)
      requires Valid() && !Raises(r)
      modifies this, Repr
      ensures Valid() && fresh(Repr - old(Repr))
      ensures Abs() == old(Abs())[r.hdr.pid := Effect(p, Lookup(old(Abs()), r.hdr.pid), r)]
    {
      ghost var m0 := Abs();
      var t := Get(r.hdr.pid);
      assert Owns(r.hdr.pid, t);
      Change(p, r, t);
      MapOverride(m0, r.hdr.pid, Lookup(m0, r.hdr.pid), Effect(p, Lookup(m0, r.hdr.pid), r));
    }

    /** The record's effect on its own task object, seen through `Abs`. */
    method Change(p: Policy, r: Record, t: TaskData)
      requires Valid() && !Raises(r) && r.hdr.pid in tasks && t == tasks[r.hdr.pid]
      modifies t, t.blocks, t.misses, t.execs
      ensures Valid()
      ensures Abs() == old(Abs())[r.hdr.pid := Effect(p, old(t.State()), r)]
    {
      assert Owns(r.hdr.pid, t);
      t.Process(p, r);
      Updated(r.hdr.pid);
    }

    /** The objects of different tasks are different objects. */
    lemma Apart(a: nat, b: nat)
      requires Valid() && a in tasks && b in tasks && a != b
      ensures tasks[a].Objs() !! tasks[b].Objs()
    {
      assert Owns(a, tasks[a]) && Owns(b, tasks[b]);
    }

    /** After the objects of one task change, the abstraction changes in that entry only. */
    twostate lemma Updated(pid: nat)
      requires old(Valid()) && pid in old(tasks)
      requires tasks == old(tasks) && owner == old(owner) && Repr == old(Repr)
      requires unchanged(Repr - tasks[pid].Objs())
      ensures Valid()
      ensures Abs() == old(Abs())[pid := tasks[pid].State()]
    {
      forall q | q in tasks && q != pid
        ensures unchanged(tasks[q], tasks[q].blocks, tasks[q].misses, tasks[q].execs)
      {
        Apart(q, pid);
        assert tasks[q].Objs() <= Repr by { assert Owns(q, tasks[q]); }
      }
      ghost var a := Abs();
      ghost var b := old(Abs())[pid := tasks[pid].State()];
      assert a.Keys == b.Keys;
      forall q | q in a ensures a[q] == b[q] {
        if q != pid {
          assert a[q] == tasks[q].State();
          assert b[q] == old(tasks[q].State());
        }
      }
    }
  }

  lemma MapOverride<K, V>(m: map<K, V>, k: K, x: V, y: V)
    ensures m[k := x][k := y] == m[k := y]
  {
  }

  lemma MapSelf<K, V>(m: map<K, V>, k: K)
    requires k in m
    ensures m[k := m[k]] == m
  {
  }

  /** Processing starts with the first record. */
  lemma DispatchCons(p: Policy, m: map<nat, TaskState>, r: Record, rest: seq<Record>)
    ensures Step(p, m, r).Err? ==> Dispatch(p, m, [r] + rest) == Outcome(Some(Step(p, m, r).error), m)
    ensures Step(p, m, r).Ok? ==> Dispatch(p, m, [r] + rest) == Dispatch(p, Step(p, m, r).value, rest)
  {
    assert ([r] + rest)[0] == r && ([r] + rest)[1..] == rest;
  }

  /** After an exception, later records are never processed. */
  lemma {:induction false} DispatchStops(p: Policy, m: map<nat, TaskState>, rs: seq<Record>, more: seq<Record>)
    requires Dispatch(p, m, rs).error.Some?
    ensures Dispatch(p, m, rs + more) == Dispatch(p, m, rs)
    decreases |rs|
  {
    assert rs != [];
    assert (rs + more)[0] == rs[0];
    assert (rs + more)[1..] == rs[1..] + more;
    if Step(p, m, rs[0]).Ok? {
      DispatchStops(p, Step(p, m, rs[0]).value, rs[1..], more);
    }
  }

  /** The first loop of `read_data`: one generator per file, and its first
      record into the buffer. A generator reads nothing before its first
      `next`, so opening them all first changes nothing. */
  method StartAll(p: Policy, files: seq<seq<byte>>) returns (buff: seq<Pending>, its: seq<seq<Record>>)
    ensures (buff, its) == FillFrom(p, [], Streams(files), 0)
  {
    ghost var streams := Streams(files);
    its := [];
    for k := 0 to |files|
      invariant its == streams[..k]
    {
      var recs := MakeIterator(files[k]);
      its := its + [recs];
    }
    assert its == streams;
    buff := [];
    for k := 0 to |its|
      invariant |its| == |streams|
      invariant FillFrom(p, buff, its, k) == FillFrom(p, [], streams, 0)
    {
      buff, its := AddRecord(p, buff, its, k);
    }
  }

  /** `read_data(task_dict, fnames)` with the files' contents given: every
      record of every file is processed in merged order, until one raises. */
  method ReadData(p: Policy, d: TaskDict, files: seq<seq<byte>>) returns (err: Option<Error>)
    requires d.Valid()
    modifies d, d.Repr
    ensures d.Valid() && fresh(d.Repr - old(d.Repr))
    ensures Outcome(err, d.Abs()) == ReadResult(p, old(d.Abs()), files)
  {
    ghost var m0 := d.Abs();
    var buff, its := StartAll(p, files);
    MergedOrderFrom(p, Streams(files), buff, its);
    FillOnePerSource(p, [], Streams(files), 0);
    ghost var order := MergeFrom(p, buff, its);
    assert ReadResult(p, m0, files) == Dispatch(p, m0, order);
    err := Drain(p, d, buff, its);
  }

  /** The main loop of `read_data`: pop the earliest buffered record, refill
      from its file, process it. */
  method Drain(p: Policy, d: TaskDict, buff: seq<Pending>, its: seq<seq<Record>>) returns (err: Option<Error>)
    requires d.Valid() && Sources(buff, |its|) && OnePerSource(buff)
    modifies d, d.Repr
    ensures d.Valid() && fresh(d.Repr - old(d.Repr))
    ensures Outcome(err, d.Abs()) == Dispatch(p, old(d.Abs()), MergeFrom(p, buff, its))
  {
    ghost var goal := Dispatch(p, d.Abs(), MergeFrom(p, buff, its));
    var b, i := buff, its;
    err := None;
    while b != []
      invariant Sources(b, |i|) && OnePerSource(b) && err.None?
      invariant d.Valid() && fresh(d.Repr - old(d.Repr))
      invariant Dispatch(p, d.Abs(), MergeFrom(p, b, i)) == goal
      decreases |b| + TotalLen(i)
    {
      b, i, err := Turn(p, d, b, i, goal);
      if err.Some? {
        return;
      }
    }
    assert MergeFrom(p, b, i) == [];
  }

  /** One turn of that loop. */
  method Turn(p: Policy, d: TaskDict, b: seq<Pending>, i: seq<seq<Record>>, ghost goal: Outcome)
    returns (b': seq<Pending>, i': seq<seq<Record>>, err: Option<Error>)
    requires d.Valid() && Sources(b, |i|) && OnePerSource(b) && b != []
    requires Dispatch(p, d.Abs(), MergeFrom(p, b, i)) == goal
    modifies d, d.Repr
    ensures d.Valid() && fresh(d.Repr - old(d.Repr))
    ensures Sources(b', |i'|) && OnePerSource(b') && |b'| + TotalLen(i') < |b| + TotalLen(i)
    ensures err.Some? ==> Outcome(err, d.Abs()) == goal
    ensures err.None? ==> Dispatch(p, d.Abs(), MergeFrom(p, b', i')) == goal
  {
    var e := b[0];
    MergeFromStep(p, b, i);
    PopOnePerSource(p, b, i);
    b', i' := AddRecord(p, b[1..], i, e.src);
    DispatchCons(p, d.Abs(), e.rec, MergeFrom(p, b', i'));
    err := d.Process(p, e.rec);
  }
}
