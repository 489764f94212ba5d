/** The record merge of `read_data` in parse/sched.py. Every trace file is
    an iterator; `buff` holds at most one pending record per iterator, kept
    in insertion order by `add_record`, and the head of `buff` is processed
    next, after its iterator's following record has been added. */
module Merge {
  import opened Common
  import opened Records

  /** A buffered record and the iterator (by position in the file list) it came from. */
  datatype Pending = Pending(rec: Record, src: nat)

  function Recs(buff: seq<Pending>): (rs: seq<Record>)
    ensures |rs| == |buff|
    ensures forall i :: 0 <= i < |buff| ==> rs[i] == buff[i].rec
  {
    if buff == [] then [] else [buff[0].rec] + Recs(buff[1..])
  }

  function Flatten(its: seq<seq<Record>>): seq<Record>
  {
    if its == [] then [] else its[0] + Flatten(its[1..])
  }

  function TotalLen(its: seq<seq<Record>>): nat
  {
    if its == [] then 0 else |its[0]| + TotalLen(its[1..])
  }

  /** Every pending record names an existing iterator. */
  predicate Sources(buff: seq<Pending>, n: nat)
  {
    forall i :: 0 <= i < |buff| ==> buff[i].src < n
  }

  predicate Sorted(rs: seq<Record>)
  {
    forall i, j :: 0 <= i < j < |rs| ==> Time(rs[i]) <= Time(rs[j])
  }

  /** Index of the first buffered record later than `t`, or |buff|. */
  function FirstLater(buff: seq<Pending>, t: int): (i: nat)
    ensures i <= |buff|
    ensures forall m :: 0 <= m < i ==> Time(buff[m].rec) <= t
    ensures i < |buff| ==> Time(buff[i].rec) > t
  {
    if buff == [] then 0
    else if Time(buff[0].rec) > t then 0
    else 1 + FirstLater(buff[1..], t)
  }

  /** Where `add_record` inserts a record of time `t`. As written, when no
      buffered record is later the loop variable is left at the last index,
      so the record goes before the last one; corrected, it goes at the end. */
  function InsertIndex(p: Policy, buff: seq<Pending>, t: int): (i: nat)
    ensures i <= |buff|
  {
    var f := FirstLater(buff, t);
    if f < |buff| then f
    else match p
      case AsWritten => if buff == [] then 0 else |buff| - 1
      case Corrected => |buff|
  }

  /** `buff.insert(i, e)`. */
  function Insert(buff: seq<Pending>, i: nat, e: Pending): (r: seq<Pending>)
    requires i <= |buff|
    ensures |r| == |buff| + 1
  {
    buff[..i] + [e] + buff[i..]
  }

  /** `add_record(its[k])`: take the iterator's next record, if any, into the buffer. */
  function AddNext(p: Policy, buff: seq<Pending>, its: seq<seq<Record>>, k: nat)
    : (r: (seq<Pending>, seq<seq<Record>>))
    requires k < |its|
    ensures |r.1| == |its|
  {
    if its[k] == [] then (buff, its)
    else
      var e := Pending(its[k][0], k);
      (Insert(buff, InsertIndex(p, buff, Time(e.rec)), e), its[k := its[k][1..]])
  }

  lemma {:induction false} TotalLenUpdate(its: seq<seq<Record>>, k: nat)
    requires k < |its| && its[k] != []
    ensures TotalLen(its[k := its[k][1..]]) + 1 == TotalLen(its)
    ensures multiset(Flatten(its[k := its[k][1..]])) + multiset{its[k][0]} == multiset(Flatten(its))
  {
    var u := its[k := its[k][1..]];
    if k == 0 {
      assert u[1..] == its[1..];
      assert its[0] == [its[0][0]] + its[0][1..];
    } else {
      assert u[0] == its[0];
      assert u[1..] == its[1..][k - 1 := its[1..][k - 1][1..]];
      TotalLenUpdate(its[1..], k - 1);
    }
  }

  /** `add_record` moves a record from an iterator to the buffer, or does nothing. */
  lemma {:induction false} AddNextMeasure(p: Policy, buff: seq<Pending>, its: seq<seq<Record>>, k: nat)
    requires k < |its|
    ensures |AddNext(p, buff, its, k).0| + TotalLen(AddNext(p, buff, its, k).1) == |buff| + TotalLen(its)
  {
    if its[k] != [] {
      TotalLenUpdate(its, k);
    }
  }

  /** The initial loop of `read_data`: one `add_record` per file, in order. */
  function FillFrom(p: Policy, buff: seq<Pending>, its: seq<seq<Record>>, k: nat)
    : (r: (seq<Pending>, seq<seq<Record>>))
    requires k <= |its|
    ensures |r.1| == |its|
    decreases |its| - k
  {
    if k == |its| then (buff, its)
    else
      var (b, i) := AddNext(p, buff, its, k);
      FillFrom(p, b, i, k + 1)
  }

  /** The main loop of `read_data`: the records in the order they are processed. */
  function MergeFrom(p: Policy, buff: seq<Pending>, its: seq<seq<Record>>): seq<Record>
    requires Sources(buff, |its|)
    decreases |buff| + TotalLen(its)
  {
    if buff == [] then []
    else
      var k := buff[0].src;
      var (b, i) := AddNext(p, buff[1..], its, k);
      AddNextSources(p, buff[1..], its, k);
      AddNextMeasure(p, buff[1..], its, k);
      [buff[0].rec] + MergeFrom(p, b, i)
  }

  /** Processing order of `read_data` over the record streams of `fnames`. */
  function MergedOrder(p: Policy, streams: seq<seq<Record>>): seq<Record>
  {
    FillSources(p, [], streams, 0);
    var (b, i) := FillFrom(p, [], streams, 0);
    MergeFrom(p, b, i)
  }

  /** The main loop starts from the buffer the initial loop filled. */
  lemma MergedOrderFrom(p: Policy, streams: seq<seq<Record>>, buff: seq<Pending>, its: seq<seq<Record>>)
    requires (buff, its) == FillFrom(p, [], streams, 0)
    ensures Sources(buff, |its|) && MergedOrder(p, streams) == MergeFrom(p, buff, its)
  {
    FillSources(p, [], streams, 0);
  }

  lemma {:induction false} AddNextSources(p: Policy, buff: seq<Pending>, its: seq<seq<Record>>, k: nat)
    requires k < |its| && Sources(buff, |its|)
    ensures Sources(AddNext(p, buff, its, k).0, |its|)
  {
    if its[k] != [] {
      var i := InsertIndex(p, buff, Time(its[k][0]));
      var r := Insert(buff, i, Pending(its[k][0], k));
      forall m | 0 <= m < |r| ensures r[m].src < |its| {
        if m > i {
          assert r[m] == buff[m - 1];
        }
      }
    }
  }

  lemma {:induction false} FillSources(p: Policy, buff: seq<Pending>, its: seq<seq<Record>>, k: nat)
    requires k <= |its| && Sources(buff, |its|)
    ensures Sources(FillFrom(p, buff, its, k).0, |its|)
    decreases |its| - k
  {
    if k < |its| {
      AddNextSources(p, buff, its, k);
      var (b, i) := AddNext(p, buff, its, k);
      FillSources(p, b, i, k + 1);
    }
  }

  /** The loop of `add_record` over `enumerate(buff)`, then `buff.insert(i, ...)`. */
  method AddRecord(p: Policy, buff: seq<Pending>, its: seq<seq<Record>>, k: nat)
    returns (buff': seq<Pending>, its': seq<seq<Record>>)
    requires k < |its|
    ensures (buff', its') == AddNext(p, buff, its, k)
  {
    if its[k] == [] {
      return buff, its;
    }
    var arecord := its[k][0];
    its' := its[k := its[k][1..]];
    var i := 0;
    var j := 0;
    var broke := false;
    while j < |buff|
      invariant 0 <= j <= |buff|
      invariant forall m :: 0 <= m < j ==> Time(buff[m].rec) <= Time(arecord)
      invariant i == (if j == 0 then 0 else j - 1)
    {
      i := j;
      if Time(buff[j].rec) > Time(arecord) {
        broke := true;
        break;
      }
      j := j + 1;
    }
    if !broke && p == Corrected {
      i := |buff|;
    }
    FirstLaterIs(buff, Time(arecord), if broke then j else |buff|);
    buff' := buff[..i] + [Pending(arecord, k)] + buff[i..];
  }

  /** FirstLater is determined by its two postconditions. */
  lemma {:induction false} FirstLaterIs(buff: seq<Pending>, t: int, i: nat)
    requires i <= |buff|
    requires forall m :: 0 <= m < i ==> Time(buff[m].rec) <= t
    requires i < |buff| ==> Time(buff[i].rec) > t
    ensures FirstLater(buff, t) == i
  {
    if buff != [] && i > 0 {
      FirstLaterIs(buff[1..], t, i - 1);
    }
  }

  // ----- Every record is processed exactly once -----

  /** The iterators that have a record in the buffer. */
  function Srcs(buff: seq<Pending>): set<nat>
  {
    set e | e in buff :: e.src
  }

  /** Every iterator below `below` that still has records has one in the buffer. */
  predicate Covered(buff: seq<Pending>, its: seq<seq<Record>>, below: nat)
  {
    forall j :: 0 <= j < below && j < |its| && its[j] != [] ==> j in Srcs(buff)
  }

  lemma {:induction false} RecsAppend(a: seq<Pending>, b: seq<Pending>)
    ensures Recs(a + b) == Recs(a) + Recs(b)
  {
    var l, r := Recs(a + b), Recs(a) + Recs(b);
    forall k | 0 <= k < |a| + |b| ensures l[k] == r[k] {
      if k < |a| {
        assert (a + b)[k] == a[k];
      } else {
        assert (a + b)[k] == b[k - |a|];
      }
    }
    assert l == r;
  }

  lemma {:induction false} InsertContents(buff: seq<Pending>, i: nat, e: Pending)
    requires i <= |buff|
    ensures multiset(Recs(Insert(buff, i, e))) == multiset(Recs(buff)) + multiset{e.rec}
    ensures Srcs(Insert(buff, i, e)) == Srcs(buff) + {e.src}
  {
    InsertRecs(buff, i, e);
    InsertSrcs(buff, i, e);
  }

  lemma {:induction false} InsertRecs(buff: seq<Pending>, i: nat, e: Pending)
    requires i <= |buff|
    ensures multiset(Recs(Insert(buff, i, e))) == multiset(Recs(buff)) + multiset{e.rec}
  {
    var a, b := buff[..i], buff[i..];
    assert buff == a + b;
    RecsAppend(a, b);
    RecsAppend(a + [e], b);
    RecsAppend(a, [e]);
    var ra, rb := Recs(a), Recs(b);
    assert Recs([e]) == [e.rec];
    assert Recs(Insert(buff, i, e)) == ra + [e.rec] + rb;
    assert multiset(ra + [e.rec] + rb) == multiset(ra) + multiset{e.rec} + multiset(rb);
  }

  lemma {:induction false} InsertSrcs(buff: seq<Pending>, i: nat, e: Pending)
    requires i <= |buff|
    ensures Srcs(Insert(buff, i, e)) == Srcs(buff) + {e.src}
  {
    var a, b := buff[..i], buff[i..];
    var r := Insert(buff, i, e);
    assert buff == a + b;
    assert r == a + [e] + b;
    forall y | y in Srcs(r) ensures y in Srcs(buff) + {e.src} {
      var x :| x in r && x.src == y;
      if x != e {
        assert x in buff;
      }
    }
    forall y | y in Srcs(buff) ensures y in Srcs(r) {
      var x :| x in buff && x.src == y;
      assert x in r;
    }
    assert e in r;
  }

  /** `add_record` moves the iterator's next record into the buffer and
      leaves every other iterator as it was. */
  lemma {:induction false} AddNextContents(p: Policy, buff: seq<Pending>, its: seq<seq<Record>>, k: nat)
    requires k < |its|
    ensures var r := AddNext(p, buff, its, k);
      && multiset(Recs(r.0)) + multiset(Flatten(r.1)) == multiset(Recs(buff)) + multiset(Flatten(its))
      && Srcs(r.0) == Srcs(buff) + (if its[k] != [] then {k} else {})
      && (forall j :: 0 <= j < |its| && j != k ==> r.1[j] == its[j])
      && (r.1[k] != [] ==> its[k] != [])
  {
    if its[k] != [] {
      var e := Pending(its[k][0], k);
      var i := InsertIndex(p, buff, Time(e.rec));
      var u := its[k := its[k][1..]];
      var b := Insert(buff, i, e);
      assert AddNext(p, buff, its, k) == (b, u);
      InsertContents(buff, i, e);
      TotalLenUpdate(its, k);
      MultisetShift(multiset(Recs(b)), multiset(Recs(buff)), multiset(Flatten(u)), multiset(Flatten(its)), e.rec);
    }
  }

  lemma MultisetShift<T>(mb: multiset<T>, ma: multiset<T>, fu: multiset<T>, fi: multiset<T>, x: T)
    requires mb == ma + multiset{x} && fu + multiset{x} == fi
    ensures mb + fu == ma + fi
  {
  }

  lemma {:induction false} SrcsTail(buff: seq<Pending>)
    requires buff != []
    ensures Srcs(buff) == Srcs(buff[1..]) + {buff[0].src}
  {
    assert buff == [buff[0]] + buff[1..];
    forall x | x in buff ensures x == buff[0] || x in buff[1..] {
    }
  }

  /** One turn of the main loop keeps the buffer complete and loses no record. */
  lemma {:induction false} PopStep(p: Policy, buff: seq<Pending>, its: seq<seq<Record>>)
    requires buff != [] && Sources(buff, |its|) && Covered(buff, its, |its|)
    ensures var r := AddNext(p, buff[1..], its, buff[0].src);
      && Sources(r.0, |its|) && Covered(r.0, r.1, |its|)
      && multiset(Recs(r.0)) + multiset(Flatten(r.1)) + multiset{buff[0].rec}
         == multiset(Recs(buff)) + multiset(Flatten(its))
  {
    var k := buff[0].src;
    var rest := buff[1..];
    AddNextSources(p, rest, its, k);
    AddNextContents(p, rest, its, k);
    assert Recs(buff) == [buff[0].rec] + Recs(rest);
    PopCovered(p, buff, its);
  }

  /** After a turn of the main loop every iterator with records left still
      has one in the buffer. */
  lemma {:induction false} PopCovered(p: Policy, buff: seq<Pending>, its: seq<seq<Record>>)
    requires buff != [] && Sources(buff, |its|) && Covered(buff, its, |its|)
    ensures var r := AddNext(p, buff[1..], its, buff[0].src);
      Covered(r.0, r.1, |its|)
  {
    var k := buff[0].src;
    var rest := buff[1..];
    AddNextContents(p, rest, its, k);
    SrcsTail(buff);
    var r := AddNext(p, rest, its, k);
    forall j | 0 <= j < |its| && r.1[j] != [] ensures j in Srcs(r.0) {
      if j != k {
        assert its[j] != [];
      }
    }
  }

  lemma {:induction false} FillMultiset(p: Policy, buff: seq<Pending>, its: seq<seq<Record>>, k: nat)
    requires k <= |its| && Covered(buff, its, k)
    ensures var r := FillFrom(p, buff, its, k);
      multiset(Recs(r.0)) + multiset(Flatten(r.1)) == multiset(Recs(buff)) + multiset(Flatten(its))
      && Covered(r.0, r.1, |its|)
    decreases |its| - k
  {
    if k < |its| {
      AddNextContents(p, buff, its, k);
      var r := AddNext(p, buff, its, k);
      assert Covered(r.0, r.1, k + 1);
      FillMultiset(p, r.0, r.1, k + 1);
    }
  }

  /** Without pending records, every iterator is exhausted. */
  lemma {:induction false} FlattenEmpty(its: seq<seq<Record>>)
    requires Covered([], its, |its|)
    ensures Flatten(its) == []
  {
    if its != [] {
      assert its[0] == [];
      assert Covered([], its[1..], |its[1..]|) by {
        forall j | 0 <= j < |its[1..]| ensures its[1..][j] == [] {
          assert its[1..][j] == its[j + 1];
        }
      }
      FlattenEmpty(its[1..]);
    }
  }

  lemma {:induction false} MergeFromMultiset(p: Policy, buff: seq<Pending>, its: seq<seq<Record>>)
    requires Sources(buff, |its|) && Covered(buff, its, |its|)
    ensures multiset(MergeFrom(p, buff, its)) == multiset(Recs(buff)) + multiset(Flatten(its))
    decreases |buff| + TotalLen(its)
  {
    if buff == [] {
      FlattenEmpty(its);
    } else {
      PopStep(p, buff, its);
      var r := AddNext(p, buff[1..], its, buff[0].src);
      AddNextMeasure(p, buff[1..], its, buff[0].src);
      MergeFromStep(p, buff, its);
      MergeFromMultiset(p, r.0, r.1);
      var tail := MergeFrom(p, r.0, r.1);
      assert multiset([buff[0].rec] + tail) == multiset{buff[0].rec} + multiset(tail);
    }
  }

  /** Under either policy, every record of every file is processed exactly once. */
  lemma {:induction false} MergedOrderPermutation(p: Policy, streams: seq<seq<Record>>)
    ensures multiset(MergedOrder(p, streams)) == multiset(Flatten(streams))
  {
    FillSources(p, [], streams, 0);
    FillMultiset(p, [], streams, 0);
    var r := FillFrom(p, [], streams, 0);
    MergeFromMultiset(p, r.0, r.1);
  }

  // ----- At most one pending record per file -----

  /** No two buffered records come from the same iterator. */
  predicate OnePerSource(buff: seq<Pending>)
  {
    forall i, j :: 0 <= i < j < |buff| ==> buff[i].src != buff[j].src
  }

  /** Inserting a record of an iterator that has none in the buffer keeps
      one record per iterator. */
  lemma {:induction false} InsertOnePerSource(buff: seq<Pending>, i: nat, e: Pending)
    requires i <= |buff| && OnePerSource(buff) && e.src !in Srcs(buff)
    ensures OnePerSource(Insert(buff, i, e))
  {
    var r := Insert(buff, i, e);
    forall a, b | 0 <= a < b < |r| ensures r[a].src != r[b].src {
      if a == i {
        assert r[b] == buff[b - 1] && r[b] in buff;
      } else if b == i {
        assert r[a] == buff[a] && r[a] in buff;
      } else {
        var a' := if a < i then a else a - 1;
        var b' := if b < i then b else b - 1;
        assert r[a] == buff[a'] && r[b] == buff[b'];
      }
    }
  }

  lemma {:induction false} AddNextOnePerSource(p: Policy, buff: seq<Pending>, its: seq<seq<Record>>, k: nat)
    requires k < |its| && OnePerSource(buff) && k !in Srcs(buff)
    ensures OnePerSource(AddNext(p, buff, its, k).0)
  {
    if its[k] != [] {
      InsertOnePerSource(buff, InsertIndex(p, buff, Time(its[k][0])), Pending(its[k][0], k));
    }
  }

  /** The initial loop of `read_data` leaves at most one record per file
      in the buffer. */
  lemma {:induction false} FillOnePerSource(p: Policy, buff: seq<Pending>, its: seq<seq<Record>>, k: nat)
    requires k <= |its| && OnePerSource(buff) && forall s :: s in Srcs(buff) ==> s < k
    ensures OnePerSource(FillFrom(p, buff, its, k).0)
    decreases |its| - k
  {
    if k < |its| {
      AddNextOnePerSource(p, buff, its, k);
      AddNextContents(p, buff, its, k);
      var r := AddNext(p, buff, its, k);
      FillOnePerSource(p, r.0, r.1, k + 1);
    }
  }

  /** A turn of the main loop keeps at most one record per file: only the
      file of the popped record is read again. */
  lemma {:induction false} PopOnePerSource(p: Policy, buff: seq<Pending>, its: seq<seq<Record>>)
    requires buff != [] && buff[0].src < |its| && OnePerSource(buff)
    ensures OnePerSource(AddNext(p, buff[1..], its, buff[0].src).0)
  {
    var rest := buff[1..];
    assert OnePerSource(rest) by {
      forall a, b | 0 <= a < b < |rest| ensures rest[a].src != rest[b].src {
        assert rest[a] == buff[a + 1] && rest[b] == buff[b + 1];
      }
    }
    AddNextOnePerSource(p, rest, its, buff[0].src);
  }

  // ----- Ordering -----

  lemma {:induction false} AddNextIntoEmpty(p: Policy, its: seq<seq<Record>>, k: nat)
    requires k < |its| && its[k] != []
    ensures AddNext(p, [], its, k) == ([Pending(its[k][0], k)], its[k := its[k][1..]])
  {
    var e := Pending(its[k][0], k);
    assert InsertIndex(p, [], Time(its[k][0])) == 0;
    assert Insert([], 0, e) == [e];
  }

  /** One turn of the main loop of `read_data`. */
  lemma {:induction false} MergeFromStep(p: Policy, buff: seq<Pending>, its: seq<seq<Record>>)
    requires buff != [] && Sources(buff, |its|)
    ensures var r := AddNext(p, buff[1..], its, buff[0].src);
      && Sources(r.0, |its|)
      && MergeFrom(p, buff, its) == [buff[0].rec] + MergeFrom(p, r.0, r.1)
      && |r.0| + TotalLen(r.1) < |buff| + TotalLen(its)
  {
    AddNextSources(p, buff[1..], its, buff[0].src);
    AddNextMeasure(p, buff[1..], its, buff[0].src);
  }

  /** With one file the merge is that file's record order. */
  lemma {:induction false} MergeFromSingle(p: Policy, head: Record, s: seq<Record>)
    ensures MergeFrom(p, [Pending(head, 0)], [s]) == [head] + s
    decreases |s|
  {
    var buff := [Pending(head, 0)];
    MergeFromStep(p, buff, [s]);
    assert buff[1..] == [];
    if s != [] {
      AddNextIntoEmpty(p, [s], 0);
      assert [s][0] == s && [s][0 := s[1..]] == [s[1..]];
      MergeFromSingle(p, s[0], s[1..]);
      assert [s[0]] + s[1..] == s;
    }
  }

  lemma {:induction false} MergedOrderSingle(p: Policy, s: seq<Record>)
    ensures MergedOrder(p, [s]) == s
  {
    var r := AddNext(p, [], [s], 0);
    assert FillFrom(p, [], [s], 0) == FillFrom(p, r.0, r.1, 1) == r;
    FillSources(p, [], [s], 0);
    if s != [] {
      AddNextIntoEmpty(p, [s], 0);
      assert [s][0] == s && [s][0 := s[1..]] == [s[1..]];
      assert r == ([Pending(s[0], 0)], [s[1..]]);
      MergeFromSingle(p, s[0], s[1..]);
    } else {
      assert r == ([], [s]);
    }
  }

  /** Inserting after every earlier-or-equal record and before the rest keeps a buffer sorted. */
  lemma {:induction false} InsertSorted(buff: seq<Pending>, i: nat, e: Pending)
    requires Sorted(Recs(buff)) && i <= |buff|
    requires forall m :: 0 <= m < i ==> Time(buff[m].rec) <= Time(e.rec)
    requires forall m :: i <= m < |buff| ==> Time(buff[m].rec) >= Time(e.rec)
    ensures Sorted(Recs(Insert(buff, i, e)))
  {
    var rs := Recs(Insert(buff, i, e));
    forall a, b | 0 <= a < b < |rs| ensures Time(rs[a]) <= Time(rs[b]) {
      var ra := if a < i then buff[a].rec else if a == i then e.rec else buff[a - 1].rec;
      var rb := if b < i then buff[b].rec else if b == i then e.rec else buff[b - 1].rec;
      assert rs[a] == ra && rs[b] == rb;
    }
  }

  /** As written, inserting into a sorted buffer keeps it sorted exactly
      when the buffer is empty or its last record is not earlier than the new one. */
  lemma {:induction false} InsertAsWrittenSortedIff(buff: seq<Pending>, e: Pending)
    requires Sorted(Recs(buff))
    ensures Sorted(Recs(Insert(buff, InsertIndex(AsWritten, buff, Time(e.rec)), e)))
      <==> buff == [] || Time(buff[|buff| - 1].rec) >= Time(e.rec)
  {
    if buff != [] && Time(buff[|buff| - 1].rec) < Time(e.rec) {
      InsertAsWrittenMisplaces(buff, e);
    } else {
      InsertAsWrittenKeepsSorted(buff, e);
    }
  }

  /** A record later than every buffered one goes before the last. */
  lemma {:induction false} InsertAsWrittenMisplaces(buff: seq<Pending>, e: Pending)
    requires Sorted(Recs(buff))
    requires buff != [] && Time(buff[|buff| - 1].rec) < Time(e.rec)
    ensures !Sorted(Recs(Insert(buff, InsertIndex(AsWritten, buff, Time(e.rec)), e)))
  {
    var t := Time(e.rec);
    FirstLaterPastLast(buff, t);
    var i := |buff| - 1;
    assert InsertIndex(AsWritten, buff, t) == i;
    var r := Insert(buff, i, e);
    assert r[i] == e && r[i + 1] == buff[i];
    var rs := Recs(r);
    assert Time(rs[i]) > Time(rs[i + 1]);
  }

  lemma {:induction false} FirstLaterPastLast(buff: seq<Pending>, t: int)
    requires Sorted(Recs(buff))
    requires buff != [] && Time(buff[|buff| - 1].rec) < t
    ensures FirstLater(buff, t) == |buff|
  {
    var rs := Recs(buff);
    forall m | 0 <= m < |buff| ensures Time(buff[m].rec) <= t {
      assert rs[m] == buff[m].rec && rs[|buff| - 1] == buff[|buff| - 1].rec;
    }
    FirstLaterIs(buff, t, |buff|);
  }

  lemma {:induction false} InsertAsWrittenKeepsSorted(buff: seq<Pending>, e: Pending)
    requires Sorted(Recs(buff))
    requires buff == [] || Time(buff[|buff| - 1].rec) >= Time(e.rec)
    ensures Sorted(Recs(Insert(buff, InsertIndex(AsWritten, buff, Time(e.rec)), e)))
  {
    var t := Time(e.rec);
    var f := FirstLater(buff, t);
    if buff == [] {
      InsertSorted(buff, 0, e);
    } else if f < |buff| {
      NotEarlierFrom(buff, f, t);
      InsertSorted(buff, f, e);
    } else {
      var last := |buff| - 1;
      assert InsertIndex(AsWritten, buff, t) == last;
      InsertSorted(buff, last, e);
    }
  }

  /** In a sorted buffer, everything from a record later than `t` on is
      later than `t`. */
  lemma {:induction false} NotEarlierFrom(buff: seq<Pending>, f: nat, t: int)
    requires Sorted(Recs(buff)) && f < |buff| && Time(buff[f].rec) > t
    ensures forall m :: f <= m < |buff| ==> Time(buff[m].rec) >= t
  {
    var rs := Recs(buff);
    forall m | f <= m < |buff| ensures Time(buff[m].rec) >= t {
      assert rs[f] == buff[f].rec && rs[m] == buff[m].rec;
    }
  }

  lemma {:induction false} InsertCorrectedSorted(buff: seq<Pending>, e: Pending)
    requires Sorted(Recs(buff))
    ensures Sorted(Recs(Insert(buff, InsertIndex(Corrected, buff, Time(e.rec)), e)))
  {
    var t := Time(e.rec);
    var f := FirstLater(buff, t);
    forall m | f <= m < |buff| ensures Time(buff[m].rec) >= t {
      assert Recs(buff)[f] == buff[f].rec;
    }
    InsertSorted(buff, f, e);
  }

  /** Each stream is sorted, and no record an iterator still holds is
      earlier than that iterator's pending record. */
  predicate Ordered(buff: seq<Pending>, its: seq<seq<Record>>)
  {
    && Sources(buff, |its|)
    && Sorted(Recs(buff))
    && (forall k :: 0 <= k < |its| ==> Sorted(its[k]))
    && (forall m, x :: 0 <= m < |buff| && x in its[buff[m].src] ==> Time(buff[m].rec) <= Time(x))
  }

  lemma {:induction false} AddNextOrdered(buff: seq<Pending>, its: seq<seq<Record>>, k: nat)
    requires k < |its| && Ordered(buff, its)
    ensures Ordered(AddNext(Corrected, buff, its, k).0, AddNext(Corrected, buff, its, k).1)
  {
    if its[k] != [] {
      var x := its[k][0];
      var i := InsertIndex(Corrected, buff, Time(x));
      var e := Pending(x, k);
      var u := its[k := its[k][1..]];
      InsertCorrectedSorted(buff, e);
      AddNextSources(Corrected, buff, its, k);
      InsertedBound(buff, its, k, i);
      SortedTail(its[k]);
      assert forall j :: 0 <= j < |u| ==> Sorted(u[j]);
      assert AddNext(Corrected, buff, its, k) == (Insert(buff, i, e), u);
    }
  }

  /** After `add_record(its[k])`, no pending record is later than what its
      iterator still holds. */
  lemma {:induction false} InsertedBound(buff: seq<Pending>, its: seq<seq<Record>>, k: nat, i: nat)
    requires k < |its| && its[k] != [] && Ordered(buff, its) && i <= |buff|
    ensures var r := Insert(buff, i, Pending(its[k][0], k));
      var u := its[k := its[k][1..]];
      forall m, y :: 0 <= m < |r| && y in u[r[m].src] ==> Time(r[m].rec) <= Time(y)
  {
    var r := Insert(buff, i, Pending(its[k][0], k));
    var u := its[k := its[k][1..]];
    forall m, y | 0 <= m < |r| && y in u[r[m].src] ensures Time(r[m].rec) <= Time(y) {
      if m == i {
        var n :| 0 <= n < |its[k][1..]| && its[k][1..][n] == y;
        assert its[k][n + 1] == y;
      } else if m < i {
        assert r[m] == buff[m];
        assert y in its[r[m].src];
      } else {
        assert r[m] == buff[m - 1];
        assert y in its[r[m].src];
      }
    }
  }

  lemma {:induction false} SortedTail(s: seq<Record>)
    requires Sorted(s) && s != []
    ensures Sorted(s[1..])
  {
    forall a, b | 0 <= a < b < |s| - 1 ensures Time(s[1..][a]) <= Time(s[1..][b]) {
      assert s[1..][a] == s[a + 1] && s[1..][b] == s[b + 1];
    }
  }

  lemma {:induction false} FillOrdered(buff: seq<Pending>, its: seq<seq<Record>>, k: nat)
    requires k <= |its| && Ordered(buff, its)
    ensures Ordered(FillFrom(Corrected, buff, its, k).0, FillFrom(Corrected, buff, its, k).1)
    decreases |its| - k
  {
    if k < |its| {
      AddNextOrdered(buff, its, k);
      var r := AddNext(Corrected, buff, its, k);
      FillOrdered(r.0, r.1, k + 1);
    }
  }

  lemma {:induction false} OrderedTail(buff: seq<Pending>, its: seq<seq<Record>>)
    requires Ordered(buff, its) && buff != []
    ensures Ordered(buff[1..], its)
  {
    var rest := buff[1..];
    assert Recs(rest) == Recs(buff)[1..];
    forall m, x | 0 <= m < |rest| && x in its[rest[m].src] ensures Time(rest[m].rec) <= Time(x) {
      assert rest[m] == buff[m + 1];
    }
  }

  /** A record of the flattened streams lies in one of them. */
  lemma {:induction false} InFlatten(its: seq<seq<Record>>, y: Record) returns (j: nat)
    requires y in Flatten(its)
    ensures j < |its| && y in its[j]
  {
    if y in its[0] {
      j := 0;
    } else {
      var j' := InFlatten(its[1..], y);
      j := j' + 1;
    }
  }

  /** No record still to be processed is earlier than the buffer head. */
  lemma {:induction false} HeadIsEarliest(buff: seq<Pending>, its: seq<seq<Record>>, y: Record)
    requires Ordered(buff, its) && Covered(buff, its, |its|) && buff != []
    requires y in multiset(Recs(buff)) + multiset(Flatten(its))
    ensures Time(buff[0].rec) <= Time(y)
  {
    if y in Recs(buff) {
      var m :| 0 <= m < |buff| && Recs(buff)[m] == y;
      assert Recs(buff)[0] == buff[0].rec;
    } else {
      assert y in Flatten(its);
      var j := InFlatten(its, y);
      assert j in Srcs(buff);
      var e :| e in buff && e.src == j;
      var m :| 0 <= m < |buff| && buff[m] == e;
      assert Time(buff[m].rec) <= Time(y);
      assert Recs(buff)[0] == buff[0].rec && Recs(buff)[m] == buff[m].rec;
    }
  }

  /** Under the corrected insertion the buffer head is the earliest record
      still to come, so the processing order is sorted. */
  lemma {:induction false} MergeFromSorted(buff: seq<Pending>, its: seq<seq<Record>>)
    requires Ordered(buff, its) && Covered(buff, its, |its|)
    ensures Sorted(MergeFrom(Corrected, buff, its))
    decreases |buff| + TotalLen(its)
  {
    if buff != [] {
      var k := buff[0].src;
      PopStep(Corrected, buff, its);
      OrderedTail(buff, its);
      AddNextOrdered(buff[1..], its, k);
      AddNextMeasure(Corrected, buff[1..], its, k);
      var r := AddNext(Corrected, buff[1..], its, k);
      var tail := MergeFrom(Corrected, r.0, r.1);
      MergeFromSorted(r.0, r.1);
      MergeFromMultiset(Corrected, r.0, r.1);
      HeadBeforeRest(buff, its, tail);
      SortedCons(buff[0].rec, tail);
      MergeFromStep(Corrected, buff, its);
    }
  }

  /** Whatever remains after the head is taken is no earlier than the head. */
  lemma {:induction false} HeadBeforeRest(buff: seq<Pending>, its: seq<seq<Record>>, rest: seq<Record>)
    requires Ordered(buff, its) && Covered(buff, its, |its|) && buff != []
    requires multiset(rest) + multiset{buff[0].rec} == multiset(Recs(buff)) + multiset(Flatten(its))
    ensures forall y :: y in rest ==> Time(buff[0].rec) <= Time(y)
  {
    forall y | y in rest ensures Time(buff[0].rec) <= Time(y) {
      assert y in multiset(rest);
      HeadIsEarliest(buff, its, y);
    }
  }

  lemma {:induction false} SortedCons(h: Record, rs: seq<Record>)
    requires Sorted(rs) && forall y :: y in rs ==> Time(h) <= Time(y)
    ensures Sorted([h] + rs)
  {
    var s := [h] + rs;
    forall a, b | 0 <= a < b < |s| ensures Time(s[a]) <= Time(s[b]) {
      assert s[b] == rs[b - 1];
      if a > 0 {
        assert s[a] == rs[a - 1];
      }
    }
  }

  /** Under the corrected insertion, sorted files merge into a sorted order
      holding every record exactly once. */
  lemma {:induction false} MergedOrderSorted(streams: seq<seq<Record>>)
    requires forall k :: 0 <= k < |streams| ==> Sorted(streams[k])
    ensures Sorted(MergedOrder(Corrected, streams))
    ensures multiset(MergedOrder(Corrected, streams)) == multiset(Flatten(streams))
  {
    FillSources(Corrected, [], streams, 0);
    FillOrdered([], streams, 0);
    FillMultiset(Corrected, [], streams, 0);
    var r := FillFrom(Corrected, [], streams, 0);
    MergeFromSorted(r.0, r.1);
    MergedOrderPermutation(Corrected, streams);
  }

  const EarlyBlock := Record(Header(8, 0, 1, 2), Block(5))
  const LateBlock := Record(Header(8, 0, 1, 2), Block(10))

  /** Two files holding one record each, at times 5 and 10: as written the
      record at 10 is processed first. */
  lemma {:induction false} MergeCounterexample()
    ensures MergedOrder(AsWritten, [[EarlyBlock], [LateBlock]]) == [LateBlock, EarlyBlock]
    ensures MergedOrder(Corrected, [[EarlyBlock], [LateBlock]]) == [EarlyBlock, LateBlock]
  {
    var streams := [[EarlyBlock], [LateBlock]];
    var early := Pending(EarlyBlock, 0);
    var late := Pending(LateBlock, 1);
    var done: seq<seq<Record>> := [[], []];
    AddNextIntoEmpty(AsWritten, streams, 0);
    AddNextIntoEmpty(Corrected, streams, 0);
    assert streams[0][0] == EarlyBlock && streams[0][1..] == [];
    assert streams[0 := []] == [[], [LateBlock]];
    var f1 := AddNext(AsWritten, [], streams, 0);
    assert f1 == ([early], [[], [LateBlock]]);
    assert AddNext(Corrected, [], streams, 0) == f1;
    assert FirstLater([early], 10) == 1;
    assert InsertIndex(AsWritten, [early], 10) == 0;
    assert InsertIndex(Corrected, [early], 10) == 1;
    assert [[], [LateBlock]][1 := []] == done;
    assert [[], [LateBlock]][1][0] == LateBlock && [[], [LateBlock]][1][1..] == [];
    assert Insert([early], 0, late) == [late, early];
    assert Insert([early], 1, late) == [early, late];
    var w := AddNext(AsWritten, [early], [[], [LateBlock]], 1);
    var c := AddNext(Corrected, [early], [[], [LateBlock]], 1);
    assert w == ([late, early], done);
    assert c == ([early, late], done);
    assert FillFrom(AsWritten, [], streams, 0) == FillFrom(AsWritten, [early], [[], [LateBlock]], 1) == w;
    assert FillFrom(Corrected, [], streams, 0) == FillFrom(Corrected, [early], [[], [LateBlock]], 1) == c;
    assert AddNext(AsWritten, [early], done, 1) == ([early], done);
    assert AddNext(AsWritten, [], done, 0) == ([], done);
    assert AddNext(Corrected, [late], done, 0) == ([late], done);
    assert AddNext(Corrected, [], done, 1) == ([], done);
    assert MergeFrom(AsWritten, [early], done) == [EarlyBlock];
    assert MergeFrom(AsWritten, [late, early], done) == [LateBlock, EarlyBlock];
    assert MergeFrom(Corrected, [late], done) == [LateBlock];
    assert MergeFrom(Corrected, [early, late], done) == [EarlyBlock, LateBlock];
  }
}
