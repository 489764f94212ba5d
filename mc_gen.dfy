/** The mixed-criticality experiment generator of gen/mc_generators.py:
    worst-fit partitioning of level-A and level-B tasks, the share-based
    scale and utilization bounds, the kernel configuration options, and the
    colouring decorations `ColorMcGenerator._customize` adds. */
module McGen {
  import opened Common
  import opened GenTasks
  import opened Coloring

  // ---------------------------------------------------------------------
  // Worst-fit partitioning (`__partition_worst_fit`)
  // ---------------------------------------------------------------------

  /** `xs.index(min(xs))`: the first index holding the minimum. */
  function ArgMin(xs: seq<real>): (k: nat)
    requires |xs| > 0
    ensures k < |xs|
    ensures forall i :: 0 <= i < |xs| ==> xs[k] <= xs[i]
    ensures forall i :: 0 <= i < k ==> xs[i] > xs[k]
  {
    if |xs| == 1 then 0
    else
      var k := ArgMin(xs[..|xs| - 1]);
      if xs[|xs| - 1] < xs[k] then |xs| - 1 else k
  }

  /** Utilization placed on CPU index `c` by the first `k` tasks, whose
      utilizations are `us` and whose CPU indices are `cs`. */
  function LoadOn(c: int, cs: seq<nat>, us: seq<real>, k: nat): real
    requires k <= |cs| == |us|
  {
    if k == 0 then 0.0
    else LoadOn(c, cs, us, k - 1) + (if cs[k - 1] == c then us[k - 1] else 0.0)
  }

  /** Number of the first `k` tasks placed on CPU index `c`. */
  function CountOn(c: int, cs: seq<nat>, k: nat): nat
    requires k <= |cs|
  {
    if k == 0 then 0
    else CountOn(c, cs, k - 1) + (if cs[k - 1] == c then 1 else 0)
  }

  /** The `utils` list once the first `k` tasks are placed. */
  function Loads(n: nat, cs: seq<nat>, us: seq<real>, k: nat): (ls: seq<real>)
    requires k <= |cs| == |us|
    ensures |ls| == n
  {
    seq(n, c => LoadOn(c, cs, us, k))
  }

  /** CPU indices worst fit chooses, task by task, on `n` CPUs. */
  function Choices(n: nat, us: seq<real>): (cs: seq<nat>)
    requires n > 0
    ensures |cs| == |us|
    ensures forall i :: 0 <= i < |cs| ==> cs[i] < n
  {
    if us == [] then []
    else
      var prev := Choices(n, us[..|us| - 1]);
      prev + [ArgMin(Loads(n, prev, us[..|us| - 1], |prev|))]
  }

  /** The utilizations of the tasks, in order. */
  function Utils(ts: seq<GenTask>): (us: seq<real>)
    ensures |us| == |ts|
  {
    seq(|ts|, i requires 0 <= i < |ts| => ts[i].util)
  }

  /** CPUs left for partitioning: the release master takes none. */
  function Usable(cpus: int, releaseMaster: bool): int
  {
    if releaseMaster then cpus - 1 else cpus
  }

  lemma {:induction false} ChoicesPrefix(n: nat, us: seq<real>, k: nat)
    requires n > 0 && k <= |us|
    ensures Choices(n, us)[..k] == Choices(n, us[..k])
    decreases |us| - k
  {
    if k < |us| {
      ChoicesPrefix(n, us, k + 1);
      var init := us[..k + 1];
      assert init[..|init| - 1] == us[..k];
      calc {
        Choices(n, us)[..k];
        Choices(n, us)[..k + 1][..k];
        Choices(n, init)[..k];
        Choices(n, us[..k]);
      }
    } else {
      assert us[..k] == us;
    }
  }

  /** Loads depend only on the tasks placed so far. */
  lemma {:induction false} LoadOnPrefix(c: int, cs: seq<nat>, us: seq<real>, cs': seq<nat>, us': seq<real>, k: nat)
    requires k <= |cs| == |us| && k <= |cs'| == |us'|
    requires cs[..k] == cs'[..k] && us[..k] == us'[..k]
    ensures LoadOn(c, cs, us, k) == LoadOn(c, cs', us', k)
  {
    if k > 0 {
      assert cs[k - 1] == cs[..k][k - 1] && cs'[k - 1] == cs'[..k][k - 1];
      assert us[k - 1] == us[..k][k - 1] && us'[k - 1] == us'[..k][k - 1];
      assert cs[..k - 1] == cs[..k][..k - 1] && cs'[..k - 1] == cs'[..k][..k - 1];
      assert us[..k - 1] == us[..k][..k - 1] && us'[..k - 1] == us'[..k][..k - 1];
      LoadOnPrefix(c, cs, us, cs', us', k - 1);
    }
  }

  /** The `i`-th choice is the first minimum of the loads the earlier
      tasks left. */
  lemma WorstFitStep(n: nat, us: seq<real>, i: nat)
    requires n > 0 && i < |us|
    ensures var cs := Choices(n, us); cs[i] == ArgMin(Loads(n, cs, us, i))
  {
    var cs := Choices(n, us);
    ChoicesPrefix(n, us, i + 1);
    ChoicesPrefix(n, us, i);
    var init := us[..i + 1];
    assert init[..|init| - 1] == us[..i];
    var prev := cs[..i];
    assert prev[..i] == cs[..i] && us[..i][..i] == us[..i];
    forall c | 0 <= c < n
      ensures LoadOn(c, prev, us[..i], i) == LoadOn(c, cs, us, i)
    {
      LoadOnPrefix(c, prev, us[..i], cs, us, i);
    }
    assert Loads(n, prev, us[..i], i) == Loads(n, cs, us, i);
  }

  /** Worst fit sends the `i`-th task to the first CPU of least load among
      those the earlier tasks left. */
  lemma WorstFitChoice(n: nat, us: seq<real>, i: nat)
    requires n > 0 && i < |us|
    ensures var cs := Choices(n, us);
      && (forall c :: 0 <= c < n ==> LoadOn(cs[i], cs, us, i) <= LoadOn(c, cs, us, i))
      && (forall c :: 0 <= c < cs[i] ==> LoadOn(c, cs, us, i) > LoadOn(cs[i], cs, us, i))
  {
    WorstFitStep(n, us, i);
    var cs := Choices(n, us);
    var ls := Loads(n, cs, us, i);
    forall c | 0 <= c < n
      ensures LoadOn(cs[i], cs, us, i) <= LoadOn(c, cs, us, i)
      ensures c < cs[i] ==> LoadOn(c, cs, us, i) > LoadOn(cs[i], cs, us, i)
    {
      assert ls[cs[i]] <= ls[c];
      assert c < cs[i] ==> ls[c] > ls[cs[i]];
    }
  }

  /** With utilizations in `[0, hi]`, worst fit keeps every two CPUs' loads
      within `hi` of each other. */
  lemma {:induction false} WorstFitBalanced(n: nat, us: seq<real>, hi: real)
    requires n > 0 && 0.0 <= hi
    requires forall i :: 0 <= i < |us| ==> 0.0 <= us[i] <= hi
    ensures forall c, d :: 0 <= c < n && 0 <= d < n ==>
      LoadOn(c, Choices(n, us), us, |us|) <= LoadOn(d, Choices(n, us), us, |us|) + hi
  {
    if us != [] {
      var k := |us| - 1;
      var init := us[..k];
      var prev := Choices(n, init);
      WorstFitBalanced(n, init, hi);
      var cs := Choices(n, us);
      ChoicesPrefix(n, us, k);
      WorstFitStep(n, us, k);
      var a := cs[k];
      assert prev[..k] == cs[..k] && init[..k] == us[..k];
      forall c, d | 0 <= c < n && 0 <= d < n
        ensures LoadOn(c, cs, us, |us|) <= LoadOn(d, cs, us, |us|) + hi
      {
        LoadOnPrefix(c, prev, init, cs, us, k);
        LoadOnPrefix(d, prev, init, cs, us, k);
        LoadOnPrefix(a, prev, init, cs, us, k);
        assert Loads(n, cs, us, k)[a] <= Loads(n, cs, us, k)[d];
      }
    }
  }

  /** `Sum` after one element is replaced. */
  lemma {:induction false} SumUpdate(xs: seq<real>, k: nat, v: real)
    requires k < |xs|
    ensures Sum(xs[k := v]) == Sum(xs) - xs[k] + v
  {
    var ys := xs[k := v];
    if k < |xs| - 1 {
      assert ys[..|ys| - 1] == xs[..|xs| - 1][k := v];
      SumUpdate(xs[..|xs| - 1], k, v);
    } else {
      assert ys[..|ys| - 1] == xs[..|xs| - 1];
    }
  }

  lemma {:induction false} SumZeros(n: nat)
    ensures Sum(seq(n, _ => 0.0)) == 0.0
  {
    if n > 0 {
      assert seq(n, _ => 0.0)[..n - 1] == seq(n - 1, _ => 0.0);
      SumZeros(n - 1);
    }
  }

  /** Every task is placed on exactly one CPU: the CPUs' loads add up to
      the total utilization of the tasks placed. */
  lemma {:induction false} LoadsConserve(n: nat, cs: seq<nat>, us: seq<real>, k: nat)
    requires k <= |cs| == |us|
    requires forall i :: 0 <= i < |cs| ==> cs[i] < n
    ensures Sum(Loads(n, cs, us, k)) == Sum(us[..k])
  {
    if k == 0 {
      assert Loads(n, cs, us, k) == seq(n, _ => 0.0);
      SumZeros(n);
    } else {
      var c := cs[k - 1];
      var prev := Loads(n, cs, us, k - 1);
      LoadsConserve(n, cs, us, k - 1);
      assert Loads(n, cs, us, k) == prev[c := prev[c] + us[k - 1]];
      SumUpdate(prev, c, prev[c] + us[k - 1]);
      assert us[..k][..k - 1] == us[..k - 1];
    }
  }

  lemma {:induction false} CountMono(c: int, cs: seq<nat>, i: nat, j: nat)
    requires i <= j <= |cs|
    ensures CountOn(c, cs, i) <= CountOn(c, cs, j)
    decreases j
  {
    if i < j {
      CountMono(c, cs, i, j - 1);
    }
  }

  /** Later tasks on the same CPU get larger per-CPU ids. */
  lemma IdsIncrease(cs: seq<nat>, i: nat, j: nat)
    requires i < j < |cs| && cs[i] == cs[j]
    ensures CountOn(cs[i], cs, i) < CountOn(cs[j], cs, j)
  {
    CountMono(cs[i], cs, i + 1, j);
  }

  /** The per-CPU ids on CPU `c` cover `0 .. CountOn(c) - 1`: together
      with IdsIncrease, they are exactly 0, 1, 2, ... in placement order. */
  lemma {:induction false} IdsCover(c: int, cs: seq<nat>, k: nat, m: nat)
    requires k <= |cs| && m < CountOn(c, cs, k)
    ensures exists i :: 0 <= i < k && cs[i] == c && CountOn(c, cs, i) == m
  {
    if m < CountOn(c, cs, k - 1) {
      IdsCover(c, cs, k - 1, m);
    } else {
      assert cs[k - 1] == c && CountOn(c, cs, k - 1) == m;
    }
  }

  /** `__partition_worst_fit(params, ts)`: each task goes to the CPU of least
      accumulated utilization, gets the number of tasks already there as its
      level-A id, and has its CPU shifted by one past the release master. */
  method PartitionWorstFit(cpus: int, releaseMaster: bool, ts: seq<GenTask>) returns (err: Option<Error>)
    requires Distinct(ts)
    modifies set t | t in ts
    ensures var n := Usable(cpus, releaseMaster);
      && (err.Some? <==> n <= 0 && |ts| > 0)
      && (err.Some? ==> err == Some(ValueError))
      && (n > 0 ==>
            var cs := Choices(n, Utils(ts));
            forall i {:trigger ts[i]} :: 0 <= i < |ts| ==>
              && ts[i].cpu == cs[i] + 1 && 1 <= ts[i].cpu <= n
              && ts[i].lvlaId == CountOn(cs[i], cs, i))
      && (n <= 0 ==> forall i :: 0 <= i < |ts| ==> ts[i].cpu == old(ts[i].cpu) && ts[i].lvlaId == old(ts[i].lvlaId))
    ensures forall i :: 0 <= i < |ts| ==> ts[i].id == old(ts[i].id) && ts[i].wss == old(ts[i].wss) && ts[i].colors == old(ts[i].colors)
  {
    var n := Usable(cpus, releaseMaster);
    if n <= 0 {
      // `min` of the empty `utils` list
      return if |ts| > 0 then Some(ValueError) else None;
    }
    Partition(n, ts);
    err := None;
  }

  /** The loop of `__partition_worst_fit` over `n > 0` CPUs. */
  method Partition(n: nat, ts: seq<GenTask>)
    requires n > 0 && Distinct(ts)
    modifies set t | t in ts
    ensures var cs := Choices(n, Utils(ts));
      forall i {:trigger ts[i]} :: 0 <= i < |ts| ==> ts[i].cpu == cs[i] + 1 && ts[i].lvlaId == CountOn(cs[i], cs, i)
    ensures forall i :: 0 <= i < |ts| ==> ts[i].id == old(ts[i].id) && ts[i].wss == old(ts[i].wss) && ts[i].colors == old(ts[i].colors)
  {
    ghost var us := Utils(ts);
    ghost var cs := Choices(n, us);
    forall i | 0 <= i < |ts|
      ensures WorstFitAt(n, cs, us, i)
    {
      WorstFitStep(n, us, i);
    }
    PlaceAll(n, ts, us, cs);
  }

  /** `cs[i]` is the first least-loaded CPU index left by the tasks before
      it. */
  predicate WorstFitAt(n: nat, cs: seq<nat>, us: seq<real>, i: nat)
    requires i < |cs| == |us|
  {
    0 < n && cs[i] == ArgMin(Loads(n, cs, us, i))
  }

  /** The loop itself, over any choices that follow worst fit. */
  method PlaceAll(n: nat, ts: seq<GenTask>, ghost us: seq<real>, ghost cs: seq<nat>)
    requires n > 0 && Distinct(ts) && |us| == |cs| == |ts|
    requires forall i :: 0 <= i < |ts| ==> us[i] == ts[i].util
    requires forall i :: 0 <= i < |ts| ==> WorstFitAt(n, cs, us, i)
    modifies set t | t in ts
    ensures forall i {:trigger ts[i]} :: 0 <= i < |ts| ==> ts[i].cpu == cs[i] + 1 && ts[i].lvlaId == CountOn(cs[i], cs, i)
    ensures forall i :: 0 <= i < |ts| ==> ts[i].id == old(ts[i].id) && ts[i].wss == old(ts[i].wss) && ts[i].colors == old(ts[i].colors)
  {
    var utils := new real[n](_ => 0.0);
    var tasks := new nat[n](_ => 0);
    for i := 0 to |ts|
      invariant forall c :: 0 <= c < n ==> utils[c] == LoadOn(c, cs, us, i)
      invariant forall c :: 0 <= c < n ==> tasks[c] == CountOn(c, cs, i)
      invariant forall j {:trigger ts[j]} :: 0 <= j < i ==> ts[j].cpu == cs[j] + 1 && ts[j].lvlaId == CountOn(cs[j], cs, j)
      invariant forall j :: 0 <= j < |ts| ==> ts[j].id == old(ts[j].id) && ts[j].wss == old(ts[j].wss) && ts[j].colors == old(ts[j].colors)
    {
      assert forall j :: 0 <= j < i ==> ts[j] != ts[i];
      PlaceTask(ts, i, utils, tasks, n, us, cs);
    }
  }

  /** One pass of the loop: `ts[i]` goes to the first least-loaded CPU. */
  method PlaceTask(ts: seq<GenTask>, i: nat, utils: array<real>, tasks: array<nat>,
                   ghost n: nat, ghost us: seq<real>, ghost cs: seq<nat>)
    requires i < |ts| == |us| == |cs| && us[i] == ts[i].util && WorstFitAt(n, cs, us, i)
    requires utils.Length == n == tasks.Length
    requires forall c :: 0 <= c < n ==> utils[c] == LoadOn(c, cs, us, i)
    requires forall c :: 0 <= c < n ==> tasks[c] == CountOn(c, cs, i)
    modifies ts[i], utils, tasks
    ensures forall c :: 0 <= c < n ==> utils[c] == LoadOn(c, cs, us, i + 1)
    ensures forall c :: 0 <= c < n ==> tasks[c] == CountOn(c, cs, i + 1)
    ensures ts[i].cpu == cs[i] + 1 && ts[i].lvlaId == CountOn(cs[i], cs, i)
    ensures ts[i].id == old(ts[i].id) && ts[i].wss == old(ts[i].wss) && ts[i].colors == old(ts[i].colors)
  {
    var t := ts[i];
    assert utils[..] == Loads(n, cs, us, i);
    var c := ArgMin(utils[..]);
    t.cpu := c;
    t.lvlaId := tasks[c];
    utils[c] := utils[c] + t.util;
    tasks[c] := tasks[c] + 1;
    t.cpu := t.cpu + 1;
  }

  // ---------------------------------------------------------------------
  // Shares, scales and utilization bounds (`__adjust`, `__get_scale`,
  // `__get_max_util`)
  // ---------------------------------------------------------------------

  /** `__adjust(params, level)`: a copy of the shares without the levels the
      experiment does not use, and the level renumbered accordingly. Below
      four levels the last share (level D) goes; below three the first
      (level A) goes too and the level moves down by one. `pop` on an empty
      list raises IndexError. */
  function Adjust(levels: int, shares: seq<real>, level: int): (r: Result<(seq<real>, int)>)
    ensures var dropFirst := if levels < 3 then 1 else 0;
      var dropLast := if levels < 4 then 1 else 0;
      && (r.Err? <==> |shares| < dropFirst + dropLast)
      && (r.Err? ==> r.error == IndexError)
      && (r.Ok? ==> r.value == (shares[dropFirst..|shares| - dropLast], level - dropFirst))
  {
    if levels < 4 && |shares| == 0 then Err(IndexError)
    else
      var s := if levels < 4 then shares[..|shares| - 1] else shares;
      if levels < 3 && |s| == 0 then Err(IndexError)
      else if levels < 3 then Ok((s[1..], level - 1))
      else assert s == shares[0..|shares| - (if levels < 4 then 1 else 0)]; Ok((s, level))
  }

  /** The statements of `__adjust`: pops from a copy of the shares, so the
      caller's list is left as it was. */
  method AdjustShares(levels: int, shares: seq<real>, level: int) returns (r: Result<(seq<real>, int)>)
    ensures r == Adjust(levels, shares, level)
  {
    var s := shares;
    var l := level;
    if levels < 4 {
      if |s| == 0 {
        return Err(IndexError);
      }
      s := s[..|s| - 1];
    }
    if levels < 3 {
      if |s| == 0 {
        return Err(IndexError);
      }
      s := s[1..];
      l := l - 1;
    }
    r := Ok((s, l));
  }

  /** Python `xs[:k]`, negative `k` counting from the end. */
  function SliceTo(xs: seq<real>, k: int): (r: seq<real>)
    ensures k >= 0 ==> r == Take(xs, k)
    ensures k < 0 ==> r == Take(xs, Max(0, |xs| + k))
  {
    if k >= 0 then Take(xs, k) else Take(xs, Max(0, |xs| + k))
  }

  /** Python `xs[i]`, negative `i` counting from the end. */
  function Index(xs: seq<real>, i: int): (r: Result<real>)
    ensures r.Err? <==> !(-|xs| <= i < |xs|)
    ensures r.Err? ==> r.error == IndexError
    ensures 0 <= i < |xs| ==> r == Ok(xs[i])
    ensures -|xs| <= i < 0 ==> r == Ok(xs[|xs| + i])
  {
    if 0 <= i < |xs| then Ok(xs[i])
    else if -|xs| <= i < 0 then Ok(xs[|xs| + i])
    else Err(IndexError)
  }

  /** `__get_scale(params, level)`: the share of the levels up to `level`
      among all used levels. */
  function GetScale(levels: int, shares: seq<real>, level: int): Result<real>
  {
    match Adjust(levels, shares, level)
    case Err(e) => Err(e)
    case Ok((s, l)) =>
      var total := Sum(s);
      if total == 0.0 then Err(ZeroDivision) else Ok(Sum(SliceTo(s, l + 1)) / total)
  }

  /** `__get_max_util(params, level)`: the level's share relative to the
      levels up to it, times the CPU count. */
  function GetMaxUtil(levels: int, shares: seq<real>, level: int, cpus: real): Result<real>
  {
    match Adjust(levels, shares, level)
    case Err(e) => Err(e)
    case Ok((s, l)) =>
      match Index(s, l)
      case Err(e) => Err(e)
      case Ok(x) =>
        var below := Sum(SliceTo(s, l + 1));
        if below == 0.0 then Err(ZeroDivision) else Ok(x / below * cpus)
  }

  predicate NonNegative(xs: seq<real>)
  {
    forall i :: 0 <= i < |xs| ==> xs[i] >= 0.0
  }

  lemma {:induction false} SumNonNegative(xs: seq<real>)
    requires NonNegative(xs)
    ensures Sum(xs) >= 0.0
  {
    if xs != [] {
      SumNonNegative(xs[..|xs| - 1]);
    }
  }

  /** Longer prefixes of non-negative shares sum to more. */
  lemma {:induction false} SumPrefixMono(xs: seq<real>, i: nat, j: nat)
    requires NonNegative(xs) && i <= j <= |xs|
    ensures Sum(xs[..i]) <= Sum(xs[..j])
    decreases j
  {
    if i < j {
      var p := xs[..j];
      assert p[..|p| - 1] == xs[..j - 1];
      SumPrefixMono(xs, i, j - 1);
    }
  }

  lemma SliceToPrefix(xs: seq<real>, k: int)
    ensures exists m :: 0 <= m <= |xs| && SliceTo(xs, k) == xs[..m]
  {
    var m := if k >= 0 then Min(k, |xs|) else Max(0, |xs| + k);
    assert SliceTo(xs, k) == xs[..m];
  }

  lemma SubSharesNonNegative(levels: int, shares: seq<real>, level: int)
    requires NonNegative(shares)
    ensures Adjust(levels, shares, level).Ok? ==> NonNegative(Adjust(levels, shares, level).value.0)
  {
  }

  /** For non-negative shares a scale lies in `[0, 1]`. */
  lemma ScaleBounds(levels: int, shares: seq<real>, level: int)
    requires NonNegative(shares)
    ensures var r := GetScale(levels, shares, level);
      r.Ok? ==> 0.0 <= r.value <= 1.0
  {
    SubSharesNonNegative(levels, shares, level);
    var a := Adjust(levels, shares, level);
    if a.Ok? {
      var (s, l) := a.value;
      SliceToPrefix(s, l + 1);
      var m :| 0 <= m <= |s| && SliceTo(s, l + 1) == s[..m];
      SumPrefixMono(s, m, |s|);
      SumPrefixMono(s, 0, m);
      assert s[..|s|] == s;
      assert s[..0] == [];
      if Sum(s) != 0.0 {
        Fraction(Sum(s[..m]), Sum(s));
      }
    }
  }

  /** The scale of the last used level is 1. */
  lemma ScaleLast(levels: int, shares: seq<real>, level: int)
    requires Adjust(levels, shares, level).Ok?
    requires var (s, l) := Adjust(levels, shares, level).value; l == |s| - 1
    ensures GetScale(levels, shares, level).Ok? ==> GetScale(levels, shares, level) == Ok(1.0)
  {
    var (s, l) := Adjust(levels, shares, level).value;
    assert SliceTo(s, l + 1) == s;
    if Sum(s) != 0.0 {
      assert Sum(s) / Sum(s) == 1.0;
    }
  }

  /** Dropping unused levels: level C is the last level of a three-level
      set with four shares, so its scale is 1 there. */
  lemma LevelCScaleIsOne(levels: int, shares: seq<real>)
    requires |shares| == 4 && 2 <= levels <= 3
    ensures GetScale(levels, shares, 2).Ok? ==> GetScale(levels, shares, 2) == Ok(1.0)
  {
    ScaleLast(levels, shares, 2);
  }

  /** Scales grow with the level, once the renumbered level is not negative. */
  lemma ScaleMonotone(levels: int, shares: seq<real>, i: int, j: int)
    requires NonNegative(shares) && i <= j
    requires i - (if levels < 3 then 1 else 0) >= -1
    ensures var ri, rj := GetScale(levels, shares, i), GetScale(levels, shares, j);
      ri.Ok? && rj.Ok? ==> ri.value <= rj.value
  {
    SubSharesNonNegative(levels, shares, i);
    var ai, aj := Adjust(levels, shares, i), Adjust(levels, shares, j);
    if ai.Ok? && aj.Ok? {
      var (s, li) := ai.value;
      var (_, lj) := aj.value;
      var mi, mj := Min(li + 1, |s|), Min(lj + 1, |s|);
      assert SliceTo(s, li + 1) == s[..mi];
      assert SliceTo(s, lj + 1) == s[..mj];
      SumPrefixMono(s, mi, mj);
      SumPrefixMono(s, mj, |s|);
      assert s[..|s|] == s;
      if Sum(s) != 0.0 {
        SumNonNegative(s);
        DivMono(Sum(s[..mi]), Sum(s[..mj]), Sum(s));
      }
    }
  }

  /** For non-negative shares and CPUs, and a level that is not negative
      once renumbered, the maximum utilization lies in `[0, cpus]`: the
      level's share is part of the sum it is divided by. */
  lemma MaxUtilBounds(levels: int, shares: seq<real>, level: int, cpus: real)
    requires NonNegative(shares) && cpus >= 0.0
    requires level - (if levels < 3 then 1 else 0) >= 0
    ensures var r := GetMaxUtil(levels, shares, level, cpus);
      r.Ok? ==> 0.0 <= r.value <= cpus
  {
    SubSharesNonNegative(levels, shares, level);
    var a := Adjust(levels, shares, level);
    if a.Ok? {
      var (s, l) := a.value;
      if l < |s| {
        var p := s[..l + 1];
        assert SliceTo(s, l + 1) == p;
        assert p[..|p| - 1] == s[..l];
        SumNonNegative(s[..l]);
        var x, below := s[l], Sum(p);
        if below != 0.0 {
          assert 0.0 <= x <= below;
          Fraction(x, below);
          assert x / below * cpus <= cpus;
        }
      }
    }
  }

  // ---------------------------------------------------------------------
  // Experiment parameters and kernel options (`_create_exp`)
  // ---------------------------------------------------------------------

  const McOpt := "PLUGIN_MC"
  const TmOpt := "MERGE_TIMERS"
  const RdOpt := "PLUGIN_MC_REDIRECT"
  const SsOpt := "PLUGIN_MC_LINUX_SLACK_STEALING"

  /** The experiment parameters `_create_exp` reads; only `release_master`
      is written. */
  class ExpParams {
    var releaseMaster: bool
    const timerMerging: bool
    const redirect: bool
    const slackStealing: bool

    constructor (releaseMaster: bool, timerMerging: bool, redirect: bool, slackStealing: bool)
      ensures this.releaseMaster == releaseMaster && this.timerMerging == timerMerging
      ensures this.redirect == redirect && this.slackStealing == slackStealing
    {
      this.releaseMaster := releaseMaster;
      this.timerMerging := timerMerging;
      this.redirect := redirect;
      this.slackStealing := slackStealing;
    }

    /** The `conf_options` dictionary: the MC plugin always, each optional
      feature exactly when its flag is set, every value "y". Redirection
      forces a release master. */
    method ConfigOptions() returns (conf: map<string, string>)
      modifies this
      ensures releaseMaster == (old(releaseMaster) || redirect)
      ensures McOpt in conf
      ensures TmOpt in conf <==> timerMerging
      ensures RdOpt in conf <==> redirect
      ensures SsOpt in conf <==> slackStealing
      ensures forall k :: k in conf ==> k in {McOpt, TmOpt, RdOpt, SsOpt} && conf[k] == "y"
    {
      conf := map[McOpt := "y"];
      if timerMerging {
        conf := conf[TmOpt := "y"];
      }
      if redirect {
        if !releaseMaster {
          releaseMaster := true;
        }
        conf := conf[RdOpt := "y"];
      }
      if slackStealing {
        conf := conf[SsOpt := "y"];
      }
    }
  }

  /** `'scale%s' % level` for the level letters 'a', 'b', 'c'. */
  function ScaleName(i: nat): string
    requires i < 3
  {
    "scale" + ["abc"[i]]
  }

  /** The `scales` list over the first `k` levels: one named entry per
      level that has tasks; the first failing `__get_scale` aborts. */
  function ScaleList(levels: int, shares: seq<real>, present: seq<bool>, k: nat): Result<seq<(string, real)>>
    requires k <= |present| <= 3
  {
    if k == 0 then Ok([])
    else
      match ScaleList(levels, shares, present, k - 1)
      case Err(e) => Err(e)
      case Ok(ss) =>
        if !present[k - 1] then Ok(ss)
        else
          match GetScale(levels, shares, k - 1)
          case Err(e) => Err(e)
          case Ok(x) => Ok(ss + [(ScaleName(k - 1), x)])
  }

  /** Every scale entry names a level with tasks and holds its scale. */
  lemma {:induction false} ScaleListSound(levels: int, shares: seq<real>, present: seq<bool>, k: nat)
    requires k <= |present| <= 3
    ensures var r := ScaleList(levels, shares, present, k);
      r.Ok? ==> forall e :: e in r.value ==>
        exists i :: 0 <= i < k && present[i] && e.0 == ScaleName(i) && GetScale(levels, shares, i) == Ok(e.1)
  {
    if k > 0 {
      var r := ScaleList(levels, shares, present, k);
      ScaleListSound(levels, shares, present, k - 1);
      if r.Ok? && present[k - 1] {
        var ss := ScaleList(levels, shares, present, k - 1).value;
        var last := (ScaleName(k - 1), GetScale(levels, shares, k - 1).value);
        assert r.value == ss + [last];
        forall e | e in r.value
          ensures exists i :: 0 <= i < k && present[i] && e.0 == ScaleName(i) && GetScale(levels, shares, i) == Ok(e.1)
        {
          if e !in ss {
            assert e == last;
          }
        }
      }
    }
  }

  /** Every level with tasks has a scale entry, in level order. */
  lemma {:induction false} ScaleListComplete(levels: int, shares: seq<real>, present: seq<bool>, k: nat)
    requires k <= |present| <= 3
    ensures var r := ScaleList(levels, shares, present, k);
      r.Ok? ==> forall i :: 0 <= i < k && present[i] ==> exists e :: e in r.value && e.0 == ScaleName(i)
  {
    if k > 0 {
      var r := ScaleList(levels, shares, present, k);
      ScaleListComplete(levels, shares, present, k - 1);
      if r.Ok? {
        var ss := ScaleList(levels, shares, present, k - 1).value;
        if present[k - 1] {
          var last := (ScaleName(k - 1), GetScale(levels, shares, k - 1).value);
          assert r.value == ss + [last];
          assert r.value[|ss|] == last;
          forall i | 0 <= i < k && present[i]
            ensures exists e :: e in r.value && e.0 == ScaleName(i)
          {
            if i < k - 1 {
              var e :| e in ss && e.0 == ScaleName(i);
              assert e in r.value;
            } else {
              assert last in r.value;
            }
          }
        }
      }
    }
  }

  /** A failing scale list aborts on a level that has tasks. */
  lemma {:induction false} ScaleListError(levels: int, shares: seq<real>, present: seq<bool>, k: nat)
    requires k <= |present| <= 3
    ensures var r := ScaleList(levels, shares, present, k);
      r.Err? ==> exists i :: 0 <= i < k && present[i] && GetScale(levels, shares, i) == Err(r.error)
  {
    if k > 0 {
      ScaleListError(levels, shares, present, k - 1);
    }
  }

  /** The `for index, level in enumerate('abc')` loop of `_create_exp`. */
  method Scales(levels: int, shares: seq<real>, present: seq<bool>) returns (scales: seq<(string, real)>, err: Option<Error>)
    requires |present| == 3
    ensures var r := ScaleList(levels, shares, present, 3);
      && (r.Ok? ==> err == None && scales == r.value)
      && (r.Err? ==> err == Some(r.error))
  {
    scales := [];
    for index := 0 to 3
      invariant ScaleList(levels, shares, present, index) == Ok(scales)
    {
      if present[index] {
        var x := GetScale(levels, shares, index);
        if x.Err? {
          ErrorPersists(levels, shares, present, index + 1);
          return scales, Some(x.error);
        }
        scales := scales + [(ScaleName(index), x.value)];
      }
    }
    err := None;
  }

  lemma {:induction false} ErrorPersists(levels: int, shares: seq<real>, present: seq<bool>, k: nat)
    requires 1 <= k <= |present| == 3 && present[k - 1]
    requires ScaleList(levels, shares, present, k - 1).Ok? && GetScale(levels, shares, k - 1).Err?
    ensures ScaleList(levels, shares, present, 3) == Err(GetScale(levels, shares, k - 1).error)
    decreases 3 - k
  {
    if k < 3 {
      ErrorStays(levels, shares, present, k, 3);
    }
  }

  lemma {:induction false} ErrorStays(levels: int, shares: seq<real>, present: seq<bool>, k: nat, m: nat)
    requires k <= m <= |present| <= 3 && ScaleList(levels, shares, present, k).Err?
    ensures ScaleList(levels, shares, present, m) == ScaleList(levels, shares, present, k)
    decreases m
  {
    if k < m {
      ErrorStays(levels, shares, present, k, m - 1);
    }
  }

  // ---------------------------------------------------------------------
  // Colouring decorations (`ColorMcGenerator`)
  // ---------------------------------------------------------------------

  /** The integer branch of `__get_wss_pages`: the working set in whole
      pages, refused when it is below one page or above the cache. */
  function WssPages(ways: nat, colors: nat, pageSize: nat, wss: int): Result<nat>
  {
    if wss < pageSize then Err(WssBelowPage)
    else if pageSize == 0 then Err(ZeroDivision)
    else
      var pages := PyDiv(wss, pageSize);
      if pages > ways * colors then Err(WssAboveCache)
      else PagesPositive(wss, pageSize); Ok(pages)
  }

  lemma PagesPositive(wss: int, pageSize: int)
    requires 0 < pageSize <= wss
    ensures PyDiv(wss, pageSize) >= 1
  {
    var q := PyDiv(wss, pageSize);
    if q <= 0 {
      MulMono(q, 0, pageSize);
    }
  }

  /** A working set is accepted exactly when it spans at least one page and
      rounds down to at most the cache's `ways * colors` pages; the result
      is that rounded-down count, and `page_size * pages` (the `real_wss`
      every task gets) is then within one page below `wss`. */
  lemma WssPagesSpec(ways: nat, colors: nat, pageSize: nat, wss: int)
    ensures var r := WssPages(ways, colors, pageSize, wss);
      && (r.Ok? <==> 0 < pageSize <= wss < (ways * colors + 1) * pageSize)
      && (wss < pageSize ==> r == Err(WssBelowPage))
      && (pageSize == 0 <= wss ==> r == Err(ZeroDivision))
      && (0 < pageSize <= wss && r.Err? ==> r == Err(WssAboveCache))
      && (r.Ok? ==>
            && 1 <= r.value <= ways * colors
            && r.value * pageSize <= wss < r.value * pageSize + pageSize)
  {
    if 0 < pageSize <= wss {
      var q := PyDiv(wss, pageSize);
      var cache := ways * colors;
      if q > cache {
        MulMono(cache + 1, q, pageSize);
      } else {
        MulMono(q + 1, cache + 1, pageSize);
        assert (q + 1) * pageSize == q * pageSize + pageSize;
      }
    }
  }

  /** `for i, task in enumerate(all_tasks): task.id = i; task.wss = real_wss`. */
  method AssignIds(all: seq<GenTask>, realWss: int)
    requires Distinct(all)
    modifies set t | t in all
    ensures forall i :: 0 <= i < |all| ==> all[i].id == i && all[i].wss == realWss
    ensures forall i :: 0 <= i < |all| ==>
      all[i].cpu == old(all[i].cpu) && all[i].lvlaId == old(all[i].lvlaId) && all[i].colors == old(all[i].colors)
  {
    for i := 0 to |all|
      invariant forall j :: 0 <= j < i ==> all[j].id == j && all[j].wss == realWss
      invariant forall j :: 0 <= j < |all| ==>
        all[j].cpu == old(all[j].cpu) && all[j].lvlaId == old(all[j].lvlaId) && all[j].colors == old(all[j].colors)
    {
      assert forall j :: 0 <= j < i ==> all[j] != all[i];
      all[i].id := i;
      all[i].wss := realWss;
    }
  }

  /** `order` is an iteration order of the three levels of the task system. */
  predicate IsOrder(order: seq<nat>)
  {
    |order| == 3 && (forall i :: 0 <= i < 3 ==> order[i] < 3)
    && order[0] != order[1] && order[0] != order[2] && order[1] != order[2]
  }

  /** `all_tasks`: the levels' task lists concatenated in dictionary order. */
  function AllTasks(system: seq<seq<GenTask>>, order: seq<nat>): seq<GenTask>
    requires |system| == 3 && IsOrder(order)
  {
    system[order[0]] + system[order[1]] + system[order[2]]
  }

  /** Every task of every level is among `all_tasks`. */
  lemma InAllTasks(system: seq<seq<GenTask>>, order: seq<nat>, l: nat)
    requires |system| == 3 && IsOrder(order) && l < 3
    ensures forall t :: t in system[l] ==> t in AllTasks(system, order)
  {
    var k := OffsetOf(system, order, l);
    forall t | t in system[l]
      ensures t in AllTasks(system, order)
    {
      var i :| 0 <= i < |system[l]| && system[l][i] == t;
      assert AllTasks(system, order)[k + i] == t;
    }
  }

  /** With no task listed twice in `all_tasks`, levels B and C share no task. */
  lemma LevelsDisjoint(system: seq<seq<GenTask>>, order: seq<nat>)
    requires |system| == 3 && IsOrder(order) && Distinct(AllTasks(system, order))
    ensures forall t :: t in system[2] ==> t !in system[1]
  {
    var kb, kc := OffsetOf(system, order, 1), OffsetOf(system, order, 2);
    assert kb + |system[1]| <= kc || kc + |system[2]| <= kb;
    SlicesDisjoint(AllTasks(system, order), system[1], kb, system[2], kc);
  }

  /** Two lists found at non-overlapping places of a list without
      repetitions share no element. */
  lemma SlicesDisjoint(all: seq<GenTask>, xs: seq<GenTask>, kx: nat, ys: seq<GenTask>, ky: nat)
    requires Distinct(all) && kx + |xs| <= |all| && ky + |ys| <= |all|
    requires kx + |xs| <= ky || ky + |ys| <= kx
    requires all[kx..kx + |xs|] == xs && all[ky..ky + |ys|] == ys
    ensures forall t :: t in ys ==> t !in xs
  {
    forall t | t in ys
      ensures t !in xs
    {
      var j :| 0 <= j < |ys| && ys[j] == t;
      assert all[ky + j] == ys[j];
      forall i | 0 <= i < |xs|
        ensures xs[i] != t
      {
        assert all[kx + i] == xs[i];
        DistinctAt(all, kx + i, ky + j);
      }
    }
  }

  lemma DistinctAt(ts: seq<GenTask>, i: nat, j: nat)
    requires Distinct(ts) && i < |ts| && j < |ts| && i != j
    ensures ts[i] != ts[j]
  {
    if i < j {
      assert ts[i] != ts[j];
    } else {
      assert ts[j] != ts[i];
    }
  }

  /** Where level `l` starts in `all_tasks`. */
  function OffsetOf(system: seq<seq<GenTask>>, order: seq<nat>, l: nat): (k: nat)
    requires |system| == 3 && IsOrder(order) && l < 3
    ensures k + |system[l]| <= |AllTasks(system, order)|
    ensures forall i :: 0 <= i < |system[l]| ==> AllTasks(system, order)[k + i] == system[l][i]
    ensures AllTasks(system, order)[k..k + |system[l]|] == system[l]
  {
    var a, b := |system[order[0]]|, |system[order[1]]|;
    var k := if order[0] == l then 0 else if order[1] == l then a else a + b;
    assert AllTasks(system, order)[k..k + |system[l]|] == system[l];
    k
  }

  /** `EvilColorScheme`, shared by both levels of an unmanaged experiment. */
  method EvilLevels(hrt: seq<GenTask>, srt: seq<GenTask>, ways: nat, pages: nat, ghost all: seq<GenTask>)
    requires ways > 0
    requires forall t :: t in srt ==> t !in hrt
    modifies set t | t in hrt, set t | t in srt
    ensures OnlyColors(hrt) && OnlyColors(srt) && OnlyColors(all)
    ensures forall i :: 0 <= i < |hrt| ==> hrt[i].colors == EvilMap(ways, pages)
    ensures forall i :: 0 <= i < |srt| ==> srt[i].colors == EvilMap(ways, pages)
  {
    EvilColor(ways, hrt, pages);
    EvilColor(ways, srt, pages);
  }

  /** Block colouring (way first) of level B, then random colouring of
      level C; an exception in the first skips the second. */
  method ManagedLevels(hrt: seq<GenTask>, srt: seq<GenTask>, ways: nat, colors: nat,
                       pages: nat, cpuOrder: seq<int>, ghost all: seq<GenTask>) returns (err: Option<Error>)
    requires pages <= ways * colors
    requires forall t :: t in srt ==> t !in hrt
    requires forall i, j :: 0 <= i < j < |cpuOrder| ==> cpuOrder[i] != cpuOrder[j]
    requires forall i :: 0 <= i < |hrt| ==> hrt[i].cpu in cpuOrder
    requires forall k :: 0 <= k < |cpuOrder| ==> HasTaskOn(hrt, cpuOrder[k])
    modifies set t | t in hrt, set t | t in srt
    ensures OnlyColors(hrt) && OnlyColors(srt) && OnlyColors(all)
    ensures var blocks := BlockScheme(colors, ways, true, pages, |cpuOrder|);
      && (blocks.Err? ==>
            && err == Some(blocks.error)
            && (forall i :: 0 <= i < |hrt| ==> hrt[i].colors == old(hrt[i].colors))
            && (forall i :: 0 <= i < |srt| ==> srt[i].colors == old(srt[i].colors)))
      && (blocks.Ok? ==>
            && (forall i :: 0 <= i < |hrt| ==> hrt[i].colors == blocks.value[Position(cpuOrder, hrt[i].cpu)])
            && (err.Some? <==> pages == ways * colors)
            && (err.Some? ==>
                  err == Some(TooManyPages) && forall i :: 0 <= i < |srt| ==> srt[i].colors == old(srt[i].colors))
            && (err.None? ==> forall i :: 0 <= i < |srt| ==> Scattered(srt[i].colors, colors, ways, pages)))
  {
    err := BlockBesides(hrt, srt, ways, colors, pages, cpuOrder, all);
    if err == None {
      err := ScatterBesides(hrt, srt, ways, colors, pages, all);
    }
  }

  /** `BlockColorScheme(c, w, way_first=True).color(lvlb)`, which leaves
      level C as it is. */
  method BlockBesides(hrt: seq<GenTask>, srt: seq<GenTask>, ways: nat, colors: nat, pages: nat,
                      cpuOrder: seq<int>, ghost all: seq<GenTask>) returns (err: Option<Error>)
    requires forall t :: t in srt ==> t !in hrt
    requires forall i, j :: 0 <= i < j < |cpuOrder| ==> cpuOrder[i] != cpuOrder[j]
    requires forall i :: 0 <= i < |hrt| ==> hrt[i].cpu in cpuOrder
    requires forall k :: 0 <= k < |cpuOrder| ==> HasTaskOn(hrt, cpuOrder[k])
    modifies set t | t in hrt
    ensures OnlyColors(hrt) && OnlyColors(all)
    ensures forall i :: 0 <= i < |srt| ==> srt[i].colors == old(srt[i].colors)
    ensures var r := BlockScheme(colors, ways, true, pages, |cpuOrder|);
      && (r.Err? ==> err == Some(r.error) && forall i :: 0 <= i < |hrt| ==> hrt[i].colors == old(hrt[i].colors))
      && (r.Ok? ==>
            err == None && forall i :: 0 <= i < |hrt| ==> hrt[i].colors == r.value[Position(cpuOrder, hrt[i].cpu)])
  {
    assert forall i :: 0 <= i < |srt| ==> srt[i] !in hrt;
    err := BlockColor(colors, ways, true, hrt, pages, cpuOrder);
  }

  /** `RandomColorScheme.color(lvlc)`, which leaves level B as it is. */
  method ScatterBesides(hrt: seq<GenTask>, srt: seq<GenTask>, ways: nat, colors: nat, pages: nat,
                        ghost all: seq<GenTask>) returns (err: Option<Error>)
    requires forall t :: t in srt ==> t !in hrt
    modifies set t | t in srt
    ensures OnlyColors(srt) && OnlyColors(all)
    ensures forall i :: 0 <= i < |hrt| ==> hrt[i].colors == old(hrt[i].colors) && hrt[i].cpu == old(hrt[i].cpu)
    ensures OnlyColors(hrt)
    ensures err.Some? <==> pages >= ways * colors
    ensures err.Some? ==>
      err == Some(TooManyPages) && forall i :: 0 <= i < |srt| ==> srt[i].colors == old(srt[i].colors)
    ensures err.None? ==> forall i :: 0 <= i < |srt| ==> Scattered(srt[i].colors, colors, ways, pages)
  {
    assert forall i :: 0 <= i < |hrt| ==> hrt[i] !in srt;
    err := RandomColor(colors, ways, srt, pages);
  }

  /** `_customize(task_system, params)`: every task gets a distinct id
      `0 .. n-1` in `all_tasks` order and the working set rounded to whole
      pages; then levels B and C are coloured. `order` is the order in
      which the `task_system` dictionary yields levels A, B and C (indices
      0, 1, 2), `cpuOrder` the order of level B's `cpus` dictionary. */
  method Customize(system: seq<seq<GenTask>>, order: seq<nat>, unmanaged: bool, ways: nat, colors: nat,
                   pageSize: nat, wss: int, cpuOrder: seq<int>) returns (err: Option<Error>)
    requires |system| == 3 && IsOrder(order) && Distinct(AllTasks(system, order))
    requires forall i, j :: 0 <= i < j < |cpuOrder| ==> cpuOrder[i] != cpuOrder[j]
    requires forall i :: 0 <= i < |system[1]| ==> system[1][i].cpu in cpuOrder
    requires forall k :: 0 <= k < |cpuOrder| ==> HasTaskOn(system[1], cpuOrder[k])
    modifies set t | t in AllTasks(system, order)
    ensures var all := AllTasks(system, order);
      var pages := WssPages(ways, colors, pageSize, wss);
      && (pages.Err? ==>
            err == Some(pages.error) && forall i :: 0 <= i < |all| ==>
              all[i].id == old(all[i].id) && all[i].wss == old(all[i].wss) && all[i].colors == old(all[i].colors))
      && (pages.Ok? ==> forall i :: 0 <= i < |all| ==> all[i].id == i && all[i].wss == pageSize * pages.value)
    ensures var all := AllTasks(system, order);
      forall i :: 0 <= i < |all| ==> all[i].cpu == old(all[i].cpu) && all[i].lvlaId == old(all[i].lvlaId)
    ensures var pages := WssPages(ways, colors, pageSize, wss);
      pages.Ok? && unmanaged ==>
        && err == None
        && (forall i :: 0 <= i < |system[1]| ==> system[1][i].colors == EvilMap(ways, pages.value))
        && (forall i :: 0 <= i < |system[2]| ==> system[2][i].colors == EvilMap(ways, pages.value))
    ensures var pages := WssPages(ways, colors, pageSize, wss);
      pages.Ok? && !unmanaged ==>
        var blocks := BlockScheme(colors, ways, true, pages.value, |cpuOrder|);
        && (blocks.Err? ==> err == Some(blocks.error))
        && (blocks.Ok? ==>
              && (forall i :: 0 <= i < |system[1]| ==>
                    system[1][i].colors == blocks.value[Position(cpuOrder, system[1][i].cpu)])
              && (err.Some? <==> pages.value == ways * colors)
              && (err.Some? ==> err == Some(TooManyPages))
              && (err.None? ==> forall i :: 0 <= i < |system[2]| ==>
                    Scattered(system[2][i].colors, colors, ways, pages.value)))
  {
    var pages := WssPages(ways, colors, pageSize, wss);
    if pages.Err? {
      return Some(pages.error);
    }
    WssPagesSpec(ways, colors, pageSize, wss);
    var p := pages.value;
    var all := system[order[0]] + system[order[1]] + system[order[2]];
    assert all == AllTasks(system, order);
    AssignIds(all, pageSize * p);
    InAllTasks(system, order, 1);
    InAllTasks(system, order, 2);
    LevelsDisjoint(system, order);
    if unmanaged {
      EvilLevels(system[1], system[2], ways, p, all);
      err := None;
    } else {
      err := ManagedLevels(system[1], system[2], ways, colors, p, cpuOrder, all);
    }
  }
}
