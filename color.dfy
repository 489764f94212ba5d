/** The cache colouring schemes of gen/color.py. A scheme gives every task a
    map from cache colour to the number of pages the task keeps in that
    colour; pages in one colour can fill at most `ways` lines. The block
    scheme gives all tasks of one CPU the same block of consecutive colours,
    the random scheme scatters each task's pages over colours that are not
    yet full, and the "evil" scheme packs everybody into the first colours. */
module Coloring {
  import opened Common
  import opened GenTasks

  type ColorMap = map<int, int>

  /** `defaultdict(int)` lookup. */
  function Get(m: ColorMap, c: int): int
  {
    if c in m then m[c] else 0
  }

  /** The pages of `m` in colours `0 .. n-1`; for a map whose keys are
      colours below `n` this is `sum(m.values())`. */
  function ColorSum(m: ColorMap, n: nat): int
  {
    if n == 0 then 0 else ColorSum(m, n - 1) + Get(m, n - 1)
  }

  predicate InColors(m: ColorMap, colors: nat)
  {
    forall c :: c in m ==> 0 <= c < colors
  }

  /** `int(ceil(float(a) / b))`, exact. */
  function CeilDiv(a: int, b: int): (q: int)
    requires b > 0
    ensures (q - 1) * b < a <= q * b
  {
    -PyDiv(-a, b)
  }

  lemma {:induction false} ColorSumEmpty(n: nat)
    ensures ColorSum(map[], n) == 0
  {
    if n > 0 {
      ColorSumEmpty(n - 1);
    }
  }

  /** Setting colour `c` below `n` to `v` changes the sum by the difference. */
  lemma {:induction false} ColorSumUpdate(m: ColorMap, n: nat, c: int, v: int)
    requires 0 <= c < n
    ensures ColorSum(m[c := v], n) == ColorSum(m, n) - Get(m, c) + v
  {
    if c < n - 1 {
      ColorSumUpdate(m, n - 1, c, v);
    } else {
      ColorSumSame(m, n - 1, c, v);
    }
  }

  /** Colours at or above `n` do not count. */
  lemma {:induction false} ColorSumSame(m: ColorMap, n: nat, c: int, v: int)
    requires c >= n
    ensures ColorSum(m[c := v], n) == ColorSum(m, n)
  {
    if n > 0 {
      ColorSumSame(m, n - 1, c, v);
    }
  }

  /** When every colour below `n` holds `v` pages, they hold `n * v`. */
  lemma {:induction false} ColorSumFull(m: ColorMap, n: nat, v: int)
    requires forall c :: 0 <= c < n ==> Get(m, c) == v
    ensures ColorSum(m, n) == n * v
  {
    if n > 0 {
      ColorSumFull(m, n - 1, v);
    }
  }

  // ---------------------------------------------------------------- block

  /** The `j`-th colour after the cursor `start`. */
  function Slot(start: int, j: int, colors: nat): int
    requires colors > 0
  {
    (start + j) % colors
  }

  /** `(pages_per_color, colors_per_task)`: way first puts as many pages in a
      colour as there are ways, colour first spreads over as many colours as
      there are; the other figure is the ceiling of what remains. A zero
      divisor is the ZeroDivisionError of the float division. */
  function BlockSizes(colors: nat, ways: nat, pagesNeeded: nat, wayFirst: bool): (r: Result<(nat, nat)>)
    ensures r.Err? <==> pagesNeeded == 0 || (if wayFirst then ways == 0 else colors == 0)
    ensures r.Err? ==> r.error == ZeroDivision
    ensures r.Ok? ==>
      var (ppc, cpt) := r.value;
      && ppc > 0 && cpt > 0
      && pagesNeeded <= cpt * ppc
      && (wayFirst ==> ppc == Min(ways, pagesNeeded) && (cpt - 1) * ppc < pagesNeeded)
      && (!wayFirst ==> cpt == Min(colors, pagesNeeded) && (ppc - 1) * cpt < pagesNeeded)
  {
    if wayFirst then
      var ppc := Min(ways, pagesNeeded);
      if ppc == 0 then Err(ZeroDivision) else Ok((ppc, CeilDiv(pagesNeeded, ppc)))
    else
      var cpt := Min(colors, pagesNeeded);
      if cpt == 0 then Err(ZeroDivision) else Ok((CeilDiv(pagesNeeded, cpt), cpt))
  }

  /** The map one CPU receives: `cpt` colours from the cursor `start` on,
      wrapping at `colors`, each set to `ppc`. */
  function BlockMap(start: int, cpt: nat, ppc: int, colors: nat): (m: ColorMap)
    requires colors > 0
    ensures InColors(m, colors)
    ensures forall c :: c in m ==> m[c] == ppc
  {
    if cpt == 0 then map[]
    else BlockMap(start, cpt - 1, ppc, colors)[Slot(start, cpt - 1, colors) := ppc]
  }

  lemma {:induction false} BlockMapKeys(start: int, cpt: nat, ppc: int, colors: nat)
    requires colors > 0
    ensures forall j :: 0 <= j < cpt ==> Slot(start, j, colors) in BlockMap(start, cpt, ppc, colors)
    ensures forall c :: c in BlockMap(start, cpt, ppc, colors) ==>
      exists j :: 0 <= j < cpt && Slot(start, j, colors) == c
  {
    if cpt > 0 {
      BlockMapKeys(start, cpt - 1, ppc, colors);
    }
  }

  lemma MulMono(a: int, b: int, c: int)
    requires a <= b && c >= 0
    ensures a * c <= b * c
  {
    assert b * c - a * c == (b - a) * c;
  }

  /** A quotient and remainder are determined by the dividend. */
  lemma DivModUnique(x: int, n: int, q: int, r: int)
    requires n > 0 && 0 <= r < n && x == q * n + r
    ensures x % n == r
  {
    var q', r' := x / n, x % n;
    assert x == q' * n + r';
    assert (q - q') * n == r' - r;
    if q - q' >= 1 {
      MulMono(1, q - q', n);
    } else if q - q' <= -1 {
      MulMono(q - q', -1, n);
    }
  }

  lemma ModAdd(a: int, b: int, n: int)
    requires n > 0
    ensures (a % n + b) % n == (a + b) % n
  {
    var y := a % n + b;
    assert a == (a / n) * n + a % n;
    assert y == (y / n) * n + y % n;
    assert a + b == (a / n + y / n) * n + y % n;
    DivModUnique(a + b, n, a / n + y / n, y % n);
  }

  /** Fewer than `colors` steps apart, two slots differ. */
  lemma SlotsDiffer(start: int, i: int, j: int, colors: nat)
    requires colors > 0 && i < j < i + colors
    ensures Slot(start, i, colors) != Slot(start, j, colors)
  {
    var a, b := start + i, start + j;
    var n := colors;
    if a % n == b % n {
      assert a == (a / n) * n + a % n;
      assert b == (b / n) * n + b % n;
      var d := b / n - a / n;
      assert b - a == d * n;
      if d <= 0 {
        MulMono(d, 0, n);
      } else {
        MulMono(1, d, n);
      }
    }
  }

  lemma SlotWraps(start: int, j: int, colors: nat)
    requires colors > 0
    ensures Slot(start, j, colors) == Slot(start, j + colors, colors)
  {
    var a := start + j;
    assert a == (a / colors) * colors + a % colors;
    assert a + colors == (a / colors + 1) * colors + a % colors;
    DivModUnique(a + colors, colors, a / colors + 1, a % colors);
  }

  /** A CPU's block holds `min(cpt, colors) * ppc` pages: the colours wrap
      around once `cpt` exceeds the number of colours. */
  lemma {:induction false} BlockMapSum(start: int, cpt: nat, ppc: int, colors: nat)
    requires colors > 0
    ensures ColorSum(BlockMap(start, cpt, ppc, colors), colors) == Min(cpt, colors) * ppc
  {
    if cpt == 0 {
      ColorSumEmpty(colors);
    } else {
      var m := BlockMap(start, cpt - 1, ppc, colors);
      var k := Slot(start, cpt - 1, colors);
      BlockMapSum(start, cpt - 1, ppc, colors);
      ColorSumUpdate(m, colors, k, ppc);
      if cpt - 1 < colors {
        BlockMapNew(start, cpt - 1, ppc, colors);
        assert (cpt - 1) * ppc + ppc == cpt * ppc;
      } else {
        BlockMapOld(start, cpt - 1, ppc, colors);
      }
    }
  }

  /** Before wrapping around, the next slot is a new colour. */
  lemma BlockMapNew(start: int, j: nat, ppc: int, colors: nat)
    requires 0 <= j < colors
    ensures Slot(start, j, colors) !in BlockMap(start, j, ppc, colors)
  {
    BlockMapKeys(start, j, ppc, colors);
    var k := Slot(start, j, colors);
    if k in BlockMap(start, j, ppc, colors) {
      var i :| 0 <= i < j && Slot(start, i, colors) == k;
      SlotsDiffer(start, i, j, colors);
    }
  }

  /** After a full round, the next slot is a colour already used. */
  lemma BlockMapOld(start: int, j: nat, ppc: int, colors: nat)
    requires colors > 0 && j >= colors
    ensures Slot(start, j, colors) in BlockMap(start, j, ppc, colors)
  {
    BlockMapKeys(start, j, ppc, colors);
    SlotWraps(start, j - colors, colors);
  }

  /** The block scheme, CPU by CPU in the order `cpus.iteritems()` visits
      them: the map of the `k`-th CPU starts at the cursor the earlier CPUs
      moved, `(k * cpt) mod colors`. */
  function BlockScheme(colors: nat, ways: nat, wayFirst: bool, pagesNeeded: nat, ncpus: nat): Result<seq<ColorMap>>
  {
    match BlockSizes(colors, ways, pagesNeeded, wayFirst)
    case Err(e) => Err(e)
    case Ok((ppc, cpt)) =>
      if ncpus == 0 then Ok([])
      else if colors == 0 then Err(ZeroDivision)
      else if cpt > colors then Err(BlockColorFailed)
      else Ok(CpuMaps(ncpus, ppc, cpt, colors))
  }

  function CpuMaps(ncpus: nat, ppc: nat, cpt: nat, colors: nat): (ms: seq<ColorMap>)
    requires colors > 0
    ensures |ms| == ncpus
  {
    seq(ncpus, k requires 0 <= k => BlockMap((k * cpt) % colors, cpt, ppc, colors))
  }

  /** A block fails to hold the pages exactly when more colours per task are
      needed than there are; the test is therefore the same for every CPU. */
  lemma BlockShort(start: int, pagesNeeded: nat, ppc: nat, cpt: nat, colors: nat)
    requires colors > 0 && ppc > 0 && pagesNeeded <= cpt * ppc
    requires cpt <= colors || (cpt - 1) * ppc < pagesNeeded
    ensures ColorSum(BlockMap(start, cpt, ppc, colors), colors) < pagesNeeded <==> cpt > colors
  {
    BlockMapSum(start, cpt, ppc, colors);
    if cpt > colors {
      MulMono(colors, cpt - 1, ppc);
    }
  }

  /** The block scheme raises "Failed to block color cpu" exactly when there
      is a CPU, pages are placed way first, and the pages do not fit in the
      whole cache; placing colour first never fails this way. */
  lemma BlockSchemeFails(colors: nat, ways: nat, wayFirst: bool, pagesNeeded: nat, ncpus: nat)
    ensures BlockScheme(colors, ways, wayFirst, pagesNeeded, ncpus) == Err(BlockColorFailed) <==>
      wayFirst && ncpus > 0 && ways > 0 && colors > 0 && pagesNeeded > ways * colors
  {
    var r := BlockSizes(colors, ways, pagesNeeded, wayFirst);
    if r.Ok? && wayFirst && colors > 0 {
      var (ppc, cpt) := r.value;
      if pagesNeeded <= ways {
        assert ppc == pagesNeeded;
        if cpt - 1 >= 1 {
          MulMono(1, cpt - 1, ppc);
        }
        MulMono(1, colors, ways);
      } else {
        assert ppc == ways;
        if cpt > colors {
          MulMono(colors, cpt - 1, ways);
        } else {
          MulMono(cpt, colors, ways);
        }
      }
    }
  }

  /** On success every CPU's map covers the pages needed, with every colour
      it uses set to `pages_per_color`, and colour `j` of the `k`-th CPU is
      `(k * cpt + j) mod colors`. */
  lemma BlockSchemeMaps(colors: nat, ways: nat, wayFirst: bool, pagesNeeded: nat, ncpus: nat, k: nat, j: nat)
    requires BlockScheme(colors, ways, wayFirst, pagesNeeded, ncpus).Ok? && k < ncpus
    ensures var (ppc, cpt) := BlockSizes(colors, ways, pagesNeeded, wayFirst).value;
      var m := BlockScheme(colors, ways, wayFirst, pagesNeeded, ncpus).value[k];
      && colors > 0
      && InColors(m, colors)
      && (forall c :: c in m ==> m[c] == ppc)
      && ColorSum(m, colors) >= pagesNeeded
      && (j < cpt ==> ((k * cpt) % colors + j) % colors in m)
  {
    var (ppc, cpt) := BlockSizes(colors, ways, pagesNeeded, wayFirst).value;
    var start := (k * cpt) % colors;
    BlockShort(start, pagesNeeded, ppc, cpt, colors);
    BlockMapKeys(start, cpt, ppc, colors);
    if j < cpt {
      assert Slot(start, j, colors) in BlockMap(start, cpt, ppc, colors);
    }
  }

  /** Some task runs on `cpu`: the CPUs of the order are the keys of the
      `cpus` dictionary. */
  predicate HasTaskOn(tasks: seq<GenTask>, cpu: int)
    reads set t | t in tasks
  {
    exists i :: 0 <= i < |tasks| && tasks[i].cpu == cpu
  }

  /** Index of `x` in `s`. */
  function Position(s: seq<int>, x: int): (k: nat)
    requires x in s
    ensures k < |s| && s[k] == x
    ensures forall i :: 0 <= i < k ==> s[i] != x
  {
    if s[0] == x then 0 else 1 + Position(s[1..], x)
  }

  /** `BlockColorScheme(colors, ways, way_first).color(tasks, pages_needed)`.
      `cpuOrder` lists the CPUs of the tasks in the order the `cpus`
      dictionary yields them. On an exception no task has been coloured. */
  method BlockColor(colors: nat, ways: nat, wayFirst: bool, tasks: seq<GenTask>, pagesNeeded: nat,
                    cpuOrder: seq<int>) returns (err: Option<Error>)
    requires forall i, j :: 0 <= i < j < |cpuOrder| ==> cpuOrder[i] != cpuOrder[j]
    requires forall i :: 0 <= i < |tasks| ==> tasks[i].cpu in cpuOrder
    requires forall k :: 0 <= k < |cpuOrder| ==> HasTaskOn(tasks, cpuOrder[k])
    modifies set t | t in tasks
    ensures OnlyColors(tasks)
    ensures var r := BlockScheme(colors, ways, wayFirst, pagesNeeded, |cpuOrder|);
      && (r.Err? ==> err == Some(r.error) && forall i :: 0 <= i < |tasks| ==> tasks[i].colors == old(tasks[i].colors))
      && (r.Ok? ==>
            err == None && forall i :: 0 <= i < |tasks| ==> tasks[i].colors == r.value[Position(cpuOrder, tasks[i].cpu)])
  {
    var sizes := BlockSizes(colors, ways, pagesNeeded, wayFirst);
    if sizes.Err? {
      return Some(sizes.error);
    }
    var (ppc, cpt) := sizes.value;
    err := ColorCpus(colors, ppc, cpt, tasks, pagesNeeded, cpuOrder);
  }

  /** The loop over `cpus.iteritems()` once the block sizes are known. */
  method ColorCpus(colors: nat, ppc: nat, cpt: nat, tasks: seq<GenTask>, pagesNeeded: nat,
                   cpuOrder: seq<int>) returns (err: Option<Error>)
    requires forall i, j :: 0 <= i < j < |cpuOrder| ==> cpuOrder[i] != cpuOrder[j]
    requires forall i :: 0 <= i < |tasks| ==> tasks[i].cpu in cpuOrder
    requires ppc > 0 && cpt > 0 && pagesNeeded <= cpt * ppc
    requires cpt <= colors || (cpt - 1) * ppc < pagesNeeded
    modifies set t | t in tasks
    ensures OnlyColors(tasks)
    ensures |cpuOrder| > 0 && colors == 0 ==> err == Some(ZeroDivision)
    ensures |cpuOrder| > 0 && colors > 0 && cpt > colors ==> err == Some(BlockColorFailed)
    ensures err.Some? ==> forall i :: 0 <= i < |tasks| ==> tasks[i].colors == old(tasks[i].colors)
    ensures |cpuOrder| == 0 || (colors > 0 && cpt <= colors) ==>
      err == None && forall i :: 0 <= i < |tasks| ==>
        tasks[i].colors == CpuMaps(|cpuOrder|, ppc, cpt, colors)[Position(cpuOrder, tasks[i].cpu)]
  {
    ghost var pos := Positions(tasks, cpuOrder);
    ghost var orig := ColorsOf(tasks);
    ghost var target := if colors > 0 then CpuMaps(|cpuOrder|, ppc, cpt, colors) else [];
    var cpus := GroupByCpu(tasks);
    var curr := 0;
    for k := 0 to |cpuOrder|
      invariant k > 0 ==> colors > 0 && cpt <= colors
      invariant colors > 0 ==> curr == (k * cpt) % colors
      invariant OnlyColors(tasks)
      invariant Grouped(cpus, tasks) && Placed(tasks, cpuOrder, pos)
      invariant Painted(tasks, pos, k, orig, target)
    {
      var cpuColors, next, e := CpuBlock(k, curr, cpt, ppc, colors, pagesNeeded);
      if e.Some? {
        return e;
      }
      curr := next;
      PaintCpu(cpus, cpuOrder, k, cpuColors, tasks, pos, orig, target);
    }
    PaintedAll(tasks, cpuOrder, pos, orig, target);
    err := None;
  }

  /** The colours of the `k`-th CPU: the next block, or the exception
      raised for it. */
  method CpuBlock(k: nat, curr: int, cpt: nat, ppc: nat, colors: nat, pagesNeeded: nat)
    returns (m: ColorMap, next: int, err: Option<Error>)
    requires ppc > 0 && cpt > 0 && pagesNeeded <= cpt * ppc
    requires cpt <= colors || (cpt - 1) * ppc < pagesNeeded
    requires colors > 0 ==> curr == (k * cpt) % colors
    ensures colors == 0 ==> err == Some(ZeroDivision)
    ensures colors > 0 && cpt > colors ==> err == Some(BlockColorFailed)
    ensures colors > 0 && cpt <= colors ==>
      && err == None
      && m == BlockMap((k * cpt) % colors, cpt, ppc, colors)
      && next == ((k + 1) * cpt) % colors
  {
    m, next, err := NextBlock(curr, cpt, ppc, colors);
    if err.Some? {
      return;
    }
    BlockShort(curr, pagesNeeded, ppc, cpt, colors);
    if ColorSum(m, colors) < pagesNeeded {
      return m, next, Some(BlockColorFailed);
    }
    ModAdd(k * cpt, cpt, colors);
    assert k * cpt + cpt == (k + 1) * cpt;
  }

  /** The tasks on the first `k` CPUs of the order carry their target map,
      the others their original one. */
  ghost predicate Painted(tasks: seq<GenTask>, pos: seq<nat>, k: nat, orig: seq<ColorMap>, target: seq<ColorMap>)
    reads set t | t in tasks
  {
    && |pos| == |orig| == |tasks|
    && (forall i :: 0 <= i < |tasks| && pos[i] >= k ==> tasks[i].colors == orig[i])
    && (forall i :: 0 <= i < |tasks| && pos[i] < k ==> pos[i] < |target| && tasks[i].colors == target[pos[i]])
  }

  /** The place of each task's CPU in the order. */
  ghost function Positions(tasks: seq<GenTask>, cpuOrder: seq<int>): (pos: seq<nat>)
    requires forall i :: 0 <= i < |tasks| ==> tasks[i].cpu in cpuOrder
    reads set t | t in tasks
    ensures Placed(tasks, cpuOrder, pos)
  {
    seq(|tasks|, i requires 0 <= i < |tasks| && tasks[i].cpu in cpuOrder reads tasks => Position(cpuOrder, tasks[i].cpu))
  }

  /** The colour maps the tasks carry now. */
  ghost function ColorsOf(tasks: seq<GenTask>): (cs: seq<ColorMap>)
    reads set t | t in tasks
    ensures |cs| == |tasks| && forall i :: 0 <= i < |tasks| ==> cs[i] == tasks[i].colors
  {
    seq(|tasks|, i requires 0 <= i < |tasks| reads tasks => tasks[i].colors)
  }

  /** Once every CPU of the order has had its turn, each task carries the
      map of its CPU. */
  lemma PaintedAll(tasks: seq<GenTask>, cpuOrder: seq<int>, pos: seq<nat>, orig: seq<ColorMap>, target: seq<ColorMap>)
    requires Placed(tasks, cpuOrder, pos) && Painted(tasks, pos, |cpuOrder|, orig, target)
    ensures forall i :: 0 <= i < |tasks| ==> tasks[i].colors == target[Position(cpuOrder, tasks[i].cpu)]
  {
    forall i | 0 <= i < |tasks|
      ensures tasks[i].colors == target[Position(cpuOrder, tasks[i].cpu)]
    {
      assert pos[i] < |cpuOrder|;
    }
  }

  /** `cpus` groups the tasks by their CPU, as `GroupByCpu` builds it. */
  ghost predicate Grouped(cpus: map<int, seq<GenTask>>, tasks: seq<GenTask>)
    reads set t | t in tasks
  {
    && (forall i :: 0 <= i < |tasks| ==> tasks[i].cpu in cpus && tasks[i] in cpus[tasks[i].cpu])
    && (forall c, t :: c in cpus && t in cpus[c] ==> t in tasks && t.cpu == c)
  }

  /** `pos[i]` is the place of the CPU of the `i`-th task in the order. */
  ghost predicate Placed(tasks: seq<GenTask>, cpuOrder: seq<int>, pos: seq<nat>)
    reads set t | t in tasks
  {
    |pos| == |tasks| && forall i :: 0 <= i < |tasks| ==> tasks[i].cpu in cpuOrder && pos[i] == Position(cpuOrder, tasks[i].cpu)
  }

  /** One turn of the loop over the CPUs: `cpus[cpu]` (empty when the CPU
      has no group) receives the `k`-th block. */
  method PaintCpu(cpus: map<int, seq<GenTask>>, cpuOrder: seq<int>, k: nat, m: ColorMap, tasks: seq<GenTask>,
                  ghost pos: seq<nat>, ghost orig: seq<ColorMap>, ghost target: seq<ColorMap>)
    requires k < |cpuOrder| && forall i, j :: 0 <= i < j < |cpuOrder| ==> cpuOrder[i] != cpuOrder[j]
    requires Grouped(cpus, tasks) && Placed(tasks, cpuOrder, pos)
    requires k < |target| && target[k] == m
    requires Painted(tasks, pos, k, orig, target)
    modifies set t | t in tasks
    ensures OnlyColors(tasks)
    ensures Grouped(cpus, tasks) && Placed(tasks, cpuOrder, pos)
    ensures Painted(tasks, pos, k + 1, orig, target)
  {
    var cpu := cpuOrder[k];
    var group := if cpu in cpus then cpus[cpu] else [];
    assert forall i :: 0 <= i < |tasks| ==> (tasks[i].cpu == cpu <==> pos[i] == k);
    AssignGroup(group, m, tasks, cpu, pos, k, orig, target);
  }

  /** `for t in tasks: t.colors = cpu_colors` over the tasks of the `k`-th
      CPU, which are exactly the tasks whose CPU is `cpu`. */
  method AssignGroup(group: seq<GenTask>, m: ColorMap, ghost tasks: seq<GenTask>, ghost cpu: int,
                     ghost pos: seq<nat>, ghost k: nat, ghost orig: seq<ColorMap>, ghost target: seq<ColorMap>)
    requires forall t :: t in group ==> t in tasks && t.cpu == cpu
    requires forall i :: 0 <= i < |tasks| && tasks[i].cpu == cpu ==> tasks[i] in group
    requires |pos| == |tasks| && forall i :: 0 <= i < |tasks| ==> (tasks[i].cpu == cpu <==> pos[i] == k)
    requires k < |target| && target[k] == m
    requires Painted(tasks, pos, k, orig, target)
    modifies set t | t in group
    ensures OnlyColors(group)
    ensures Painted(tasks, pos, k + 1, orig, target)
  {
    for i := 0 to |group|
      invariant forall j :: 0 <= j < i ==> group[j].colors == m
      invariant OnlyColors(group)
    {
      group[i].colors := m;
    }
  }

  /** The `for _ in xrange(colors_per_task)` loop: the block of one CPU and
      the cursor after it; `% colors` raises when there are no colours. */
  method NextBlock(curr: int, cpt: nat, ppc: nat, colors: nat) returns (m: ColorMap, next: int, err: Option<Error>)
    requires cpt > 0 && (colors > 0 ==> 0 <= curr < colors)
    ensures err.Some? <==> colors == 0
    ensures err.Some? ==> err == Some(ZeroDivision)
    ensures colors > 0 ==> m == BlockMap(curr, cpt, ppc, colors) && next == (curr + cpt) % colors
  {
    m, next := map[], curr;
    if colors > 0 {
      DivModUnique(curr, colors, 0, curr);
    }
    for j := 0 to cpt
      invariant colors > 0 ==> m == BlockMap(curr, j, ppc, colors) && next == Slot(curr, j, colors)
      invariant colors == 0 ==> j == 0
    {
      m := m[next := ppc];
      if colors == 0 {
        return m, next, Some(ZeroDivision);
      }
      ModAdd(curr + j, 1, colors);
      next := (next + 1) % colors;
    }
    err := None;
  }

  /** `cpus[t.cpu].append(t)` over all tasks. */
  method GroupByCpu(tasks: seq<GenTask>) returns (cpus: map<int, seq<GenTask>>)
    ensures forall i :: 0 <= i < |tasks| ==> tasks[i].cpu in cpus && tasks[i] in cpus[tasks[i].cpu]
    ensures forall c, t :: c in cpus && t in cpus[c] ==> t in tasks && t.cpu == c
  {
    cpus := map[];
    for i := 0 to |tasks|
      invariant forall j :: 0 <= j < i ==> tasks[j].cpu in cpus && tasks[j] in cpus[tasks[j].cpu]
      invariant forall c, t :: c in cpus && t in cpus[c] ==> t in tasks && t.cpu == c
    {
      var t := tasks[i];
      var group := if t.cpu in cpus then cpus[t.cpu] else [];
      cpus := cpus[t.cpu := group + [t]];
    }
  }

  // --------------------------------------------------------------- random

  /** What the random scheme promises of each task's map: colours of the
      cache, between 1 and `ways` pages in each colour used, and
      `pages_needed` pages in all. */
  predicate Scattered(m: ColorMap, colors: nat, ways: nat, pagesNeeded: nat)
  {
    && InColors(m, colors)
    && (forall c :: c in m ==> 1 <= m[c] <= ways)
    && ColorSum(m, colors) == pagesNeeded
  }

  /** `RandomColorScheme(colors, ways).color(tasks, pages_needed)`. Each
      `randint` retry loop is one nondeterministic choice of a colour that
      is not yet full. */
  method RandomColor(colors: nat, ways: nat, tasks: seq<GenTask>, pagesNeeded: nat) returns (err: Option<Error>)
    modifies set t | t in tasks
    ensures OnlyColors(tasks)
    ensures err.Some? <==> pagesNeeded >= ways * colors
    ensures err.Some? ==>
      err == Some(TooManyPages) && forall i :: 0 <= i < |tasks| ==> tasks[i].colors == old(tasks[i].colors)
    ensures err.None? ==> forall i :: 0 <= i < |tasks| ==> Scattered(tasks[i].colors, colors, ways, pagesNeeded)
  {
    if pagesNeeded >= ways * colors {
      return Some(TooManyPages);
    }
    for k := 0 to |tasks|
      invariant forall i :: 0 <= i < k ==> Scattered(tasks[i].colors, colors, ways, pagesNeeded)
      invariant OnlyColors(tasks)
    {
      var m := Scatter(colors, ways, pagesNeeded);
      tasks[k].colors := m;
    }
    err := None;
  }

  /** The page loop for one task. */
  method Scatter(colors: nat, ways: nat, pagesNeeded: nat) returns (m: ColorMap)
    requires pagesNeeded < ways * colors
    ensures Scattered(m, colors, ways, pagesNeeded)
  {
    m := map[];
    ColorSumEmpty(colors);
    for p := 0 to pagesNeeded
      invariant InColors(m, colors)
      invariant forall c :: c in m ==> 1 <= m[c] <= ways
      invariant ColorSum(m, colors) == p
    {
      assert exists c :: 0 <= c < colors && Get(m, c) != ways by {
        if forall c :: 0 <= c < colors ==> Get(m, c) == ways {
          ColorSumFull(m, colors, ways);
          assert false;
        }
      }
      var next :| 0 <= next < colors && Get(m, next) != ways;
      ColorSumUpdate(m, colors, next, Get(m, next) + 1);
      m := m[next := Get(m, next) + 1];
    }
  }

  // ----------------------------------------------------------------- evil

  /** Colours used by the evil scheme. */
  function EvilCount(ways: nat, pagesNeeded: nat): nat
    requires ways > 0 || pagesNeeded == 0
  {
    if pagesNeeded == 0 then 0 else CeilDiv(pagesNeeded, ways)
  }

  /** The shared map of the evil scheme: colour `c` holds what is left after
      the earlier colours took `ways` pages each, at most `ways`. */
  function EvilMap(ways: nat, pagesNeeded: nat): ColorMap
    requires ways > 0 || pagesNeeded == 0
  {
    map c | 0 <= c < EvilCount(ways, pagesNeeded) :: Min(ways, pagesNeeded - c * ways)
  }

  lemma {:induction false} EvilPrefixSum(ways: nat, pagesNeeded: nat, n: nat)
    requires ways > 0 && n < EvilCount(ways, pagesNeeded)
    ensures ColorSum(EvilMap(ways, pagesNeeded), n) == n * ways
  {
    if n > 0 {
      var k := EvilCount(ways, pagesNeeded);
      EvilPrefixSum(ways, pagesNeeded, n - 1);
      MulMono(n, k - 1, ways);
      assert n * ways == (n - 1) * ways + ways;
      assert EvilMap(ways, pagesNeeded)[n - 1] == ways;
    }
  }

  /** The evil map uses colours `0 .. k-1` with `k = ceil(pages / ways)`;
      every colour but the last is full, the last holds between 1 and
      `ways` pages, and the pages add up to `pages_needed`. */
  lemma EvilMapShape(ways: nat, pagesNeeded: nat)
    requires ways > 0 || pagesNeeded == 0
    ensures var m := EvilMap(ways, pagesNeeded);
      var k := EvilCount(ways, pagesNeeded);
      && (forall c :: c in m <==> 0 <= c < k)
      && (forall c :: 0 <= c < k - 1 ==> m[c] == ways)
      && (k > 0 ==> 1 <= m[k - 1] <= ways)
      && ColorSum(m, k) == pagesNeeded
  {
    var m := EvilMap(ways, pagesNeeded);
    var k := EvilCount(ways, pagesNeeded);
    if k == 0 {
      ColorSumEmpty(0);
    } else {
      EvilPrefixSum(ways, pagesNeeded, k - 1);
      assert k * ways == (k - 1) * ways + ways;
      forall c | 0 <= c < k - 1
        ensures m[c] == ways
      {
        MulMono(c + 1, k - 1, ways);
        assert (c + 1) * ways == c * ways + ways;
      }
    }
  }

  lemma CeilUnique(a: int, b: int, p: int, q: int)
    requires b > 0 && (p - 1) * b < a <= p * b && (q - 1) * b < a <= q * b
    ensures p == q
  {
    if p < q {
      MulMono(p, q - 1, b);
    } else if q < p {
      MulMono(q, p - 1, b);
    }
  }

  /** `EvilColorScheme(colors, ways).color(tasks, pages_needed)`; the
      `while pages_needed > 0` loop only ends when `ways > 0` or no pages
      are needed. */
  method EvilColor(ways: nat, tasks: seq<GenTask>, pagesNeeded: nat)
    requires ways > 0 || pagesNeeded == 0
    modifies set t | t in tasks
    ensures OnlyColors(tasks)
    ensures forall i :: 0 <= i < |tasks| ==> tasks[i].colors == EvilMap(ways, pagesNeeded)
  {
    var m := EvilFill(ways, pagesNeeded);
    for k := 0 to |tasks|
      invariant forall i :: 0 <= i < k ==> tasks[i].colors == m
      invariant OnlyColors(tasks)
    {
      tasks[k].colors := m;
    }
  }

  /** The `while pages_needed > 0` loop, which fills colours front to back. */
  method EvilFill(ways: nat, pagesNeeded: nat) returns (m: ColorMap)
    requires ways > 0 || pagesNeeded == 0
    ensures m == EvilMap(ways, pagesNeeded)
  {
    m := map[];
    var color := 0;
    var left := pagesNeeded;
    while left > 0
      invariant 0 <= left <= pagesNeeded
      invariant left > 0 ==> left == pagesNeeded - color * ways
      invariant left == 0 ==> color * ways >= pagesNeeded
      invariant color == 0 || (color - 1) * ways < pagesNeeded
      invariant m == map c | 0 <= c < color :: Min(ways, pagesNeeded - c * ways)
      decreases left
    {
      assert (color + 1) * ways == color * ways + ways;
      m := m[color := Min(ways, left)];
      left := left - m[color];
      color := color + 1;
    }
    if pagesNeeded > 0 {
      CeilUnique(pagesNeeded, ways, color, CeilDiv(pagesNeeded, ways));
    }
  }

}
