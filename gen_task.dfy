/** The task objects the experiment generators create and then decorate:
    the partitioner sets `cpu` and `lvla_id`, `_customize` sets `id` and
    `wss`, and the colouring schemes set `colors`. Utilization is fixed
    when the task is created. */
module GenTasks {

  class GenTask {
    var cpu: int
    var lvlaId: int
    var id: int
    var wss: int
    var colors: map<int, int>  // colour -> number of pages in that colour
    const util: real           // `t.utilization()`

    constructor (cpu: int, util: real)
      ensures this.cpu == cpu && this.util == util
      ensures lvlaId == 0 && id == 0 && wss == 0 && colors == map[]
    {
      this.cpu := cpu;
      this.util := util;
      lvlaId, id, wss := 0, 0, 0;
      colors := map[];
    }
  }

  /** Between two states, the tasks of `ts` changed at most their colours. */
  twostate predicate OnlyColors(ts: seq<GenTask>)
    reads set t | t in ts
  {
    forall t :: t in ts ==>
      t.cpu == old(t.cpu) && t.lvlaId == old(t.lvlaId) && t.id == old(t.id) && t.wss == old(t.wss)
  }

  /** No task object appears twice in the list. */
  predicate Distinct(ts: seq<GenTask>)
  {
    forall i, j :: 0 <= i < j < |ts| ==> ts[i] != ts[j]
  }
}
