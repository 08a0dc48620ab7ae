/**
  The ownership table: for every task its status and lineage, for every object the task
  that produces it.  Owner ids, function descriptions and reference counts are not part
  of the model; nothing in the runtime depends on them.
 */
module Ownership {
  import opened Wrappers
  import opened Lineage

  datatype TaskStatus = WaitingForDependencies | Ready | Running | Finished | Failed

  datatype TaskEntry = TaskEntry(
    status: TaskStatus, resultId: nat, saved: Call, dependencies: seq<nat>, error: Option<string>)

  /** What reconstruction reads of a task entry. */
  function TaskOf(e: TaskEntry): Task
  {
    Task(e.resultId, e.saved, e.dependencies)
  }

  class OwnershipTable {
    var tasks: map<nat, TaskEntry>
    var objects: map<nat, nat>  // the producer of each object

    /** The lineage this table records. */
    function Lineage(): Table
      reads this
    {
      Table(map t | t in tasks :: TaskOf(tasks[t]), objects)
    }

    constructor ()
      ensures Lineage() == EMPTY_TABLE && tasks == map[]
    {
      tasks, objects := map[], map[];
    }

    method RegisterTask(t: nat, o: nat, c: Call, deps: seq<nat>)
      modifies this
      ensures Lineage() == Record(old(Lineage()), t, o, c, deps)
      ensures tasks.Keys == old(tasks).Keys + {t} && tasks[t].status == Ready && tasks[t].error == None
      ensures forall u :: u in old(tasks) && u != t ==> tasks[u] == old(tasks)[u]
    {
      tasks := tasks[t := TaskEntry(Ready, o, c, deps, None)];
      objects := objects[o := t];
    }

    /** Completion and failure change the status of one task and never its lineage. */
    method TaskFinished(t: nat)
      modifies this`tasks
      ensures Lineage() == old(Lineage())
      ensures t in old(tasks) ==> t in tasks && tasks[t] == old(tasks)[t].(status := Finished)
      ensures tasks.Keys == old(tasks).Keys && forall u :: u in tasks && u != t ==> tasks[u] == old(tasks)[u]
    {
      if t in tasks {
        tasks := tasks[t := tasks[t].(status := Finished)];
      }
    }

    method TaskFailed(t: nat, error: string)
      modifies this`tasks
      ensures Lineage() == old(Lineage())
      ensures t in old(tasks) ==> t in tasks && tasks[t] == old(tasks)[t].(status := Failed, error := Some(error))
      ensures tasks.Keys == old(tasks).Keys && forall u :: u in tasks && u != t ==> tasks[u] == old(tasks)[u]
    {
      if t in tasks {
        tasks := tasks[t := tasks[t].(status := Failed, error := Some(error))];
      }
    }

    /** `get_result_id`.  In a consistent table it is the inverse of `get_producer_task`. */
    method GetResultId(t: nat) returns (r: Option<nat>)
      ensures r.Some? <==> t in tasks
      ensures r.Some? && Inverse(Lineage()) ==> r.value in objects && objects[r.value] == t
    {
      r := if t in tasks then Some(tasks[t].resultId) else None;
      assert r.Some? ==> t in Lineage().tasks;
    }

    method GetProducerTask(o: nat) returns (r: Option<nat>)
      ensures r.Some? <==> o in objects
      ensures r.Some? ==> objects[o] == r.value
      ensures r.Some? && WellFounded(Lineage()) ==> r.value in tasks && tasks[r.value].resultId == o
    {
      r := if o in objects then Some(objects[o]) else None;
      assert r.Some? && WellFounded(Lineage()) ==> o in Lineage().producer;
    }

    /** `get_task_lineage`.  In a consistent table the dependency list is that of the
        saved call, and each dependency has a producer and a smaller id than the result. */
    method GetTaskLineage(t: nat) returns (r: Option<(Call, seq<nat>)>)
      ensures r.Some? <==> t in tasks
      ensures r.Some? ==> r.value == (tasks[t].saved, tasks[t].dependencies)
      ensures r.Some? && WellFounded(Lineage()) ==>
        r.value.1 == DepsOf(r.value.0) && forall d :: d in r.value.1 ==> d in objects && d < tasks[t].resultId
    {
      r := if t in tasks then Some((tasks[t].saved, tasks[t].dependencies)) else None;
      if r.Some? && WellFounded(Lineage()) {
        assert t in Lineage().tasks && Lineage().tasks[t] == TaskOf(tasks[t]);
      }
    }
  }
}
