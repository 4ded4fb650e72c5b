/** A registry of Task objects, as in src/Multithread.py: tasks that report their
    progress, a `done` flag that becomes true once the progress rounds to
    100.0 and stays true, and the global list of registered tasks with its
    lookups by task id. */
module Multithread {
  import opened Py

  /** A unit of work (a conversion, a resample, a write) and its progress. */
  class Task {
    const name: string
    const taskID: int
    /** "CONVERT", "RESAMPLE" or "WRITE". */
    const kind: string
    var progress: real
    var done: bool

    /** A new task has made no progress and is not done. */
    constructor(name: string, taskID: int, kind: string)
      ensures this.name == name && this.taskID == taskID && this.kind == kind
      ensures progress == 0.0 && !done
    {
      this.name := name;
      this.taskID := taskID;
      this.kind := kind;
      progress := 0.0;
      done := false;
    }

    /** `update_progress`: store `p`; `done` becomes true when `p` rounds
        to 100.0 at one decimal, and once true it stays true. */
    method UpdateProgress(p: real)
      modifies this
      ensures progress == p
      ensures done == (old(done) || Round1(p) == 100.0)
    {
      progress := p;
      if Round1(p) == 100.0 {
        done := true;
      }
    }

    function IsDone(): (r: bool)
      reads this
      ensures r == done
    {
      done
    }

    function GetProgress(): (r: real)
      reads this
      ensures r == progress
    {
      progress
    }
  }

  /** `round(p, 1) == 100.0` holds exactly from 99.95 up to 100.05, the ties
      at both ends rounding to the even 1000 tenths. */
  lemma FinishedRange(p: real)
    ensures Round1(p) == 100.0 <==> 99.95 <= p <= 100.05
  {
    var r := RoundHalfEven(p * 10.0);
    if 99.95 <= p <= 100.05 {
      assert 999.5 <= p * 10.0 <= 1000.5;
      assert r == 1000;
    } else {
      assert r != 1000;
    }
  }

  /** The index of the first task, in registration order, with id `id`. */
  function FirstWithID(tasks: seq<Task>, id: int): (r: Option<nat>)
    ensures r == None <==> forall i :: 0 <= i < |tasks| ==> tasks[i].taskID != id
    ensures r.Some? ==> r.value < |tasks| && tasks[r.value].taskID == id
                        && forall j :: 0 <= j < r.value ==> tasks[j].taskID != id
  {
    if tasks == [] then None
    else if tasks[0].taskID == id then Some(0)
    else
      match FirstWithID(tasks[1..], id)
      case None => None
      case Some(k) => Some(k + 1)
  }

  /** The global TASKS list. */
  class Registry {
    var tasks: seq<Task>

    constructor()
      ensures tasks == []
    {
      tasks := [];
    }

    /** `add_task`: the new Task goes at the end; the earlier ones stay. */
    method AddTask(task: Task)
      modifies this
      ensures tasks == old(tasks) + [task]
    {
      tasks := tasks + [task];
    }

    /** `all_done`: whether every registered task is done (true for none). */
    method AllDone() returns (r: bool)
      ensures r <==> forall i :: 0 <= i < |tasks| ==> tasks[i].done
    {
      for i := 0 to |tasks|
        invariant forall j :: 0 <= j < i ==> tasks[j].done
      {
        if !tasks[i].IsDone() {
          return false;
        }
      }
      return true;
    }

    /** `find_ID`: the first task, in registration order, whose id is `id`,
        or None. */
    method FindID(id: int) returns (r: Option<Task>)
      ensures r == (match FirstWithID(tasks, id)
                    case None => None
                    case Some(k) => Some(tasks[k]))
    {
      for i := 0 to |tasks|
        invariant forall j :: 0 <= j < i ==> tasks[j].taskID != id
      {
        if tasks[i].taskID == id {
          FirstWithIDAt(tasks, id, i);
          return Some(tasks[i]);
        }
      }
      return None;
    }

    /** `update_ID`: give the first task with id `id` the progress `prog`;
        with no such task nothing changes. Every task that is not that one
        keeps its progress and its flag. */
    method UpdateID(id: int, prog: real)
      modifies tasks
      ensures FirstWithID(tasks, id) == None ==> forall i :: 0 <= i < |tasks| ==> unchanged(tasks[i])
      ensures FirstWithID(tasks, id).Some? ==>
        var t := tasks[FirstWithID(tasks, id).value];
        && t.progress == prog
        && t.done == (old(t.done) || Round1(prog) == 100.0)
        && forall i :: 0 <= i < |tasks| && tasks[i] != t ==> unchanged(tasks[i])
    {
      var task := FindID(id);
      if task.Some? {
        task.value.UpdateProgress(prog);
      }
    }
  }

  /** A task with id `id` after tasks that all have other ids is the first
      match. */
  lemma {:induction false} FirstWithIDAt(tasks: seq<Task>, id: int, i: nat)
    requires i < |tasks| && tasks[i].taskID == id
    requires forall j :: 0 <= j < i ==> tasks[j].taskID != id
    ensures FirstWithID(tasks, id) == Some(i)
  {
    if i > 0 {
      assert tasks[0].taskID != id;
      FirstWithIDAt(tasks[1..], id, i - 1);
    }
  }
}
