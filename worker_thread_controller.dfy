/** The worker-group registry (workerThreadController.py): named groups of
    (thread, id) entries, with thread reuse, start, stop, stop-all and
    delete-by-id. Threads are objects with a `running` flag; real
    concurrency is not modelled. */
module WorkerThreads {
  import opened Wrappers

  /** A `QThread`, reduced to what the registry observes and changes. */
  class WorkerThread {
    var running: bool
    /** How many times `start()` was called on it. */
    var starts: nat
    /** The worker objects moved to this thread (`moveToThread`). */
    var workers: seq<string>
    /** The slots connected to its `started` and `finished` signals. */
    var startedHandlers: seq<string>
    var finishedHandlers: seq<string>

    constructor ()
      ensures !running && starts == 0
      ensures workers == [] && startedHandlers == [] && finishedHandlers == []
    {
      running := false;
      starts := 0;
      workers := [];
      startedHandlers := [];
      finishedHandlers := [];
    }

    /** `start()`. */
    method Start()
      modifies this`running, this`starts
      ensures running && starts == old(starts) + 1
    {
      running := true;
      starts := starts + 1;
    }

    /** `exit()` followed by `wait()`: the thread has finished on return. */
    method ExitAndWait()
      modifies this`running
      ensures !running
    {
      running := false;
    }
  }

  /** `WorkerGroupInfo`. The callables are named by strings; a present one
      is always truthy. */
  datatype WorkerGroupInfo = WorkerGroupInfo(
    worker: string, group: string,
    onStart: Option<string>, onClose: Option<string>, id: Option<string>)

  /** One element of a group's list: the thread and the worker's id. */
  type Entry = (WorkerThread, Option<string>)

  /** Python truthiness of an optional id: present and non-empty. */
  predicate Truthy(id: Option<string>) {
    id.Some? && id.value != ""
  }

  function Threads(list: seq<Entry>): set<WorkerThread> {
    set e | e in list :: e.0
  }

  /** The test of the deletion loop on one entry. */
  predicate Matches(e: Entry, id: string)
    reads e.0
  {
    Truthy(e.1) && e.1.value == id && e.0.running
  }

  /** The index of the first entry at or after `from` that `Matches`, or
      `|list|` when there is none. */
  function FirstMatch(list: seq<Entry>, id: string, from: nat): (k: nat)
    requires from <= |list|
    reads Threads(list)
    ensures from <= k <= |list|
    ensures forall j :: from <= j < k ==> !Matches(list[j], id)
    ensures k < |list| ==> Matches(list[k], id) && Truthy(list[k].1)
    decreases |list| - from
  {
    if from == |list| then from
    else if Matches(list[from], id) then from
    else FirstMatch(list, id, from + 1)
  }

  /** The index of the first thread that is not running, or `|list|`. */
  function FirstIdle(list: seq<Entry>, from: nat): (k: nat)
    requires from <= |list|
    reads Threads(list)
    ensures from <= k <= |list|
    ensures forall j :: from <= j < k ==> list[j].0.running
    ensures k < |list| ==> !list[k].0.running
    decreases |list| - from
  {
    if from == |list| then from
    else if !list[from].0.running then from
    else FirstIdle(list, from + 1)
  }

  class WorkerThreadController {
    var groups: map<string, seq<Entry>>      // worker_groups

    constructor ()
      ensures groups == map[]
    {
      groups := map[];
    }

    function GroupThreads(name: string): set<WorkerThread>
      reads this
    {
      if name in groups then Threads(groups[name]) else {}
    }

    function AllThreads(): set<WorkerThread>
      reads this
    {
      set name, e | name in groups && e in groups[name] :: e.0
    }

    /** `getWorkerThread`: with reuse requested and the group present, the
        first thread of the group that is not running; otherwise a new one. */
    method GetWorkerThread(useExisting: bool, name: string) returns (t: WorkerThread)
      ensures useExisting && name in groups && FirstIdle(groups[name], 0) < |groups[name]| ==>
        t == groups[name][FirstIdle(groups[name], 0)].0
      ensures !(useExisting && name in groups && FirstIdle(groups[name], 0) < |groups[name]|) ==>
        fresh(t) && !t.running && t.starts == 0
        && t.workers == [] && t.startedHandlers == [] && t.finishedHandlers == []
    {
      if useExisting && name in groups {
        var list := groups[name];
        var i := 0;
        while i < |list|
          invariant 0 <= i <= |list|
          invariant forall j :: 0 <= j < i ==> list[j].0.running
        {
          if !list[i].0.running {
            return list[i].0;
          }
          i := i + 1;
        }
      }
      t := new WorkerThread();
    }

    /** `placeWorkerThreadInGroup`: append the entry, creating the group. */
    method PlaceWorkerThreadInGroup(t: WorkerThread, info: WorkerGroupInfo)
      modifies this
      ensures groups == old(groups)[info.group :=
        (if info.group in old(groups) then old(groups)[info.group] else []) + [(t, info.id)]]
    {
      if info.group !in groups {
        groups := groups[info.group := []];
      }
      groups := groups[info.group := groups[info.group] + [(t, info.id)]];
    }

    /** `addWorkerToGroup`: exactly one entry is appended to the named group
        (created empty if absent), its thread carries the worker and the
        given start and close slots, and no other group changes. */
    method AddWorkerToGroup(info: WorkerGroupInfo, useExisting: bool) returns (t: WorkerThread)
      modifies this, GroupThreads(info.group)
      ensures groups == old(groups)[info.group :=
        (if info.group in old(groups) then old(groups)[info.group] else []) + [(t, info.id)]]
      ensures forall name :: name in old(groups) && name != info.group ==> groups[name] == old(groups)[name]
      ensures useExisting && info.group in old(groups)
              && old(FirstIdle(groups[info.group], 0)) < |old(groups)[info.group]| ==>
        t == old(groups)[info.group][old(FirstIdle(groups[info.group], 0))].0
      ensures t.workers == old(if allocated(t) then t.workers else []) + [info.worker]
      ensures t.startedHandlers == old(if allocated(t) then t.startedHandlers else [])
        + (if info.onStart.Some? then [info.onStart.value] else [])
      ensures t.finishedHandlers == old(if allocated(t) then t.finishedHandlers else [])
        + (if info.onClose.Some? then [info.onClose.value] else [])
      ensures t.running == old(allocated(t) && t.running)
      ensures t.starts == old(if allocated(t) then t.starts else 0)
      ensures forall u :: u in old(GroupThreads(info.group)) && u != t ==> unchanged(u)
    {
      t := GetWorkerThread(useExisting, info.group);
      t.workers := t.workers + [info.worker];
      if info.onStart.Some? {
        t.startedHandlers := t.startedHandlers + [info.onStart.value];
      }
      if info.onClose.Some? {
        t.finishedHandlers := t.finishedHandlers + [info.onClose.value];
      }
      PlaceWorkerThreadInGroup(t, info);
    }

    /** `startWorkerGroup`: afterwards every thread of the group runs, and
        each was started once if it was idle and not at all if it was
        already running, even when it occurs twice in the list. An unknown
        group raises a KeyError. */
    method StartWorkerGroup(name: string) returns (outcome: Outcome)
      modifies GroupThreads(name)`running, GroupThreads(name)`starts
      ensures groups == old(groups)
      ensures outcome == (if name in groups then Done else Raised(KeyError(name)))
      ensures forall t :: t in GroupThreads(name) ==>
        t.running && t.starts == old(t.starts) + (if old(t.running) then 0 else 1)
    {
      if name !in groups {
        return Raised(KeyError(name));
      }
      var list := groups[name];
      var i := 0;
      while i < |list|
        invariant 0 <= i <= |list|
        invariant forall t :: t in Threads(list) ==>
          && t.running == (old(t.running) || t in Threads(list[..i]))
          && t.starts == old(t.starts) + (if !old(t.running) && t in Threads(list[..i]) then 1 else 0)
      {
        assert Threads(list[..i + 1]) == Threads(list[..i]) + {list[i].0} by {
          assert list[..i + 1] == list[..i] + [list[i]];
        }
        if !list[i].0.running {
          list[i].0.Start();
        }
        i := i + 1;
      }
      assert list[..i] == list;
      outcome := Done;
    }

    /** `stopWorkerGroup`: no thread of the group runs afterwards and the
        list is unchanged; an unknown group changes nothing. */
    method StopWorkerGroup(name: string)
      modifies GroupThreads(name)`running
      ensures groups == old(groups)
      ensures forall t :: t in GroupThreads(name) ==> !t.running
    {
      if name !in groups {
        return;
      }
      var list := groups[name];
      var i := 0;
      while i < |list|
        invariant 0 <= i <= |list|
        invariant forall t :: t in Threads(list[..i]) ==> !t.running
      {
        assert Threads(list[..i + 1]) == Threads(list[..i]) + {list[i].0} by {
          assert list[..i + 1] == list[..i] + [list[i]];
        }
        if list[i].0.running {
          list[i].0.ExitAndWait();
        }
        i := i + 1;
      }
      assert list[..i] == list;
    }

    /** `stopAllWorkerGroups`: no thread of any group runs afterwards. */
    method StopAllWorkerGroups()
      modifies AllThreads()`running
      ensures groups == old(groups)
      ensures forall t :: t in AllThreads() ==> !t.running
    {
      var remaining := groups.Keys;
      while remaining != {}
        invariant remaining <= groups.Keys && groups == old(groups)
        invariant forall name :: name in groups && name !in remaining ==>
          forall t :: t in Threads(groups[name]) ==> !t.running
        decreases remaining
      {
        var name :| name in remaining;
        assert GroupThreads(name) <= AllThreads();
        StopWorkerGroup(name);
        remaining := remaining - {name};
      }
    }

    /** `deleteObjectByIdFromWorkerGroup`: the first entry whose id is
        truthy, equal to `id` and whose thread runs is stopped and removed,
        the rest keeping their order; without such an entry nothing
        changes. An unknown group raises a KeyError. */
    method DeleteObjectByIdFromWorkerGroup(id: string, name: string) returns (outcome: Outcome)
      modifies this, GroupThreads(name)`running
      ensures name !in old(groups) ==> outcome == Raised(KeyError(name)) && groups == old(groups)
      ensures name in old(groups) ==>
        var list := old(groups[name]);
        var k := old(FirstMatch(groups[name], id, 0));
        && outcome == Done
        && (k == |list| ==> groups == old(groups))
        && (k < |list| ==> groups == old(groups)[name := list[..k] + list[k + 1..]] && !list[k].0.running)
        && (forall t :: t in Threads(list) && (k == |list| || t != list[k].0) ==> t.running == old(t.running))
    {
      if name !in groups {
        return Raised(KeyError(name));
      }
      var list := groups[name];
      var index := 0;
      var found := false;
      while index < |list|
        invariant 0 <= index <= |list|
        invariant forall j :: 0 <= j < index ==> !Matches(list[j], id)
      {
        var e := list[index];
        if e.1.Some? && e.1.value != "" && e.1.value == id && e.0.running {
          e.0.ExitAndWait();
          found := true;
          break;
        }
        index := index + 1;
      }
      if found {
        groups := groups[name := list[..index] + list[index + 1..]];
      }
      outcome := Done;
    }
  }

  /** Reuse does not deduplicate: a second worker added with reuse to a
      group whose only thread is idle lands on that same thread, which then
      occurs twice in the list. */
  method ReusedThreadListedTwice() returns (list: seq<Entry>)
    ensures |list| == 2 && list[0].0 == list[1].0
    ensures list[0].1 == Some("first") && list[1].1 == Some("second")
  {
    var controller := new WorkerThreadController();
    var t1 := controller.AddWorkerToGroup(WorkerGroupInfo("w1", "g", None, None, Some("first")), false);
    assert FirstIdle(controller.groups["g"], 0) == 0;
    var t2 := controller.AddWorkerToGroup(WorkerGroupInfo("w2", "g", None, None, Some("second")), true);
    list := controller.groups["g"];
  }
}
