/** Runs of the protocol in which the cached status hides a patch that is still to happen. */
module Hazards {
  import opened Api
  import opened CacheModel
  import opened PriorityClasses
  import opened Protocol
  import WQ = WorkQueues

  function Nothing(): State {
    State(CacheState("", map[], map[], NO_CLASSES, map[], map[], WQ.NO_WORK), multiset{}, map[], map[], map[])
  }

  function Binding(uid: UID, k: Key): ResourceBinding {
    ResourceBinding(k, uid, 0, ObjectReference("v1", "Job", uid), map[], 1, Some(Suspension(Some(true), None)))
  }

  /** A suspended binding is cached, asked for, and handed to a worker that is about to look it up. */
  function HandedOver(k: Key): State {
    var c := Nothing().cache;
    State(c.(bindings := map[k := Binding("a", k)],
             infos := map[k := NewInfo(Binding("a", k), "q", "").(status := UnSuspending)],
             tasks := WQ.WorkQueue({}, {k}, [])),
          multiset{Holding(k)}, map[k := 1], map[], map[])
  }

  lemma ReachHandedOver(k: Key) returns (actions: seq<Action>)
    ensures Legal(Nothing(), actions) && Exec(Nothing(), actions) == HandedOver(k)
    ensures DeleteBinding(k) !in actions
  {
    var set1 := SetBinding(Binding("a", k), Workload("q", ""));
    var s0 := Nothing();
    var s1 := Next(s0, set1);
    var s2 := Next(s1, CallUnSuspend(k));
    assert s2.cache.tasks == WQ.WorkQueue({k}, {}, [k]);
    var s3 := Next(s2, WorkerGet);
    assert s3.cache.tasks == WQ.WorkQueue({}, {k}, []);
    assert s3.procs == multiset{Holding(k)};
    assert s3 == HandedOver(k);
    RunCons(s2, WorkerGet, []);
    RunCons(s1, CallUnSuspend(k), [WorkerGet] + []);
    actions := [set1] + ([CallUnSuspend(k)] + ([WorkerGet] + []));
    RunCons(s0, set1, [CallUnSuspend(k)] + ([WorkerGet] + []));
  }

  /** The cache counts the binding of this UID as waiting, and its key's latest patch succeeded. */
  ghost predicate WaitingButPatched(s: State, k: Key, uid: UID) {
    k in s.cache.bindings && s.cache.bindings[k].uid == uid && HasStatus(s.cache, k, Suspended) && LastSucceeded(s, k)
  }

  /** The old binding is deleted and a new one of its name cached, suspended. */
  function Replaced(k: Key): State {
    HandedOver(k).(cache := HandedOver(k).cache.(
      bindings := map[k := Binding("b", k)], infos := map[k := NewInfo(Binding("b", k), "q", "")]))
  }

  lemma ReachReplaced(k: Key)
    ensures Next(Next(HandedOver(k), DeleteBinding(k)), SetBinding(Binding("b", k), Workload("q", ""))) == Replaced(k)
  {
  }

  lemma PatchReplaced(k: Key) returns (after: seq<Action>)
    ensures Legal(Replaced(k), after) && WaitingButPatched(Exec(Replaced(k), after), k, "b")
    ensures CallUnSuspend(k) !in after
  {
    var s1 := Next(Replaced(k), WorkerLookup(k));
    var a1 := [PatchReturns(k, true)] + [];
    RunCons(s1, PatchReturns(k, true), []);
    after := [WorkerLookup(k)] + a1;
    RunCons(Replaced(k), WorkerLookup(k), a1);
  }

  lemma AfterReuse(k: Key) returns (after: seq<Action>)
    ensures Legal(HandedOver(k), after) && WaitingButPatched(Exec(HandedOver(k), after), k, "b")
    ensures CallUnSuspend(k) !in after
  {
    var set2 := SetBinding(Binding("b", k), Workload("q", ""));
    var a2 := PatchReplaced(k);
    ReachReplaced(k);
    var a1 := [set2] + a2;
    RunCons(Next(HandedOver(k), DeleteBinding(k)), set2, a2);
    after := [DeleteBinding(k)] + a1;
    RunCons(HandedOver(k), DeleteBinding(k), a1);
  }

  lemma AfterUpdate(k: Key) returns (after: seq<Action>)
    ensures Legal(HandedOver(k), after) && WaitingButPatched(Exec(HandedOver(k), after), k, "a")
    ensures DeleteBinding(k) !in after
  {
    var set2 := SetBinding(Binding("a", k), Workload("q", ""));
    var s1 := Next(HandedOver(k), WorkerLookup(k));
    var s2 := Next(s1, set2);
    var a3 := [PatchReturns(k, true)] + [];
    RunCons(s2, PatchReturns(k, true), []);
    var a2 := [set2] + a3;
    RunCons(s1, set2, a3);
    after := [WorkerLookup(k)] + a2;
    RunCons(HandedOver(k), WorkerLookup(k), a2);
  }

  /** When a name is reused, the new binding can be patched although nobody asked for it: the one
      request was made for the old binding, before the new one existed. */
  lemma NameReusePatchesUnasked(k: Key)
    ensures exists asked: seq<Action>, after: seq<Action> ::
              && Legal(Nothing(), asked) && Exec(Nothing(), asked).cache.bindings == map[k := Binding("a", k)]
              && Legal(Exec(Nothing(), asked), after) && CallUnSuspend(k) !in after
              && WaitingButPatched(Exec(Exec(Nothing(), asked), after), k, "b")
  {
    var asked := ReachHandedOver(k);
    var after := AfterReuse(k);
  }

  /** An update that still says suspended, delivered while the patch is under way, makes the cache
      count the binding as waiting although the patch goes through. */
  lemma UpdateHidesPatch(k: Key)
    ensures exists asked: seq<Action>, after: seq<Action> ::
              && Legal(Nothing(), asked) && DeleteBinding(k) !in asked
              && Legal(Exec(Nothing(), asked), after) && DeleteBinding(k) !in after
              && WaitingButPatched(Exec(Exec(Nothing(), asked), after), k, "a")
  {
    var asked := ReachHandedOver(k);
    var after := AfterUpdate(k);
  }
}
