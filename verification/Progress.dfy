/** Which requests the workers can still get to, and that some they cannot. */
module Progress {
  import opened Api
  import opened CacheModel
  import opened Protocol
  import Hazards

  /** A step of a worker or of the goroutine it starts. */
  predicate WorkerStep(a: Action) {
    a.WorkerGet? || a.WorkerLookup? || a.PatchReturns? || a.RecoverStatus? || a.MarkDone?
  }

  /** The workers, left alone, start a patch of the key. */
  ghost predicate StartsPatch(s: State, k: Key, actions: seq<Action>) {
    && (forall a | a in actions :: WorkerStep(a))
    && Legal(s, actions) && Count(Exec(s, actions).starts, k) > Count(s.starts, k)
  }

  lemma StartsCons(s: State, k: Key, a: Action, rest: seq<Action>)
    requires Protocol.Enabled(s, a) && WorkerStep(a) && StartsPatch(Next(s, a), k, rest)
    ensures StartsPatch(s, k, [a] + rest)
  {
    RunCons(s, a, rest);
    assert Count(Next(s, a).starts, k) >= Count(s.starts, k);
  }

  lemma FromHolding(s: State, k: Key) returns (actions: seq<Action>)
    requires k in s.cache.infos && Holding(k) in s.procs
    ensures StartsPatch(s, k, actions)
  {
    var rest: seq<Action> := [];
    RunCons(s, WorkerLookup(k), rest);
    actions := [WorkerLookup(k)] + rest;
  }

  /** The keys ahead are handed out first. */
  lemma {:induction false} FromQueue(s: State, k: Key, i: nat) returns (actions: seq<Action>)
    requires Inv(s) && k in s.cache.infos && i < |s.cache.tasks.queue| && s.cache.tasks.queue[i] == k
    ensures StartsPatch(s, k, actions)
    decreases i
  {
    var t := Next(s, WorkerGet);
    var rest;
    if i == 0 {
      assert t.procs[Holding(k)] == s.procs[Holding(k)] + 1;
      rest := FromHolding(t, k);
    } else {
      InvStep(s, WorkerGet);
      rest := FromQueue(t, k, i - 1);
    }
    StartsCons(s, k, WorkerGet, rest);
    actions := [WorkerGet] + rest;
  }

  lemma FromWaiting(s: State, k: Key) returns (actions: seq<Action>)
    requires Inv(s) && k in s.cache.infos && k in s.cache.tasks.dirty && k !in s.cache.tasks.processing
    ensures StartsPatch(s, k, actions)
  {
    assert k in s.cache.tasks.queue;
    var i :| 0 <= i < |s.cache.tasks.queue| && s.cache.tasks.queue[i] == k;
    actions := FromQueue(s, k, i);
  }

  /** What a step that only concerns a handed-out key leaves as it was. */
  lemma HandedStep(s: State, k: Key, a: Action)
    requires Inv(s) && Protocol.Enabled(s, a) && (a.PatchReturns? || a.RecoverStatus? || a.MarkDone?) && a.key == k
    ensures Inv(Next(s, a)) && ViewOf(Next(s, a), k) == KeyNext(ViewOf(s, k), EventFor(s, a, k))
    ensures k in Next(s, a).cache.infos <==> k in s.cache.infos
    ensures k in Next(s, a).cache.tasks.dirty <==> k in s.cache.tasks.dirty
  {
    InvStep(s, a);
    ViewStep(s, a, k);
    assert ViewOf(Next(s, a), k).cached == ViewOf(s, k).cached && ViewOf(Next(s, a), k).dirty == ViewOf(s, k).dirty;
  }

  lemma FromFinishing(s: State, k: Key) returns (actions: seq<Action>)
    requires Inv(s) && k in s.cache.infos && k in s.cache.tasks.dirty && Finishing(k) in s.procs
    ensures StartsPatch(s, k, actions)
  {
    HandedStep(s, k, MarkDone(k));
    assert !ViewOf(Next(s, MarkDone(k)), k).processing;
    var rest := FromWaiting(Next(s, MarkDone(k)), k);
    StartsCons(s, k, MarkDone(k), rest);
    actions := [MarkDone(k)] + rest;
  }

  lemma FromRecovering(s: State, k: Key) returns (actions: seq<Action>)
    requires Inv(s) && k in s.cache.infos && k in s.cache.tasks.dirty && Recovering(k) in s.procs
    ensures StartsPatch(s, k, actions)
  {
    HandedStep(s, k, RecoverStatus(k));
    assert KeyInv(ViewOf(s, k)) && ViewOf(Next(s, RecoverStatus(k)), k).finishing > 0;
    var rest := FromFinishing(Next(s, RecoverStatus(k)), k);
    StartsCons(s, k, RecoverStatus(k), rest);
    actions := [RecoverStatus(k)] + rest;
  }

  lemma FromPatching(s: State, k: Key) returns (actions: seq<Action>)
    requires Inv(s) && k in s.cache.infos && k in s.cache.tasks.dirty && Patching(k) in s.procs
    ensures StartsPatch(s, k, actions)
  {
    HandedStep(s, k, PatchReturns(k, true));
    assert KeyInv(ViewOf(s, k)) && ViewOf(Next(s, PatchReturns(k, true)), k).finishing > 0;
    var rest := FromFinishing(Next(s, PatchReturns(k, true)), k);
    StartsCons(s, k, PatchReturns(k, true), rest);
    actions := [PatchReturns(k, true)] + rest;
  }

  lemma FromDirty(s: State, k: Key) returns (actions: seq<Action>)
    requires Inv(s) && k in s.cache.infos && k in s.cache.tasks.dirty && !Dropped(ViewOf(s, k))
    ensures StartsPatch(s, k, actions)
  {
    assert KeyInv(ViewOf(s, k));
    if k !in s.cache.tasks.processing {
      actions := FromWaiting(s, k);
    } else if Holding(k) in s.procs {
      actions := FromHolding(s, k);
    } else if Patching(k) in s.procs {
      actions := FromPatching(s, k);
    } else if Recovering(k) in s.procs {
      actions := FromRecovering(s, k);
    } else {
      actions := FromFinishing(s, k);
    }
  }

  /** A request for a cached binding can still be carried out, by the workers alone, if and only if
      its key was not dropped. */
  lemma ServedUnlessDropped(s: State, k: Key)
    requires Inv(s) && k in s.cache.infos && k in s.cache.tasks.dirty
    ensures (exists actions :: StartsPatch(s, k, actions)) <==> !Dropped(ViewOf(s, k))
  {
    if Dropped(ViewOf(s, k)) {
      forall actions ensures !StartsPatch(s, k, actions) {
        if Legal(s, actions) {
          DroppedForever(s, actions, k);
        }
      }
    } else {
      var actions := FromDirty(s, k);
    }
  }

  /** The key is dropped, and a binding is cached under it that was asked for. */
  ghost predicate DroppedAgain(s: State, k: Key) {
    k in s.cache.infos && k in s.cache.tasks.dirty && Dropped(ViewOf(s, k))
  }

  lemma Redo(k: Key) returns (after: seq<Action>)
    ensures var s := Hazards.HandedOver(k);
            Legal(s, after) && DroppedAgain(Exec(s, after), k)
  {
    var set2 := SetBinding(Hazards.Binding("b", k), Workload("q", ""));
    var s1 := Next(Hazards.HandedOver(k), DeleteBinding(k));
    var s2 := Next(s1, WorkerLookup(k));
    var s3 := Next(s2, set2);
    var a3 := [CallUnSuspend(k)] + [];
    RunCons(s3, CallUnSuspend(k), []);
    var a2 := [set2] + a3;
    RunCons(s2, set2, a3);
    var a1 := [WorkerLookup(k)] + a2;
    RunCons(s1, WorkerLookup(k), a2);
    after := [DeleteBinding(k)] + a1;
    RunCons(Hazards.HandedOver(k), DeleteBinding(k), a1);
  }

  lemma NothingIsInit()
    ensures Inv(Hazards.Nothing())
  {
  }

  /** Keys do get dropped: by deleting a binding between the worker's Get and its look-up. Created
      and asked for again, the new binding waits for good. */
  lemma DropHappens(k: Key)
    ensures exists actions: seq<Action> ::
              && Legal(Hazards.Nothing(), actions) && Inv(Exec(Hazards.Nothing(), actions))
              && DroppedAgain(Exec(Hazards.Nothing(), actions), k)
  {
    var asked := Hazards.ReachHandedOver(k);
    var after := Redo(k);
    AfterAsking(Hazards.Nothing(), asked, Hazards.HandedOver(k), after, k);
  }

  lemma AfterAsking(s: State, asked: seq<Action>, t: State, after: seq<Action>, k: Key)
    requires Legal(s, asked) && Exec(s, asked) == t && Legal(t, after) && DroppedAgain(Exec(t, after), k)
    requires s == Hazards.Nothing()
    ensures Legal(s, asked + after) && Inv(Exec(s, asked + after)) && DroppedAgain(Exec(s, asked + after), k)
  {
    RunConcat(s, asked, after);
    NothingIsInit();
    InvAlong(s, asked + after);
  }
}
