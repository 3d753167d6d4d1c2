/** What the list of unsuspend requests of a session is worth to those who carry it out. */
module Outcomes {
  import opened Resources
  import opened Api
  import opened Sessions

  /** The snapshot's bindings after the first requests were made. */
  function After(ss: Snapshot, asked: seq<Key>): map<UID, ResourceBindingInfo> {
    map u | u in ss.infos ::
      if ss.infos[u].rb.key in asked then ss.infos[u].(status := UnSuspending) else ss.infos[u]
  }

  /** Every request is for a suspended binding of the snapshot, and none is made twice. */
  ghost predicate SoundDispatch(ss: Snapshot, ts: seq<QueueTry>) {
    && (forall i | 0 <= i < |ts| ::
          && ts[i].binding.rb.uid in ss.infos && ss.infos[ts[i].binding.rb.uid] == ts[i].binding
          && ts[i].binding.status == Suspended)
    && (forall i, j | 0 <= i < j < |ts| :: ts[i].binding.rb.uid != ts[j].binding.rb.uid)
  }

  lemma SoundDispatchSnoc(ss: Snapshot, done: seq<QueueTry>, t: QueueTry)
    requires SoundDispatch(ss, done) && TryOk(ss, t)
    requires forall s | s in done :: s.binding.rb.uid != t.binding.rb.uid
    ensures SoundDispatch(ss, done + [t])
  {
    forall i | 0 <= i < |done| ensures (done + [t])[i].binding.rb.uid != t.binding.rb.uid {
      assert done[i] in done;
    }
  }

  lemma {:induction false} DispatchIsSound(ss: Snapshot, ts: seq<QueueTry>)
    requires Sound(ss, ts)
    ensures SoundDispatch(ss, Run(ss, ts).dispatched)
  {
    if ts != [] {
      var init, t := ts[..|ts| - 1], ts[|ts| - 1];
      SoundInit(ss, ts);
      DispatchIsSound(ss, init);
      assert forall s | s in Run(ss, init).dispatched :: s in init by { ShapeHolds(ss, init); }
      SoundDispatchSnoc(ss, Run(ss, init).dispatched, t);
    }
  }

  /** Any number of first requests is what some prefix of the tries makes. */
  lemma {:induction false} PrefixOfTries(ss: Snapshot, ts: seq<QueueTry>, n: nat) returns (m: nat)
    requires n <= |Run(ss, ts).dispatched|
    ensures m <= |ts| && Run(ss, ts[..m]).dispatched == Run(ss, ts).dispatched[..n]
    decreases |ts|
  {
    if n == |Run(ss, ts).dispatched| {
      m := |ts|;
      assert ts[..m] == ts;
    } else {
      var init := ts[..|ts| - 1];
      m := PrefixOfTries(ss, init, n);
      assert init[..m] == ts[..m];
    }
  }

  lemma SoundPrefix(ss: Snapshot, ts: seq<QueueTry>, m: nat)
    requires Sound(ss, ts) && m <= |ts|
    ensures Sound(ss, ts[..m])
  {
    assert forall i | 0 <= i < m :: ts[..m][i] == ts[i] && TryOk(ss, ts[i]);
  }

  lemma AskedIsDispatched(ss: Snapshot, ts: seq<QueueTry>, u: UID)
    requires ValidSnapshot(ss) && SoundDispatch(ss, ts) && u in ss.infos
    ensures ss.infos[u].rb.key in Keys(ts) <==> IsDispatched(ts, u)
  {
    if ss.infos[u].rb.key in Keys(ts) {
      var i :| 0 <= i < |ts| && Keys(ts)[i] == ss.infos[u].rb.key;
      assert ts[i] in ts && KeyTells(ss.infos, ts[i].binding.rb.uid, u);
    }
    if IsDispatched(ts, u) {
      var t :| t in ts && t.binding.rb.uid == u;
      var i :| 0 <= i < |ts| && ts[i] == t;
      assert Keys(ts)[i] == ss.infos[u].rb.key;
    }
  }

  lemma RunIsAfter(ss: Snapshot, ts: seq<QueueTry>)
    requires ValidSnapshot(ss) && Sound(ss, ts)
    ensures Run(ss, ts).infos == After(ss, Keys(Run(ss, ts).dispatched))
  {
    ShapeHolds(ss, ts);
    DispatchIsSound(ss, ts);
    var done := Run(ss, ts).dispatched;
    forall u | u in ss.infos ensures Run(ss, ts).infos[u] == After(ss, Keys(done))[u] {
      AskedIsDispatched(ss, done, u);
      assert InfoAt(ss, Run(ss, ts), u);
    }
  }

  lemma RequestsAreSound(ss: Snapshot)
    requires ValidSnapshot(ss)
    ensures SoundDispatch(ss, Outcome(ss).dispatched)
  {
    var ts := Tries(ss);
    assert Sound(ss, ts) by { TriesAreSound(ss); }
    DispatchIsSound(ss, ts);
  }

  lemma BoundAfterPrefix(ss: Snapshot, ts: seq<QueueTry>, n: nat, q: string, d: Dim)
    requires ValidSnapshot(ss) && Sound(ss, ts) && n <= |Run(ss, ts).dispatched|
    ensures Get(Load(ss, After(ss, Keys(Run(ss, ts).dispatched)[..n]), q), d)
         <= Max(Get(Load(ss, ss.infos, q), d), LimitAt(ss, q, d))
  {
    var m := PrefixOfTries(ss, ts, n);
    SoundPrefix(ss, ts, m);
    RunIsAfter(ss, ts[..m]);
    assert Keys(Run(ss, ts).dispatched[..n]) == Keys(Run(ss, ts).dispatched)[..n];
    SessionCapacityBound(ss, ts[..m], q, d);
  }

  /** However many of a session's requests have been made, in no dimension is a queue's load
      above the larger of its load at the start and its limit. */
  lemma BoundAfterRequests(ss: Snapshot, n: nat, q: string, d: Dim)
    requires ValidSnapshot(ss) && n <= |Decisions(ss)|
    ensures Get(Load(ss, After(ss, Decisions(ss)[..n]), q), d)
         <= Max(Get(Load(ss, ss.infos, q), d), LimitAt(ss, q, d))
  {
    var ts := Tries(ss);
    assert Sound(ss, ts) by { TriesAreSound(ss); }
    BoundAfterPrefix(ss, ts, n, q, d);
  }

  /** A requested key belongs to a suspended binding of the snapshot, requested once. */
  lemma RequestFacts(ss: Snapshot, i: nat)
    requires ValidSnapshot(ss) && i < |Decisions(ss)|
    ensures exists u :: u in ss.infos && ss.infos[u].rb.key == Decisions(ss)[i] && ss.infos[u].status == Suspended
    ensures forall j | 0 <= j < |Decisions(ss)| && j != i :: Decisions(ss)[j] != Decisions(ss)[i]
  {
    RequestsAreSound(ss);
    var done := Outcome(ss).dispatched;
    SoundKeys(ss, done, i);
    assert Decisions(ss) == Keys(done);
  }

  lemma SoundKeys(ss: Snapshot, done: seq<QueueTry>, i: nat)
    requires ValidSnapshot(ss) && SoundDispatch(ss, done) && i < |done|
    ensures exists u :: u in ss.infos && ss.infos[u].rb.key == Keys(done)[i] && ss.infos[u].status == Suspended
    ensures forall j | 0 <= j < |done| && j != i :: Keys(done)[j] != Keys(done)[i]
  {
    assert done[i].binding.rb.uid in ss.infos;
    forall j | 0 <= j < |done| && j != i ensures Keys(done)[j] != Keys(done)[i] {
      assert KeyTells(ss.infos, done[i].binding.rb.uid, done[j].binding.rb.uid);
    }
  }

  /** The try behind a request, and what its queue had allocated when it was made. */
  ghost predicate FoundAllocatable(ss: Snapshot, k: Key, ts: seq<QueueTry>, t: QueueTry) {
    && t.binding.rb.key == k && t.queue.name in ss.queues && ss.queues[t.queue.name] == t.queue
    && t.queue.name in Run(ss, ts).alloc
    && Fits(Run(ss, ts).alloc[t.queue.name], Limit(ss, t.queue), Request(t.binding))
  }

  lemma NewKey(ss: Snapshot, st: SessionState, t: QueueTry, k: Key)
    requires k in Keys(TryBinding(ss, st, t).dispatched) && k !in Keys(st.dispatched)
    ensures t.binding.rb.key == k
    ensures t.queue.uid in st.alloc && Fits(st.alloc[t.queue.uid], Limit(ss, t.queue), Request(t.binding))
  {
    if TryBinding(ss, st, t) != st {
      assert Keys(st.dispatched + [t]) == Keys(st.dispatched) + [t.binding.rb.key];
    }
  }

  lemma NewRequestFits(ss: Snapshot, ts: seq<QueueTry>, t: QueueTry, k: Key)
    requires ValidSnapshot(ss) && Sound(ss, ts + [t])
    requires k in Keys(TryBinding(ss, Run(ss, ts), t).dispatched) && k !in Keys(Run(ss, ts).dispatched)
    ensures FoundAllocatable(ss, k, ts, t)
  {
    NewKey(ss, Run(ss, ts), t, k);
    SoundInit(ss, ts + [t]);
  }

  ghost predicate FitAt(ss: Snapshot, ts: seq<QueueTry>, k: Key, m: nat) {
    m < |ts| && FoundAllocatable(ss, k, ts[..m], ts[m])
  }

  lemma FitAtSnoc(ss: Snapshot, ts: seq<QueueTry>, k: Key, m: nat, t: QueueTry)
    requires FitAt(ss, ts, k, m)
    ensures FitAt(ss, ts + [t], k, m)
  {
    assert (ts + [t])[..m] == ts[..m];
  }

  lemma {:induction false} DispatchedFit(ss: Snapshot, ts: seq<QueueTry>, k: Key) returns (m: nat)
    requires ValidSnapshot(ss) && Sound(ss, ts) && k in Keys(Run(ss, ts).dispatched)
    ensures FitAt(ss, ts, k, m)
    decreases |ts|
  {
    var init, t := ts[..|ts| - 1], ts[|ts| - 1];
    SoundInit(ss, ts);
    if k in Keys(Run(ss, init).dispatched) {
      m := DispatchedFit(ss, init, k);
      FitAtSnoc(ss, init, k, m, t);
    } else {
      NewRequestFits(ss, init, t, k);
      m := |init|;
    }
  }

  /** Every requested binding fitted what its queue had allocated when its turn came. */
  lemma RequestedFit(ss: Snapshot, k: Key)
    requires ValidSnapshot(ss) && k in Decisions(ss)
    ensures exists m: nat :: FitAt(ss, Tries(ss), k, m)
  {
    var ts := Tries(ss);
    assert Sound(ss, ts) by { TriesAreSound(ss); }
    var m := DispatchedFit(ss, ts, k);
  }
}
