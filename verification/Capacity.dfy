/** The capacity plugin: one attribute per queue of the snapshot, kept up to date while bindings
    are allocated. */
module Capacity {
  import opened Resources
  import opened Api
  import opened Sessions

  /** The largest ratio of what is used to what is allowed, over all dimensions of the limit. */
  ghost predicate IsShare(share: real, used: Resource, limit: Resource) {
    && (forall d | d in ResourceNames(limit) :: Ratio(Get(used, d), Get(limit, d)) <= share)
    && (exists d :: d in ResourceNames(limit) && Ratio(Get(used, d), Get(limit, d)) == share)
  }

  /** Recomputing the share from scratch has one answer. */
  lemma ShareUnique(s: real, t: real, used: Resource, limit: Resource)
    requires IsShare(s, used, limit) && IsShare(t, used, limit)
    ensures s == t
  {
  }

  /** What a share says: it is not negative, no dimension uses more than that part of its limit, a
      dimension without a limit counts as full once anything of it is used, and some dimension is used
      to exactly that part. CPU and memory are always among the dimensions. */
  lemma ShareMeaning(share: real, used: Resource, limit: Resource)
    requires IsShare(share, used, limit)
    ensures share >= 0.0
    ensures forall d | d == "cpu" || d == "memory" || d in limit :: UsedAtMost(share, Get(used, d), Get(limit, d))
    ensures exists d ::
              (d == "cpu" || d == "memory" || d in limit) && UsedExactly(share, Get(used, d), Get(limit, d))
  {
    var d :| d in ResourceNames(limit) && Ratio(Get(used, d), Get(limit, d)) == share;
    RatioNotNegative(Get(used, d), Get(limit, d));
    RatioIsPart(share, Get(used, d), Get(limit, d));
    assert UsedExactly(share, Get(used, d), Get(limit, d));
    forall e | e == "cpu" || e == "memory" || e in limit ensures UsedAtMost(share, Get(used, e), Get(limit, e)) {
      assert e in ResourceNames(limit);
      RatioIsPart(share, Get(used, e), Get(limit, e));
    }
  }

  predicate UsedAtMost(share: real, used: nat, limit: nat) {
    if limit > 0 then used as real <= share * limit as real else used > 0 ==> share >= 1.0
  }

  predicate UsedExactly(share: real, used: nat, limit: nat) {
    if limit > 0 then used as real == share * limit as real else share == if used > 0 then 1.0 else 0.0
  }

  lemma RatioIsPart(share: real, used: nat, limit: nat)
    ensures Ratio(used, limit) <= share ==> UsedAtMost(share, used, limit)
    ensures Ratio(used, limit) == share ==> UsedExactly(share, used, limit)
  {
    if limit > 0 {
      var r := used as real / limit as real;
      assert r * limit as real == used as real;
    }
  }

  lemma RatioNotNegative(used: nat, limit: nat)
    ensures Ratio(used, limit) >= 0.0
  {
  }

  /** Allocating and deallocating as functions of what the queues have allocated: both go by the
      queue the binding names itself, and fail when it has no attribute. */
  function Allocates(amounts: map<UID, Resource>, rbi: ResourceBindingInfo): (map<UID, Resource>, bool) {
    if rbi.queue in amounts then (amounts[rbi.queue := Add(amounts[rbi.queue], Request(rbi))], true)
    else (amounts, false)
  }

  function Deallocates(amounts: map<UID, Resource>, rbi: ResourceBindingInfo): (map<UID, Resource>, bool) {
    if rbi.queue in amounts then (amounts[rbi.queue := Sub(amounts[rbi.queue], Request(rbi))], true)
    else (amounts, false)
  }

  class QueueAttr {
    const queueID: UID
    const name: string
    const realCapability: Resource
    var share: real
    var alloc: Resource

    constructor (queueID: UID, name: string, realCapability: Resource)
      ensures this.queueID == queueID && this.name == name && this.realCapability == realCapability
      ensures share == 0.0 && alloc == EMPTY
    {
      this.queueID, this.name, this.realCapability := queueID, name, realCapability;
      share, alloc := 0.0, EMPTY;
    }

    ghost predicate ShareExact()
      reads this
    {
      IsShare(share, alloc, realCapability)
    }

    method UpdateShare()
      modifies `share
      ensures ShareExact()
    {
      var res := 0.0;
      var todo := ResourceNames(realCapability);
      ghost var done: set<Dim> := {};
      while todo != {}
        invariant todo + done == ResourceNames(realCapability)
        invariant forall d | d in done :: Ratio(Get(alloc, d), Get(realCapability, d)) <= res
        invariant if done == {} then res == 0.0
                  else exists d :: d in done && Ratio(Get(alloc, d), Get(realCapability, d)) == res
        decreases todo
      {
        var d :| d in todo;
        var ratio := Ratio(Get(alloc, d), Get(realCapability, d));
        RatioNotNegative(Get(alloc, d), Get(realCapability, d));
        ghost var before := done;
        todo, done := todo - {d}, done + {d};
        if ratio >= res {
          res := ratio;
          assert d in done && Ratio(Get(alloc, d), Get(realCapability, d)) == res;
        } else {
          ghost var e :| e in before && Ratio(Get(alloc, e), Get(realCapability, e)) == res;
          assert e in done;
        }
      }
      assert CPU in done;
      share := res;
    }
  }

  /** The load of a queue from the bindings seen so far. */
  ghost function LoadSeen(ss: Snapshot, q: string, seen: set<UID>): Resource {
    Sum(Occupying(ss, ss.infos, q) * seen, Requests(ss.infos))
  }

  ghost function AttrQueuesOf(ss: Snapshot, seen: set<UID>): set<string> {
    set u | u in ss.infos && u in seen && Resolve(ss, ss.infos[u]) in ss.queues :: Resolve(ss, ss.infos[u])
  }

  lemma AttrQueuesNext(ss: Snapshot, seen: set<UID>, u: UID)
    requires u in ss.infos
    ensures AttrQueuesOf(ss, seen + {u})
         == AttrQueuesOf(ss, seen) + if Resolve(ss, ss.infos[u]) in ss.queues then {Resolve(ss, ss.infos[u])} else {}
  {
  }

  lemma NotSeenNoLoad(ss: Snapshot, q: string, seen: set<UID>)
    requires q in ss.queues && q !in AttrQueuesOf(ss, seen)
    ensures LoadSeen(ss, q, seen) == EMPTY
  {
    if u :| u in Occupying(ss, ss.infos, q) * seen {
      SeenHasAttr(ss, q, seen, u);
    }
  }

  lemma SeenHasAttr(ss: Snapshot, q: string, seen: set<UID>, u: UID)
    requires q in ss.queues && u in Occupying(ss, ss.infos, q) * seen
    ensures q in AttrQueuesOf(ss, seen)
  {
  }

  lemma LoadSeenNext(ss: Snapshot, q: string, seen: set<UID>, u: UID)
    requires u in ss.infos && u !in seen
    ensures LoadSeen(ss, q, seen + {u})
         == if ss.infos[u].status != Suspended && Resolve(ss, ss.infos[u]) == q
            then Add(LoadSeen(ss, q, seen), Request(ss.infos[u]))
            else LoadSeen(ss, q, seen)
  {
    var all := Occupying(ss, ss.infos, q);
    if ss.infos[u].status != Suspended && Resolve(ss, ss.infos[u]) == q {
      assert all * (seen + {u}) == all * seen + {u};
      SumPut(all * seen, Requests(ss.infos), u);
    } else {
      assert all * (seen + {u}) == all * seen;
    }
  }

  /** What a queue's attribute is once the given bindings were counted. */
  ghost predicate AttrBuilt(ss: Snapshot, seen: set<UID>, q: string, amount: Resource, limit: Resource) {
    q in ss.queues && limit == Limit(ss, ss.queues[q]) && amount == LoadSeen(ss, q, seen)
  }

  lemma AttrAdded(ss: Snapshot, seen: set<UID>, q: string)
    requires q in ss.queues && q !in AttrQueuesOf(ss, seen)
    ensures AttrBuilt(ss, seen, q, EMPTY, Limit(ss, ss.queues[q]))
  {
    NotSeenNoLoad(ss, q, seen);
  }

  lemma AttrKept(ss: Snapshot, seen: set<UID>, q: string, amount: Resource, limit: Resource, u: UID)
    requires AttrBuilt(ss, seen, q, amount, limit) && u in ss.infos && u !in seen
    requires ss.infos[u].status == Suspended || Resolve(ss, ss.infos[u]) != q
    ensures AttrBuilt(ss, seen + {u}, q, amount, limit)
  {
    LoadSeenNext(ss, q, seen, u);
  }

  lemma AttrCharged(ss: Snapshot, seen: set<UID>, q: string, amount: Resource, limit: Resource, u: UID)
    requires AttrBuilt(ss, seen, q, amount, limit) && u in ss.infos && u !in seen
    requires ss.infos[u].status != Suspended && Resolve(ss, ss.infos[u]) == q
    ensures AttrBuilt(ss, seen + {u}, q, Add(amount, Request(ss.infos[u])), limit)
  {
    LoadSeenNext(ss, q, seen, u);
  }

  lemma AttrComplete(ss: Snapshot, q: string, amount: Resource, limit: Resource)
    requires AttrBuilt(ss, ss.infos.Keys, q, amount, limit)
    ensures amount == Load(ss, ss.infos, q)
  {
    assert Occupying(ss, ss.infos, q) * ss.infos.Keys == Occupying(ss, ss.infos, q);
  }

  lemma AllAttrs(ss: Snapshot)
    ensures AttrQueuesOf(ss, ss.infos.Keys) == AttrQueues(ss) == Open(ss).alloc.Keys
  {
  }

  lemma OpenAlloc(ss: Snapshot, amounts: map<UID, Resource>)
    requires amounts.Keys == AttrQueues(ss) && forall q | q in amounts :: amounts[q] == Load(ss, ss.infos, q)
    ensures amounts == Open(ss).alloc
  {
  }

  class CapacityPlugin {
    var queueOpts: map<UID, QueueAttr>
    ghost var attrs: set<QueueAttr>

    ghost predicate Own(u: UID)
      reads this
    {
      u in queueOpts ==> queueOpts[u] in attrs && queueOpts[u].queueID == u
    }

    /** Every queue has an attribute of its own. */
    ghost predicate Valid()
      reads this
    {
      forall u :: Own(u)
    }

    /** What every queue has allocated. */
    ghost function Allocated(): map<UID, Resource>
      requires Valid()
      reads this, attrs
    {
      map u | u in queueOpts :: assert Own(u); queueOpts[u].alloc
    }

    ghost predicate LimitIs(ss: Snapshot, u: UID)
      reads this
    {
      u in queueOpts ==> u in ss.queues && queueOpts[u].realCapability == Limit(ss, ss.queues[u])
    }

    ghost predicate LimitsAre(ss: Snapshot)
      reads this
    {
      forall u :: LimitIs(ss, u)
    }

    ghost predicate ShareExactAt(u: UID)
      requires Valid()
      reads this, attrs
    {
      u in queueOpts ==> assert Own(u); queueOpts[u].ShareExact()
    }

    /** Every share is what recomputation gives. */
    ghost predicate SharesExact()
      requires Valid()
      reads this, attrs
    {
      forall u :: ShareExactAt(u)
    }

    ghost predicate AttrAt(ss: Snapshot, seen: set<UID>, u: UID)
      requires Valid()
      reads this, attrs
    {
      u in queueOpts ==> assert Own(u); AttrBuilt(ss, seen, u, queueOpts[u].alloc, queueOpts[u].realCapability)
    }

    /** Every attribute is what counting the given bindings makes it. */
    ghost predicate AttrsBuilt(ss: Snapshot, seen: set<UID>)
      requires Valid()
      reads this, attrs
    {
      forall u :: AttrAt(ss, seen, u)
    }

    constructor ()
      ensures Valid() && queueOpts == map[] && attrs == {}
    {
      queueOpts, attrs := map[], {};
    }

    method NewAttr(u: UID, name: string, limit: Resource) returns (attr: QueueAttr)
      requires Valid() && u !in queueOpts
      modifies this
      ensures Valid() && fresh(attr) && attr.alloc == EMPTY && attr.realCapability == limit
      ensures queueOpts == old(queueOpts)[u := attr] && attrs == old(attrs) + {attr}
    {
      attr := new QueueAttr(u, name, limit);
      queueOpts, attrs := queueOpts[u := attr], attrs + {attr};
      forall v ensures Own(v) {
        assert old(Own(v));
      }
    }

    method AddAttr(u: UID, name: string, limit: Resource, ghost ss: Snapshot, ghost seen: set<UID>)
      requires Valid() && u !in queueOpts && AttrsBuilt(ss, seen) && AttrBuilt(ss, seen, u, EMPTY, limit)
      modifies this
      ensures Valid() && queueOpts.Keys == old(queueOpts.Keys) + {u} && AttrsBuilt(ss, seen)
      ensures fresh(attrs - old(attrs))
    {
      var attr := NewAttr(u, name, limit);
      forall v ensures AttrAt(ss, seen, v) {
        assert old(AttrAt(ss, seen, v)) && old(Own(v));
      }
    }

    lemma NotCounted(ss: Snapshot, u: UID, seen: set<UID>)
      requires Valid() && u in ss.infos && u !in seen && AttrsBuilt(ss, seen)
      requires ss.infos[u].status == Suspended || Resolve(ss, ss.infos[u]) !in queueOpts
      ensures AttrsBuilt(ss, seen + {u})
    {
      forall q ensures AttrAt(ss, seen + {u}, q) {
        assert AttrAt(ss, seen, q);
        if q in queueOpts {
          AttrKept(ss, seen, q, queueOpts[q].alloc, queueOpts[q].realCapability, u);
        }
      }
    }

    method CountRequest(ss: Snapshot, u: UID, ghost seen: set<UID>)
      requires Valid() && u in ss.infos && u !in seen && AttrsBuilt(ss, seen)
      requires ss.infos[u].status != Suspended && Resolve(ss, ss.infos[u]) in queueOpts
      modifies attrs
      ensures AttrsBuilt(ss, seen + {u})
    {
      var name, attr := Resolve(ss, ss.infos[u]), queueOpts[Resolve(ss, ss.infos[u])];
      assert Own(name) && AttrAt(ss, seen, name);
      attr.alloc := Add(attr.alloc, Request(ss.infos[u]));
      AttrCharged(ss, seen, name, old(attr.alloc), attr.realCapability, u);
      forall q ensures AttrAt(ss, seen + {u}, q) {
        assert Own(q) && old(AttrAt(ss, seen, q));
        if q in queueOpts && q != name {
          AttrKept(ss, seen, q, queueOpts[q].alloc, queueOpts[q].realCapability, u);
        }
      }
    }

    /** One binding of the first loop of buildQueueAttrs. */
    method CountBinding(ss: Snapshot, u: UID, ghost seen: set<UID>)
      requires ValidSnapshot(ss) && u in ss.infos && u !in seen
      requires Valid() && queueOpts.Keys == AttrQueuesOf(ss, seen) && AttrsBuilt(ss, seen)
      modifies this, attrs
      ensures Valid() && queueOpts.Keys == AttrQueuesOf(ss, seen + {u}) && AttrsBuilt(ss, seen + {u})
      ensures fresh(attrs - old(attrs))
    {
      var rbi := ss.infos[u];
      var name := Resolve(ss, rbi);
      AttrQueuesNext(ss, seen, u);
      if name in ss.queues {
        var queue := ss.queues[name];
        if queue.uid !in queueOpts {
          AttrAdded(ss, seen, name);
          AddAttr(queue.uid, queue.name, RealCapability(ss.total, queue.capability), ss, seen);
        }
        if rbi.status != Suspended {
          CountRequest(ss, u, seen);
          return;
        }
      }
      NotCounted(ss, u, seen);
    }

    method CountBindings(ss: Snapshot)
      requires ValidSnapshot(ss) && Valid() && queueOpts == map[] && attrs == {}
      modifies this
      ensures Valid() && fresh(attrs)
      ensures queueOpts.Keys == AttrQueuesOf(ss, ss.infos.Keys) && AttrsBuilt(ss, ss.infos.Keys)
    {
      var todo := ss.infos.Keys;
      ghost var seen: set<UID> := {};
      while todo != {}
        invariant todo + seen == ss.infos.Keys && todo !! seen
        invariant Valid() && fresh(attrs) && queueOpts.Keys == AttrQueuesOf(ss, seen) && AttrsBuilt(ss, seen)
        decreases todo
      {
        var u :| u in todo;
        CountBinding(ss, u, seen);
        todo, seen := todo - {u}, seen + {u};
      }
      assert seen == ss.infos.Keys;
    }

    lemma BuiltIsOpen(ss: Snapshot)
      requires Valid() && queueOpts.Keys == AttrQueuesOf(ss, ss.infos.Keys) && AttrsBuilt(ss, ss.infos.Keys)
      ensures Allocated() == Open(ss).alloc && LimitsAre(ss)
    {
      AllAttrs(ss);
      forall q | q in queueOpts ensures queueOpts[q].alloc == Load(ss, ss.infos, q) {
        assert AttrAt(ss, ss.infos.Keys, q);
        AttrComplete(ss, q, queueOpts[q].alloc, queueOpts[q].realCapability);
      }
      forall q ensures LimitIs(ss, q) {
        assert AttrAt(ss, ss.infos.Keys, q);
      }
      OpenAlloc(ss, Allocated());
    }

    method UpdateShares()
      requires Valid()
      modifies attrs`share
      ensures SharesExact() && Allocated() == old(Allocated())
    {
      var todo := queueOpts.Keys;
      while todo != {}
        invariant todo <= queueOpts.Keys
        invariant forall u :: u in todo || ShareExactAt(u)
        decreases todo
      {
        var u :| u in todo;
        assert Own(u);
        queueOpts[u].UpdateShare();
        forall v ensures v in todo - {u} || ShareExactAt(v) {
          assert Own(v);
        }
        todo := todo - {u};
      }
      assert forall u :: Own(u);
    }

    /** The queue's limit in one dimension is the cluster total where the capability declares nothing,
        or no CPU or memory, and else the smaller of the two. */
    ghost predicate CapabilityAt(ss: Snapshot, u: UID, d: Dim)
      reads this
    {
      u in queueOpts ==>
        && u in ss.queues
        && var capability, total := ss.queues[u].capability, Get(ss.total, d);
           Get(queueOpts[u].realCapability, d)
             == if d !in capability || ((d == "cpu" || d == "memory") && capability[d] == 0) then total
                else if capability[d] < total then capability[d]
                else total
    }

    lemma CapabilitiesAre(ss: Snapshot)
      requires LimitsAre(ss)
      ensures forall u, d :: CapabilityAt(ss, u, d)
    {
      forall u, d ensures CapabilityAt(ss, u, d) {
        assert LimitIs(ss, u);
        if u in queueOpts {
          RealCapabilityMeaning(ss.total, ss.queues[u].capability, d);
        }
      }
    }

    lemma AttrsAre(ss: Snapshot, q: string)
      requires ValidSnapshot(ss) && Valid() && Allocated() == Open(ss).alloc
      ensures q in queueOpts <==> q in ss.queues && exists u :: u in ss.infos && Joins(ss, ss.infos[u], q)
    {
      assert queueOpts.Keys == Allocated().Keys;
      if u :| q in ss.queues && u in ss.infos && Joins(ss, ss.infos[u], q) {
        assert Resolve(ss, ss.infos[u]) == q;
      }
      if q in queueOpts {
        var u :| u in ss.infos && Resolve(ss, ss.infos[u]) in ss.queues && Resolve(ss, ss.infos[u]) == q;
        assert Joins(ss, ss.infos[u], q);
      }
    }

    /** Whatever order the bindings come in, exactly the existing queues that some binding joins get an
        attribute, with their load, their limit and an exact share. */
    method BuildQueueAttrs(ss: Snapshot)
      requires ValidSnapshot(ss) && Valid() && queueOpts == map[] && attrs == {}
      modifies this
      ensures Valid() && fresh(attrs)
      ensures Allocated() == Open(ss).alloc && LimitsAre(ss) && SharesExact()
      ensures forall q ::
                q in queueOpts <==> q in ss.queues && exists u :: u in ss.infos && Joins(ss, ss.infos[u], q)
      ensures forall u, d :: CapabilityAt(ss, u, d)
    {
      CountBindings(ss);
      BuiltIsOpen(ss);
      UpdateShares();
      CapabilitiesAre(ss);
      forall q ensures q in queueOpts <==> q in ss.queues && exists u :: u in ss.infos && Joins(ss, ss.infos[u], q) {
        AttrsAre(ss, q);
      }
    }

    /** Would the queue stay within its limit, in the dimensions the candidate asks for? */
    predicate AllocatableFunc(queue: QueueInfo, candidate: ResourceBindingInfo): (r: bool)
      requires queue.uid in queueOpts
      reads this, queueOpts[queue.uid]
      ensures r <==> var attr, asked := queueOpts[queue.uid], Request(candidate);
                     forall d :: Get(asked, d) > 0 ==>
                       Get(attr.alloc, d) + Get(asked, d) <= Get(attr.realCapability, d)
    {
      var attr := queueOpts[queue.uid];
      FitsMeaning(attr.alloc, attr.realCapability, Request(candidate));
      LessEqualWithDimension(Add(attr.alloc, Request(candidate)), attr.realCapability, Request(candidate))
    }

    /** Record what a queue has allocated, and its share. */
    method SetAlloc(u: UID, amount: Resource)
      requires Valid() && u in queueOpts && SharesExact()
      modifies attrs
      ensures Allocated() == old(Allocated())[u := amount] && SharesExact()
    {
      var attr := queueOpts[u];
      assert Own(u);
      attr.alloc := amount;
      attr.UpdateShare();
      forall v ensures ShareExactAt(v) && (v in queueOpts && v != u ==> queueOpts[v].alloc == old(queueOpts[v].alloc)) {
        assert Own(v) && old(ShareExactAt(v));
      }
    }

    /** Fails exactly for a binding whose own queue has no attribute. */
    method AllocateFunc(rbi: ResourceBindingInfo) returns (ok: bool)
      requires Valid() && SharesExact()
      modifies attrs
      ensures SharesExact() && (Allocated(), ok) == Allocates(old(Allocated()), rbi)
    {
      ok := rbi.queue in queueOpts;
      if ok {
        assert Own(rbi.queue);
        SetAlloc(rbi.queue, Add(queueOpts[rbi.queue].alloc, Request(rbi)));
      }
    }

    method DeallocateFunc(rbi: ResourceBindingInfo) returns (ok: bool)
      requires Valid() && SharesExact()
      modifies attrs
      ensures SharesExact() && (Allocated(), ok) == Deallocates(old(Allocated()), rbi)
    {
      ok := rbi.queue in queueOpts;
      if ok {
        assert Own(rbi.queue);
        SetAlloc(rbi.queue, Sub(queueOpts[rbi.queue].alloc, Request(rbi)));
      }
    }
  }
}
