/** The contract of client-go's work queue: keys waiting to be processed are dirty, a key
    handed out is processing until Done, and a key is queued when dirty and not processing. */
module WorkQueues {
  import opened Api

  datatype WorkQueue = WorkQueue(dirty: set<Key>, processing: set<Key>, queue: seq<Key>)

  const NO_WORK: WorkQueue := WorkQueue({}, {}, [])

  function Add(q: WorkQueue, k: Key): WorkQueue {
    if k in q.dirty then q
    else WorkQueue(q.dirty + {k}, q.processing, if k in q.processing then q.queue else q.queue + [k])
  }

  function Get(q: WorkQueue): WorkQueue
    requires q.queue != []
  {
    var k := q.queue[0];
    WorkQueue(q.dirty - {k}, q.processing + {k}, q.queue[1..])
  }

  function Done(q: WorkQueue, k: Key): WorkQueue {
    WorkQueue(q.dirty, q.processing - {k}, if k in q.dirty then q.queue + [k] else q.queue)
  }

  ghost predicate Valid(q: WorkQueue) {
    && (forall k :: k in q.queue <==> k in q.dirty && k !in q.processing)
    && (forall i, j | 0 <= i < j < |q.queue| :: q.queue[i] != q.queue[j])
  }

  lemma AddValid(q: WorkQueue, k: Key)
    requires Valid(q)
    ensures Valid(Add(q, k))
  {
    var r := Add(q, k);
    if r.queue != q.queue {
      assert forall x :: x in r.queue <==> x in q.queue || x == k;
    }
  }

  lemma GetValid(q: WorkQueue)
    requires Valid(q) && q.queue != []
    ensures Valid(Get(q))
  {
    assert q.queue == [q.queue[0]] + Get(q).queue;
    assert forall i | 0 <= i < |Get(q).queue| :: Get(q).queue[i] == q.queue[i + 1];
    assert q.queue[0] !in Get(q).queue;
  }

  lemma DoneValid(q: WorkQueue, k: Key)
    requires Valid(q) && k in q.processing
    ensures Valid(Done(q, k))
  {
    assert k !in q.queue;
    assert forall x :: x in Done(q, k).queue <==> x in q.queue || (x == k && k in q.dirty);
  }

  /** First in, first out: a new key that is not processing goes to the end, the oldest one is handed
      out, and nothing overtakes a waiting key. */
  lemma NoOvertaking(q: WorkQueue, i: nat, k: Key)
    requires Valid(q) && i < |q.queue|
    ensures i < |Add(q, k).queue| && Add(q, k).queue[i] == q.queue[i]
    ensures i < |Done(q, k).queue| && Done(q, k).queue[i] == q.queue[i]
    ensures if i == 0 then Get(q).processing == q.processing + {q.queue[0]} else Get(q).queue[i - 1] == q.queue[i]
    ensures k !in q.dirty && k !in q.processing ==> Add(q, k).queue == q.queue + [k]
  {
  }
}
