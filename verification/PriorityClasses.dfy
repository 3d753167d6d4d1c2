/** The priority-class handlers of the cache and the default class they keep beside the map. */
module PriorityClasses {
  import opened Api

  datatype PriorityClass = PriorityClass(name: string, value: int, globalDefault: bool, resourceVersion: string)

  datatype ClassState = ClassState(classes: map<string, PriorityClass>, fallback: Option<PriorityClass>)

  datatype ClassEvent =
    | AddClass(pc: PriorityClass)
    | UpdateClass(old0: PriorityClass, new0: PriorityClass)
    | DeleteClass(pc: PriorityClass)

  function SetPriorityClass(st: ClassState, pc: PriorityClass): ClassState {
    ClassState(st.classes[pc.name := pc], if pc.globalDefault then Some(pc) else st.fallback)
  }

  function Forget(st: ClassState, pc: PriorityClass): ClassState {
    if pc.globalDefault then st.(fallback := None) else st
  }

  function Apply(st: ClassState, e: ClassEvent): ClassState {
    match e
    case AddClass(pc) => SetPriorityClass(st, pc)
    case UpdateClass(o, n) =>
      if o.resourceVersion == n.resourceVersion then st else SetPriorityClass(Forget(st, o), n)
    case DeleteClass(pc) =>
      ClassState(st.classes - {pc.name}, Forget(st, pc).fallback)
  }

  predicate Unchanged(e: ClassEvent) {
    e.UpdateClass? && e.old0.resourceVersion == e.new0.resourceVersion
  }

  /** Which classes are stored after an event: an added or newly updated class is, marked or not, a
      deleted one is not, and no other class is touched. */
  lemma ClassesAfter(st: ClassState, e: ClassEvent, name: string)
    ensures var after := Apply(st, e);
            if Unchanged(e) then after == st
            else if e.AddClass? && e.pc.name == name then name in after.classes && after.classes[name] == e.pc
            else if e.UpdateClass? && e.new0.name == name then name in after.classes && after.classes[name] == e.new0
            else if e.DeleteClass? && e.pc.name == name then name !in after.classes
            else (name in after.classes <==> name in st.classes)
                 && (name in st.classes ==> after.classes[name] == st.classes[name])
  {
  }

  /** Which class is the default after an event: a marked class that was added or newly updated; else
      none if the old or deleted object was marked; else the one before. */
  lemma DefaultAfter(st: ClassState, e: ClassEvent)
    ensures var after := Apply(st, e).fallback;
            if Unchanged(e) then after == st.fallback
            else if e.AddClass? then after == if e.pc.globalDefault then Some(e.pc) else st.fallback
            else if e.DeleteClass? then after == if e.pc.globalDefault then None else st.fallback
            else after == if e.new0.globalDefault then Some(e.new0)
                          else if e.old0.globalDefault then None
                          else st.fallback
  {
  }

  /** Events arrive in order: the old or deleted object is the stored one, and an unchanged
      resource version means an unchanged object. */
  predicate InOrder(st: ClassState, e: ClassEvent) {
    match e
    case AddClass(pc) => pc.name !in st.classes
    case UpdateClass(o, n) =>
      && o.name == n.name && o.name in st.classes && st.classes[o.name] == o
      && (o.resourceVersion == n.resourceVersion ==> o == n)
    case DeleteClass(pc) => pc.name in st.classes && st.classes[pc.name] == pc
  }

  /** The default class, when there is one, is a stored class marked global default. */
  ghost predicate FallbackIsStored(st: ClassState) {
    && (forall n | n in st.classes :: st.classes[n].name == n)
    && (st.fallback.Some? ==>
          && st.fallback.value.globalDefault
          && st.fallback.value.name in st.classes
          && st.classes[st.fallback.value.name] == st.fallback.value)
  }

  ghost predicate HasGlobalDefault(st: ClassState) {
    exists n :: n in st.classes && st.classes[n].globalDefault
  }

  ghost predicate Agrees(st: ClassState) {
    st.fallback.Some? <==> HasGlobalDefault(st)
  }

  /** The event takes the mark from one class, or takes that class away, while another stored
      class carries the mark too. */
  ghost predicate Hazard(st: ClassState, e: ClassEvent) {
    match e
    case AddClass(_) => false
    case UpdateClass(o, n) => o.globalDefault && !n.globalDefault && OtherDefault(st, o.name)
    case DeleteClass(pc) => pc.globalDefault && OtherDefault(st, pc.name)
  }

  ghost predicate OtherDefault(st: ClassState, name: string) {
    exists n :: n in st.classes && n != name && st.classes[n].globalDefault
  }

  lemma FallbackStaysStored(st: ClassState, e: ClassEvent)
    requires FallbackIsStored(st) && InOrder(st, e)
    ensures FallbackIsStored(Apply(st, e))
  {
  }

  /** From agreement, one event in order keeps the default present exactly when some stored
      class is a global default, if and only if the event is not a hazard. */
  lemma AgreementKeptExactly(st: ClassState, e: ClassEvent)
    requires FallbackIsStored(st) && Agrees(st) && InOrder(st, e)
    ensures Agrees(Apply(st, e)) <==> !Hazard(st, e)
  {
    FallbackStaysStored(st, e);
    var after := Apply(st, e);
    match e {
      case AddClass(pc) =>
        assert after.classes[pc.name] == pc;
        assert forall n | n in st.classes :: n in after.classes && after.classes[n] == st.classes[n];
      case UpdateClass(o, n) =>
        assert forall m | m != o.name :: m in after.classes <==> m in st.classes;
        assert forall m | m != o.name && m in st.classes :: after.classes[m] == st.classes[m];
        assert n.name in after.classes;
      case DeleteClass(pc) =>
        assert forall m | m != pc.name :: m in after.classes <==> m in st.classes;
        assert forall m | m != pc.name && m in st.classes :: after.classes[m] == st.classes[m];
    }
  }

  function RunEvents(st: ClassState, es: seq<ClassEvent>): ClassState
    decreases |es|
  {
    if es == [] then st else RunEvents(Apply(st, es[0]), es[1..])
  }

  ghost predicate AtMostOneDefault(st: ClassState) {
    forall m, n |
      m in st.classes && n in st.classes && st.classes[m].globalDefault && st.classes[n].globalDefault :: m == n
  }

  ghost predicate OrderlyRun(st: ClassState, es: seq<ClassEvent>)
    decreases |es|
  {
    es != [] ==> InOrder(st, es[0]) && OrderlyRun(Apply(st, es[0]), es[1..])
  }

  ghost predicate OneDefaultThroughout(st: ClassState, es: seq<ClassEvent>)
    decreases |es|
  {
    && AtMostOneDefault(st)
    && (es != [] ==> OneDefaultThroughout(Apply(st, es[0]), es[1..]))
  }

  const NO_CLASSES: ClassState := ClassState(map[], None)

  lemma {:induction false} FallbackAlwaysStoredFrom(st: ClassState, es: seq<ClassEvent>)
    requires FallbackIsStored(st) && OrderlyRun(st, es)
    ensures FallbackIsStored(RunEvents(st, es))
    decreases |es|
  {
    if es != [] {
      FallbackStaysStored(st, es[0]);
      FallbackAlwaysStoredFrom(Apply(st, es[0]), es[1..]);
    }
  }

  /** After any events in order the default class is a stored class marked global default. */
  lemma FallbackAlwaysStored(es: seq<ClassEvent>)
    requires OrderlyRun(NO_CLASSES, es)
    ensures FallbackIsStored(RunEvents(NO_CLASSES, es))
  {
    FallbackAlwaysStoredFrom(NO_CLASSES, es);
  }

  lemma {:induction false} AgreesFrom(st: ClassState, es: seq<ClassEvent>)
    requires FallbackIsStored(st) && Agrees(st) && OrderlyRun(st, es) && OneDefaultThroughout(st, es)
    ensures Agrees(RunEvents(st, es))
    decreases |es|
  {
    if es != [] {
      assert !Hazard(st, es[0]);
      AgreementKeptExactly(st, es[0]);
      FallbackStaysStored(st, es[0]);
      AgreesFrom(Apply(st, es[0]), es[1..]);
    }
  }

  /** With never two global defaults stored at once, the default is there exactly when some
      stored class is a global default. */
  lemma OneDefaultMeansAgreement(es: seq<ClassEvent>)
    requires OrderlyRun(NO_CLASSES, es) && OneDefaultThroughout(NO_CLASSES, es)
    ensures Agrees(RunEvents(NO_CLASSES, es))
  {
    AgreesFrom(NO_CLASSES, es);
  }

  /** Moving the mark by first adding the new default loses it: the cache ends without a
      default although a stored class is marked. */
  lemma MovingTheMarkCanLoseIt()
    ensures exists es :: OrderlyRun(NO_CLASSES, es) && !Agrees(RunEvents(NO_CLASSES, es))
  {
    var a, b := PriorityClass("a", 1, true, "1"), PriorityClass("b", 2, true, "2");
    var a' := PriorityClass("a", 1, false, "3");
    var s1, s2 := Apply(NO_CLASSES, AddClass(a)), Apply(Apply(NO_CLASSES, AddClass(a)), AddClass(b));
    var s3 := Apply(s2, UpdateClass(a, a'));
    var es := [AddClass(a), AddClass(b), UpdateClass(a, a')];
    assert es[1..] == [AddClass(b), UpdateClass(a, a')] && es[1..][1..] == [UpdateClass(a, a')];
    assert es[1..][1..][1..] == [];
    assert InOrder(NO_CLASSES, es[0]) && InOrder(s1, AddClass(b)) && InOrder(s2, UpdateClass(a, a'));
    assert OrderlyRun(s3, []) && OrderlyRun(s2, es[1..][1..]) && OrderlyRun(s1, es[1..]);
    assert RunEvents(s3, []) == s3 && RunEvents(s2, es[1..][1..]) == s3 && RunEvents(s1, es[1..]) == s3;
    assert s3.fallback == None && s3.classes["b"] == b;
    assert OrderlyRun(NO_CLASSES, es) && !Agrees(RunEvents(NO_CLASSES, es));
  }
}
