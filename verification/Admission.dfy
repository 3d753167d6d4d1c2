/** The mutating webhook: a created binding of a registered workload is made to start
    suspended, by a JSON patch. */
module Admission {
  import opened Api

  datatype Json = JNull | JBool(b: bool) | JString(s: string) | JObject(members: map<string, Json>)

  /** "add" of section 4.1 of RFC 6902 for object members: the parent must exist, and a member
      that is there already is replaced. */
  function AddAt(doc: Json, path: seq<string>, value: Json): Option<Json>
    decreases |path|
  {
    if path == [] then Some(value)
    else if !doc.JObject? then None
    else if |path| == 1 then Some(JObject(doc.members[path[0] := value]))
    else if path[0] !in doc.members then None
    else
      var inner := AddAt(doc.members[path[0]], path[1..], value);
      if inner.None? then None else Some(JObject(doc.members[path[0] := inner.value]))
  }

  function Lookup(doc: Json, path: seq<string>): Option<Json>
    decreases |path|
  {
    if path == [] then Some(doc)
    else if doc.JObject? && path[0] in doc.members then Lookup(doc.members[path[0]], path[1..])
    else None
  }

  /** After an add, the target location holds the value, whatever was there. */
  lemma {:induction false} AddedValue(doc: Json, path: seq<string>, value: Json, rest: seq<string>)
    requires AddAt(doc, path, value).Some?
    ensures Lookup(AddAt(doc, path, value).value, path + rest) == Lookup(value, rest)
    decreases |path|
  {
    if path == [] {
      assert path + rest == rest;
    } else {
      assert (path + rest)[1..] == path[1..] + rest;
      if |path| == 1 {
        assert path[1..] + rest == rest;
      } else {
        AddedValue(doc.members[path[0]], path[1..], value, rest);
      }
    }
  }

  /** Two paths part ways at some step. */
  predicate Diverge(p: seq<string>, q: seq<string>)
    decreases |p|
  {
    p != [] && q != [] && (p[0] != q[0] || Diverge(p[1..], q[1..]))
  }

  /** An add changes nothing off its path. */
  lemma {:induction false} AddElsewhere(doc: Json, path: seq<string>, value: Json, other: seq<string>)
    requires AddAt(doc, path, value).Some? && Diverge(path, other)
    ensures Lookup(AddAt(doc, path, value).value, other) == Lookup(doc, other)
    decreases |path|
  {
    if path[0] == other[0] && |path| > 1 {
      AddElsewhere(doc.members[path[0]], path[1..], value, other[1..]);
    }
  }

  // ----- suspension in a binding's document -----

  const SUSPENSION: seq<string> := ["spec", "suspension"]

  function Flag(doc: Json, path: seq<string>): Option<bool> {
    match Lookup(doc, path)
    case Some(JBool(b)) => Some(b)
    case _ => None
  }

  function ReadSuspension(doc: Json): Option<Suspension> {
    match Lookup(doc, SUSPENSION)
    case Some(JObject(_)) =>
      Some(Suspension(Flag(doc, SUSPENSION + ["scheduling"]), Flag(doc, SUSPENSION + ["dispatching"])))
    case _ => None
  }

  function PatchValue(suspend: bool): Json {
    JObject(map["scheduling" := JBool(suspend)])
  }

  /** What the patch makes of a suspension: nothing of the old one survives. */
  function Patched(suspend: bool): Option<Suspension> {
    Some(Suspension(Some(suspend), None))
  }

  lemma PatchReads(doc: Json, suspend: bool)
    requires AddAt(doc, SUSPENSION, PatchValue(suspend)).Some?
    ensures ReadSuspension(AddAt(doc, SUSPENSION, PatchValue(suspend)).value) == Patched(suspend)
  {
    var v := PatchValue(suspend);
    AddedValue(doc, SUSPENSION, v, []);
    assert SUSPENSION + [] == SUSPENSION;
    AddedValue(doc, SUSPENSION, v, ["scheduling"]);
    AddedValue(doc, SUSPENSION, v, ["dispatching"]);
    assert ["scheduling"][1..] == [] && ["dispatching"][1..] == [];
    assert Lookup(v, ["scheduling"]) == Lookup(JBool(suspend), []);
    assert Lookup(v, ["dispatching"]) == None;
  }

  /** The patch applies exactly when the document has a spec object. */
  lemma PatchApplies(doc: Json, value: Json)
    ensures AddAt(doc, SUSPENSION, value).Some?
       <==> doc.JObject? && "spec" in doc.members && doc.members["spec"].JObject?
  {
    assert SUSPENSION[1..] == ["suspension"];
    assert doc.JObject? && "spec" in doc.members ==>
        AddAt(doc.members["spec"], ["suspension"], value).Some? == doc.members["spec"].JObject?;
  }

  /** Replacing the suspension keeps its dispatching part only if there was none. */
  lemma PatchKeepsDispatchingExactly(doc: Json, suspend: bool)
    requires AddAt(doc, SUSPENSION, PatchValue(suspend)).Some? && ReadSuspension(doc).Some?
    ensures ReadSuspension(AddAt(doc, SUSPENSION, PatchValue(suspend)).value).value.dispatching
         == ReadSuspension(doc).value.dispatching
       <==> ReadSuspension(doc).value.dispatching == None
  {
    PatchReads(doc, suspend);
  }

  // ----- workloads -----

  datatype GVK = GVK(group: string, version: string, kind: string)

  function Slashes(s: string): nat {
    if s == [] then 0 else (if s[0] == '/' then 1 else 0) + Slashes(s[1..])
  }

  function BeforeSlash(s: string): string {
    if s == [] || s[0] == '/' then [] else [s[0]] + BeforeSlash(s[1..])
  }

  function AfterSlash(s: string): string {
    if s == [] then [] else if s[0] == '/' then s[1..] else AfterSlash(s[1..])
  }

  /** apimachinery's ParseGroupVersion; None is its error. */
  function ParseGroupVersion(s: string): Option<(string, string)> {
    if s == "" || s == "/" then Some(("", ""))
    else if Slashes(s) == 0 then Some(("", s))
    else if Slashes(s) == 1 then Some((BeforeSlash(s), AfterSlash(s)))
    else None
  }

  type Registry = set<GVK>

  datatype Kind = Unparsable | NotRegistered | Registered

  function TryGetNewWorkloadFunc(registry: Registry, ref: ObjectReference): Kind {
    match ParseGroupVersion(ref.apiVersion)
    case None => Unparsable
    case Some(gv) => if GVK(gv.0, gv.1, ref.kind) in registry then Registered else NotRegistered
  }

  lemma {:induction false} NoSlash(s: string)
    ensures Slashes(s) == 0 <==> '/' !in s
  {
    if s != [] {
      NoSlash(s[1..]);
      assert s == [s[0]] + s[1..];
    }
  }

  lemma {:induction false} SlashesSplit(a: string, b: string)
    ensures Slashes(a + b) == Slashes(a) + Slashes(b)
  {
    if a == [] {
      assert a + b == b;
    } else {
      assert (a + b)[1..] == a[1..] + b;
      SlashesSplit(a[1..], b);
    }
  }

  lemma {:induction false} SplitAtSlash(a: string, b: string)
    requires '/' !in a
    ensures BeforeSlash(a + "/" + b) == a && AfterSlash(a + "/" + b) == b
  {
    var s := a + "/" + b;
    if a != [] {
      assert s[1..] == a[1..] + "/" + b;
      assert a == [a[0]] + a[1..];
      SplitAtSlash(a[1..], b);
    } else {
      assert s == ['/'] + b && s[1..] == b;
    }
  }

  predicate TwoSlashes(s: string, i: nat, j: nat) {
    i < j < |s| && s[i] == '/' && s[j] == '/'
  }

  lemma {:induction false} ManySlashes(s: string)
    ensures Slashes(s) > 1 <==> exists i: nat, j: nat :: TwoSlashes(s, i, j)
  {
    if s != [] {
      var rest := s[1..];
      ManySlashes(rest);
      NoSlash(rest);
      if i: nat, j: nat :| TwoSlashes(rest, i, j) {
        assert TwoSlashes(s, i + 1, j + 1);
      }
      if s[0] == '/' && '/' in rest {
        var j :| 0 <= j < |rest| && rest[j] == '/';
        assert TwoSlashes(s, 0, j + 1);
      }
      if i: nat, j: nat :| TwoSlashes(s, i, j) {
        assert rest[j - 1] == '/';
        assert i > 0 ==> TwoSlashes(rest, i - 1, j - 1);
      }
    }
  }

  /** A reference "group/version" is of a registered workload iff its group, version and kind are
      registered together. */
  lemma GroupedWorkload(registry: Registry, ref: ObjectReference, group: string, version: string)
    requires '/' !in group && '/' !in version && ref.apiVersion == group + "/" + version
    ensures TryGetNewWorkloadFunc(registry, ref)
         == if GVK(group, version, ref.kind) in registry then Registered else NotRegistered
  {
    NoSlash(group);
    NoSlash(version);
    SlashesSplit(group + "/", version);
    SlashesSplit(group, "/");
    assert "/"[1..] == [];
    SplitAtSlash(group, version);
    assert ref.apiVersion[|group|] == '/';
    assert ref.apiVersion == "/" ==> group == "" && version == "";
  }

  /** A reference without a group is looked up under the empty group. */
  lemma CoreWorkload(registry: Registry, ref: ObjectReference)
    requires '/' !in ref.apiVersion
    ensures TryGetNewWorkloadFunc(registry, ref)
         == if GVK("", ref.apiVersion, ref.kind) in registry then Registered else NotRegistered
  {
    NoSlash(ref.apiVersion);
  }

  /** Only a second slash keeps a reference from being parsed. */
  lemma UnparsableExactly(registry: Registry, ref: ObjectReference)
    ensures TryGetNewWorkloadFunc(registry, ref) == Unparsable
       <==> exists i: nat, j: nat :: TwoSlashes(ref.apiVersion, i, j)
  {
    ManySlashes(ref.apiVersion);
    assert "/"[1..] == [];
  }

  // ----- the webhook -----

  datatype Operation = Create | OtherOperation

  /** An undecodable object is None; ref is what decoding yields for spec.resource. */
  datatype Request = Request(operation: Operation, isBinding: bool, doc: Option<Json>, ref: ObjectReference)

  datatype Response = Denied | Allowed(patch: Option<Json>)

  function ResourceBindings(registry: Registry, request: Option<Request>): Response {
    if request.None? || request.value.operation != Create then Denied
    else
      var r := request.value;
      if !r.isBinding || r.doc.None? then Denied
      else if SchedulingSuspended(ReadSuspension(r.doc.value)) then Allowed(None)
      else
        match TryGetNewWorkloadFunc(registry, r.ref)
        case Unparsable => Denied
        case NotRegistered => Allowed(None)
        case Registered => Allowed(Some(PatchValue(true)))
  }

  /** What the webhook refuses: anything but the creation of a binding it can decode, and a binding that
      is not suspended and whose resource's API version does not parse. */
  lemma DeniedExactly(registry: Registry, request: Option<Request>)
    ensures ResourceBindings(registry, request) == Denied
       <==> || request.None? || !request.value.operation.Create? || !request.value.isBinding || request.value.doc.None?
            || (!SchedulingSuspended(ReadSuspension(request.value.doc.value))
                && TryGetNewWorkloadFunc(registry, request.value.ref) == Unparsable)
  {
  }

  /** The object the API server stores; None when the patch cannot be applied. */
  function Admit(doc: Json, response: Response): Option<Json>
    requires response.Allowed?
  {
    match response.patch
    case None => Some(doc)
    case Some(v) => AddAt(doc, SUSPENSION, v)
  }

  function AdmittedSuspension(requested: Option<Suspension>): Option<Suspension> {
    if SchedulingSuspended(requested) then requested else Patched(true)
  }

  /** A binding stored through the webhook is suspended exactly when its workload is registered
      or it asked to be; the suspension of a registered one is AdmittedSuspension. */
  lemma AdmittedIsSuspendedExactly(registry: Registry, r: Request)
    requires var response := ResourceBindings(registry, Some(r));
             response.Allowed? && Admit(r.doc.value, response).Some?
    ensures var after := ReadSuspension(Admit(r.doc.value, ResourceBindings(registry, Some(r))).value);
            && (SchedulingSuspended(after) <==>
                  || SchedulingSuspended(ReadSuspension(r.doc.value))
                  || TryGetNewWorkloadFunc(registry, r.ref) == Registered)
            && (TryGetNewWorkloadFunc(registry, r.ref) == Registered ==>
                 after == AdmittedSuspension(ReadSuspension(r.doc.value)))
  {
    var doc := r.doc.value;
    if !SchedulingSuspended(ReadSuspension(doc)) && TryGetNewWorkloadFunc(registry, r.ref) == Registered {
      PatchReads(doc, true);
    }
  }

  /** Whatever the webhook answers, what is stored is as requested off the path of the suspension, and
      is altogether as requested unless the workload is registered and the binding not suspended. */
  lemma AdmittedElsewhere(registry: Registry, r: Request, other: seq<string>)
    requires var response := ResourceBindings(registry, Some(r));
             response.Allowed? && Admit(r.doc.value, response).Some?
    ensures var stored := Admit(r.doc.value, ResourceBindings(registry, Some(r))).value;
            && (Diverge(SUSPENSION, other) ==> Lookup(stored, other) == Lookup(r.doc.value, other))
            && (SchedulingSuspended(ReadSuspension(r.doc.value)) || TryGetNewWorkloadFunc(registry, r.ref) != Registered
                ==> stored == r.doc.value)
  {
    var response := ResourceBindings(registry, Some(r));
    if response.patch.Some? && Diverge(SUSPENSION, other) {
      AddElsewhere(r.doc.value, SUSPENSION, response.patch.value, other);
    }
  }
}
