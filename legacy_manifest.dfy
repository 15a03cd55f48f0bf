/**
 * The older copy of the Create path (internal/util/manifest.go): the
 * manifest text is decoded here, an empty namespace defaults to "default",
 * and a successful wait is followed by a Read of the object.
 */
module LegacyManifest {
  import opened Wrappers
  import opened Objects
  import opened Foreign
  import opened Cluster
  import opened Decoding
  import opened Polling
  import opened Lifecycle

  const DefaultNamespaceName: string := "default"

  /** The object as Create submits it: an empty namespace becomes "default". */
  function DefaultNamespace(o: Unstructured): (r: Unstructured)
    ensures r.metadata.namespace != ""
    ensures o.metadata.namespace != "" ==> r == o
    ensures o.metadata.namespace == "" ==> r.metadata.namespace == DefaultNamespaceName
    ensures WithNamespace(r, o.metadata.namespace) == o
  {
    if o.metadata.namespace == "" then WithNamespace(o, DefaultNamespaceName) else o
  }

  /** Defaulting twice is defaulting once. */
  lemma DefaultNamespaceIdempotent(o: Unstructured)
    ensures DefaultNamespace(DefaultNamespace(o)) == DefaultNamespace(o)
  {
  }

  /**
   * The object the Read after a Create fetches: only its kind, namespace
   * and name are set. The source builds it from identifiers that are not
   * defined in that file; they are taken here to be those of the object
   * that was submitted.
   */
  function Skeleton(o: Unstructured): (r: Unstructured)
    ensures KeyOf(r) == KeyOf(o) && r.apiVersion == o.apiVersion && r.kind == o.kind
  {
    Unstructured(o.apiVersion, o.kind, Meta(o.metadata.name, o.metadata.namespace, "", "", map[], map[]), None, None, map[])
  }

  /**
   * Create, wait, then Read: a failed Create or wait ends the operation;
   * otherwise the object is read back by its key.
   */
  function CreatedThenRead(lib: Library, replies: seq<Reply>, o: Unstructured, id: string, budget: nat): (r: Run)
    ensures |r.calls| == r.consumed >= 1 && r.calls[0] == Call(CreateCall, KeyOf(o), Some(o))
    ensures Answer(replies).Failure? ==> r.calls == [r.calls[0]] && r.err == Some(ApiFailed(Answer(replies).error))
    ensures r.err.None? ==> r.calls[|r.calls| - 1] == Call(GetCall, KeyOf(o), None)
  {
    var s := Submitted(lib, CreateCall, replies, o, id, budget);
    if s.err.Some? then s
    else
      var v := ReadDecision(Answer(Drop(replies, s.consumed)));
      Run(if v.ReadFailed? then Some(ApiFailed(v.api)) else None, s.calls + [Call(GetCall, KeyOf(o), None)], s.consumed + 1)
  }

  /** Whether the Read after a successful create and wait found the object gone, which clears the id. */
  function ClearsId(lib: Library, replies: seq<Reply>, o: Unstructured, id: string, budget: nat): bool {
    var s := Submitted(lib, CreateCall, replies, o, id, budget);
    s.err.None? && ReadDecision(Answer(Drop(replies, s.consumed))).Gone?
  }

  method CreateThenRead(lib: Library, d: ResourceData, c: Client, obj: ObjectRef, budget: nat) returns (err: Option<LifecycleError>)
    modifies c, d, obj
    ensures var run := CreatedThenRead(lib, old(c.replies), old(obj.value), old(d.id), budget);
      err == run.err && c.calls == old(c.calls) + run.calls && c.replies == Drop(old(c.replies), run.consumed) &&
      d.id == (if ClearsId(lib, old(c.replies), old(obj.value), old(d.id), budget) then "" else old(d.id)) &&
      obj.value == AfterSubmit(old(c.replies), old(obj.value), Submitted(lib, CreateCall, old(c.replies), old(obj.value), old(d.id), budget).consumed)
  {
    var submitted := obj.value;
    err := SubmitAndWait(lib, CreateCall, d, c, obj, budget);
    if err.Some? {
      return;
    }
    ghost var consumed := Submitted(lib, CreateCall, old(c.replies), submitted, old(d.id), budget).consumed;
    DropRest(old(c.replies), consumed);
    err := Read(d, c, Skeleton(submitted));
  }

  /**
   * ResourceK8sManifestCreate: an undecodable manifest ends the operation
   * before any call; otherwise the object, its namespace defaulted, is
   * created, waited for and read back.
   */
  function LegacyCreated(lib: Library, content: string, replies: seq<Reply>, id: string, budget: nat): (r: Run)
    ensures Unmarshalled(lib, content, LegacyErrorPrefix).Failure? ==>
      r == Run(Some(Unmarshal(Unmarshalled(lib, content, LegacyErrorPrefix).error)), [], 0)
    ensures Unmarshalled(lib, content, LegacyErrorPrefix).Success? ==>
      var o := Unmarshalled(lib, content, LegacyErrorPrefix).value;
      |r.calls| >= 1 && r.calls[0].sent == Some(DefaultNamespace(o)) && r.calls[0].key.namespace != ""
  {
    match Unmarshalled(lib, content, LegacyErrorPrefix)
    case Failure(e) => Run(Some(Unmarshal(e)), [], 0)
    case Success(decoded) => CreatedThenRead(lib, replies, DefaultNamespace(decoded), id, budget)
  }

  method LegacyCreate(lib: Library, d: ResourceData, c: Client, content: string, budget: nat) returns (err: Option<LifecycleError>)
    modifies c, d
    ensures var run := LegacyCreated(lib, content, old(c.replies), old(d.id), budget);
      err == run.err && c.calls == old(c.calls) + run.calls && c.replies == Drop(old(c.replies), run.consumed)
    ensures Unmarshalled(lib, content, LegacyErrorPrefix).Failure? ==> d.id == old(d.id)
    ensures Unmarshalled(lib, content, LegacyErrorPrefix).Success? ==>
      var o := DefaultNamespace(Unmarshalled(lib, content, LegacyErrorPrefix).value);
      d.id == (if ClearsId(lib, old(c.replies), o, old(d.id), budget) then "" else old(d.id))
  {
    var parsed := ContentToObject(lib, content, LegacyErrorPrefix);
    if parsed.Failure? {
      return Some(Unmarshal(parsed.error));
    }
    var obj := new ObjectRef(parsed.value);
    if obj.value.metadata.namespace == "" {
      obj.value := WithNamespace(obj.value, DefaultNamespaceName);
    }
    err := CreateThenRead(lib, d, c, obj, budget);
  }

  /** A manifest that does not decode makes no cluster call at all. */
  lemma UndecodableMakesNoCall(lib: Library, content: string, replies: seq<Reply>, id: string, budget: nat)
    requires Unmarshalled(lib, content, LegacyErrorPrefix).Failure?
    ensures LegacyCreated(lib, content, replies, id, budget).calls == []
    ensures LegacyCreated(lib, content, replies, id, budget).err.value.Unmarshal?
  {
  }
}
