/**
 * The generic cluster object ("unstructured" object): a JSON document with
 * typed accessors for the parts the engine reads — apiVersion, kind,
 * metadata, spec and status. Everything else in the document is kept in
 * `rest` and never inspected.
 */
module Objects {
  import opened Wrappers

  /** A decoded JSON (RFC 8259) or YAML value. Numbers are kept as integers. */
  datatype Json =
    | Null
    | Bool(b: bool)
    | Number(n: int)
    | Str(s: string)
    | Array(items: seq<Json>)
    | Object(fields: map<string, Json>)

  /** The object's metadata block. */
  datatype Meta = Meta(
    name: string,
    namespace: string,
    uid: string,
    resourceVersion: string,
    labels: map<string, string>,
    annotations: map<string, string>)

  /**
   * A whole object. `spec` and `status` are None when the document has no
   * such top-level key; a key present with a null value is Some(Null).
   */
  datatype Unstructured = Unstructured(
    apiVersion: string,
    kind: string,
    metadata: Meta,
    spec: Option<Json>,
    status: Option<Json>,
    rest: map<string, Json>)

  /** The key an object is fetched by: namespace and name. */
  datatype ObjectKey = ObjectKey(namespace: string, name: string)

  datatype GroupKind = GroupKind(group: string, kind: string)

  datatype GroupVersionKind = GroupVersionKind(group: string, version: string, kind: string)

  function KeyOf(o: Unstructured): (k: ObjectKey)
  {
    ObjectKey(o.metadata.namespace, o.metadata.name)
  }

  function WithNamespace(o: Unstructured, namespace: string): Unstructured {
    o.(metadata := o.metadata.(namespace := namespace))
  }

  function WithResourceVersion(o: Unstructured, version: string): Unstructured {
    o.(metadata := o.metadata.(resourceVersion := version))
  }

  /** Stamping a resourceVersion leaves the key the object is fetched and submitted by unchanged. */
  lemma KeyIgnoresVersion(o: Unstructured, version: string)
    ensures KeyOf(WithResourceVersion(o, version)) == KeyOf(o)
  {
  }

  /** Setting the namespace moves the object's key to that namespace, under the same name. */
  lemma KeyFollowsNamespace(o: Unstructured, namespace: string)
    ensures KeyOf(WithNamespace(o, namespace)) == ObjectKey(namespace, o.metadata.name)
  {
  }

  function SlashCount(s: string): nat {
    if s == [] then 0 else (if s[0] == '/' then 1 else 0) + SlashCount(s[1..])
  }

  /** Index of the first '/', or |s| when there is none. */
  function SlashIndex(s: string): (i: nat)
    ensures i <= |s|
    ensures forall j :: 0 <= j < i ==> s[j] != '/'
    ensures i < |s| ==> s[i] == '/'
    ensures i == |s| ==> SlashCount(s) == 0
  {
    if s == [] then 0 else if s[0] == '/' then 0 else 1 + SlashIndex(s[1..])
  }

  /**
   * The group and version named by an apiVersion string: "v1" is the core
   * group, "apps/v1" is group "apps"; more than one '/' is malformed.
   */
  function SplitApiVersion(apiVersion: string): Option<(string, string)> {
    if apiVersion == "" || apiVersion == "/" then Some(("", ""))
    else if SlashCount(apiVersion) == 0 then Some(("", apiVersion))
    else if SlashCount(apiVersion) == 1 then
      var i := SlashIndex(apiVersion);
      Some((apiVersion[..i], apiVersion[i + 1..]))
    else None
  }

  function JoinApiVersion(group: string, version: string): string {
    if group == "" then version else group + "/" + version
  }

  /** An object's group, version and kind; all empty when its apiVersion is malformed. */
  function GroupVersionKindOf(o: Unstructured): GroupVersionKind {
    match SplitApiVersion(o.apiVersion)
    case Some((g, v)) => GroupVersionKind(g, v, o.kind)
    case None => GroupVersionKind("", "", "")
  }

  function GroupKindOf(o: Unstructured): GroupKind {
    var gvk := GroupVersionKindOf(o);
    GroupKind(gvk.group, gvk.kind)
  }

  lemma {:induction false} SlashCountAppend(a: string, b: string)
    ensures SlashCount(a + b) == SlashCount(a) + SlashCount(b)
  {
    if a != [] {
      assert (a + b)[1..] == a[1..] + b;
      SlashCountAppend(a[1..], b);
    } else {
      assert a + b == b;
    }
  }

  lemma {:induction false} NoSlashCount(s: string)
    requires forall i :: 0 <= i < |s| ==> s[i] != '/'
    ensures SlashCount(s) == 0
  {
    if s != [] {
      NoSlashCount(s[1..]);
    }
  }

  /** Splitting a joined apiVersion gives back its group and version. */
  lemma SplitJoinApiVersion(group: string, version: string)
    requires forall i :: 0 <= i < |group| ==> group[i] != '/'
    requires forall i :: 0 <= i < |version| ==> version[i] != '/'
    ensures SplitApiVersion(JoinApiVersion(group, version)) == Some((group, version))
  {
    NoSlashCount(group);
    NoSlashCount(version);
    if group != "" {
      var s := group + "/" + version;
      SlashCountAppend(group + "/", version);
      SlashCountAppend(group, "/");
      assert SlashCount("/") == 1;
      assert s != "/" by { assert |s| > 1; }
      assert SlashIndex(s) == |group| by {
        assert s[|group|] == '/';
        assert forall j :: 0 <= j < |group| ==> s[j] == group[j];
      }
      assert s[..|group|] == group;
      assert s[|group| + 1..] == version;
    }
  }
}
