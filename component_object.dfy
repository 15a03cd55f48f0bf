/**
 * A component object: one resource decoded from a rendered manifest,
 * together with the fields the provider persists about it and the hash of
 * its `spec` subtree (SHA-256 over its JSON encoding, as lowercase hex).
 */
module ComponentObjects {
  import opened Wrappers
  import opened Objects
  import opened Hex
  import opened Foreign
  import opened Decoding

  /** The record's fields are read back unchanged by its getters (GetGroup … GetUnstructuredObject). */
  datatype ComponentObject = ComponentObject(
    group: string,
    version: string,
    kind: string,
    name: string,
    namespace: string,
    labels: map<string, string>,
    annotations: map<string, string>,
    manifest: string,
    specHash: string,
    unstructured: Unstructured)

  const MarshalErrorPrefix: string := "marshall error! "

  /** The JSON encoding of an object's spec; an absent spec encodes as null. */
  function SpecJson(lib: Library, o: Unstructured): Result<seq<byte>, string> {
    lib.marshal(o.spec.GetOr(Null))
  }

  /** objectFromManifest(objectManifest) */
  function ObjectFromManifest(lib: Library, manifest: string): (r: Result<ComponentObject, string>)
    ensures Unmarshalled(lib, manifest, ErrorPrefix).Failure? ==> r == Failure(Unmarshalled(lib, manifest, ErrorPrefix).error)
    ensures r.Success? ==> r.value.manifest == manifest
    ensures r.Success? ==> |r.value.specHash| == 64 && forall i :: 0 <= i < 64 ==> IsLowerHex(r.value.specHash[i])
    ensures r.Success? ==> r.value.annotations == r.value.labels
  {
    match Unmarshalled(lib, manifest, ErrorPrefix)
    case Failure(e) => Failure(e)
    case Success(o) =>
      match SpecJson(lib, o)
      case Failure(e) => Failure(MarshalErrorPrefix + e)
      case Success(bytes) =>
        var gvk := GroupVersionKindOf(o);
        Success(ComponentObject(
          gvk.group, gvk.version, gvk.kind,
          o.metadata.name, o.metadata.namespace,
          o.metadata.labels, o.metadata.labels,
          manifest,
          ToHex(lib.sha256(bytes)),
          o))
  }

  /** A successfully built object copies its identity out of the object decoded from the manifest. */
  lemma ObjectIdentity(lib: Library, manifest: string)
    requires ObjectFromManifest(lib, manifest).Success?
    ensures Unmarshalled(lib, manifest, ErrorPrefix).Success?
    ensures var c, o := ObjectFromManifest(lib, manifest).value, Unmarshalled(lib, manifest, ErrorPrefix).value;
      c.unstructured == o &&
      GroupVersionKind(c.group, c.version, c.kind) == GroupVersionKindOf(o) &&
      c.name == o.metadata.name && c.namespace == o.metadata.namespace && c.labels == o.metadata.labels
  {
  }

  /** A decoded object whose spec cannot be encoded yields the marshalling error and no object. */
  lemma MarshalFailure(lib: Library, manifest: string)
    requires Unmarshalled(lib, manifest, ErrorPrefix).Success?
    requires SpecJson(lib, Unmarshalled(lib, manifest, ErrorPrefix).value).Failure?
    ensures ObjectFromManifest(lib, manifest) ==
      Failure(MarshalErrorPrefix + SpecJson(lib, Unmarshalled(lib, manifest, ErrorPrefix).value).error)
  {
  }

  /**
   * The hash sees nothing but the spec: two manifests whose objects have the
   * same spec get the same hash, whatever their metadata, kind or text.
   */
  lemma SpecHashOnlySpec(lib: Library, m1: string, m2: string)
    requires ObjectFromManifest(lib, m1).Success? && ObjectFromManifest(lib, m2).Success?
    requires ObjectFromManifest(lib, m1).value.unstructured.spec.GetOr(Null) == ObjectFromManifest(lib, m2).value.unstructured.spec.GetOr(Null)
    ensures ObjectFromManifest(lib, m1).value.specHash == ObjectFromManifest(lib, m2).value.specHash
  {
  }

  /** The hash text is a faithful spelling of the digest: equal texts exactly when the digests are equal. */
  lemma SpecHashFaithful(lib: Library, m1: string, m2: string)
    requires ObjectFromManifest(lib, m1).Success? && ObjectFromManifest(lib, m2).Success?
    ensures var b1, b2 := SpecJson(lib, ObjectFromManifest(lib, m1).value.unstructured).value,
                          SpecJson(lib, ObjectFromManifest(lib, m2).value.unstructured).value;
      ObjectFromManifest(lib, m1).value.specHash == ObjectFromManifest(lib, m2).value.specHash
      <==> lib.sha256(b1) == lib.sha256(b2)
  {
    var b1 := SpecJson(lib, ObjectFromManifest(lib, m1).value.unstructured).value;
    var b2 := SpecJson(lib, ObjectFromManifest(lib, m2).value.unstructured).value;
    DigestText(lib.sha256(b1), lib.sha256(b2));
  }

  /** One value of the persisted record: text, or a string map. */
  datatype FlatField = Text(text: string) | Strings(entries: map<string, string>)

  const FlatKeys: set<string> := {"group", "version", "kind", "name", "namespace", "labels", "annotations", "spec_hash"}

  /** GetFlat: the persisted record of a component object. */
  function Flat(c: ComponentObject): (r: map<string, FlatField>)
    ensures r.Keys == FlatKeys
  {
    map[
      "group" := Text(c.group),
      "version" := Text(c.version),
      "kind" := Text(c.kind),
      "name" := Text(c.name),
      "namespace" := Text(c.namespace),
      "labels" := Strings(c.labels),
      "annotations" := Strings(c.annotations),
      "spec_hash" := Text(c.specHash)]
  }

  /**
   * The record keeps exactly the eight fields: two objects have the same
   * record iff they agree on them, whatever their manifests and objects.
   */
  lemma FlatDeterminesFields(a: ComponentObject, b: ComponentObject)
    ensures Flat(a) == Flat(b) <==>
      a.group == b.group && a.version == b.version && a.kind == b.kind &&
      a.name == b.name && a.namespace == b.namespace &&
      a.labels == b.labels && a.annotations == b.annotations && a.specHash == b.specHash
  {
    if Flat(a) == Flat(b) {
      assert Flat(a)["group"] == Flat(b)["group"];
      assert Flat(a)["version"] == Flat(b)["version"];
      assert Flat(a)["kind"] == Flat(b)["kind"];
      assert Flat(a)["name"] == Flat(b)["name"];
      assert Flat(a)["namespace"] == Flat(b)["namespace"];
      assert Flat(a)["labels"] == Flat(b)["labels"];
      assert Flat(a)["annotations"] == Flat(b)["annotations"];
      assert Flat(a)["spec_hash"] == Flat(b)["spec_hash"];
    }
  }

  /**
   * The record of an object built from a manifest, end to end: identity,
   * labels (twice, annotations included) and the hash of the spec's encoding,
   * all taken from the object the manifest decodes to.
   */
  lemma FlatOfManifest(lib: Library, manifest: string)
    requires ObjectFromManifest(lib, manifest).Success?
    ensures Unmarshalled(lib, manifest, ErrorPrefix).Success?
    ensures SpecJson(lib, Unmarshalled(lib, manifest, ErrorPrefix).value).Success?
    ensures var r, o := Flat(ObjectFromManifest(lib, manifest).value), Unmarshalled(lib, manifest, ErrorPrefix).value;
      var gvk := GroupVersionKindOf(o);
      r["group"] == Text(gvk.group) && r["version"] == Text(gvk.version) && r["kind"] == Text(gvk.kind) &&
      r["name"] == Text(o.metadata.name) && r["namespace"] == Text(o.metadata.namespace) &&
      r["labels"] == Strings(o.metadata.labels) && r["annotations"] == Strings(o.metadata.labels) &&
      r["spec_hash"] == Text(ToHex(lib.sha256(SpecJson(lib, o).value)))
  {
    ObjectIdentity(lib, manifest);
  }
}
