/**
 * Naming and labelling of the objects the typed resource code creates
 * (updateMetadata), and the record of an object's metadata that is kept in
 * the Terraform state (flattenMetadata).
 */
module Metadata {
  import opened Objects
  import opened ComponentObjects

  /** The component whose objects are named after the resource alone. */
  const NamespaceComponent: string := "namespace"

  /** The name of a component's object: the resource name, suffixed with the component unless it is the namespace. */
  function ComponentName(resourceName: string, component: string): string {
    if component == NamespaceComponent then resourceName else resourceName + "-" + component
  }

  /** Only the namespace component's object carries the bare resource name. */
  lemma ComponentNameBare(resourceName: string, component: string)
    ensures ComponentName(resourceName, component) == resourceName <==> component == NamespaceComponent
  {
    if component != NamespaceComponent {
      assert |ComponentName(resourceName, component)| > |resourceName|;
    }
  }

  /** Different components of one resource get different object names. */
  lemma ComponentNameInjective(resourceName: string, c1: string, c2: string)
    requires ComponentName(resourceName, c1) == ComponentName(resourceName, c2)
    ensures c1 == c2
  {
    ComponentNameBare(resourceName, c1);
    ComponentNameBare(resourceName, c2);
    if c1 != NamespaceComponent && c2 != NamespaceComponent {
      var n := |resourceName| + 1;
      assert c1 == ComponentName(resourceName, c1)[n..];
      assert c2 == ComponentName(resourceName, c2)[n..];
    }
  }

  /** The fields of the resource block that naming and labelling read. */
  datatype ResourceBlock = ResourceBlock(id: string, name: string, version: string)

  /** A component's configuration block: its namespace, labels and annotations. */
  datatype ComponentMeta = ComponentMeta(namespace: string, labels: map<string, string>, annotations: map<string, string>)

  const SchemaLabel: string := "project-octal.io/cert-manager-schema"
  const InstanceLabel: string := "app.kubernetes.io/instance"
  const VersionLabel: string := "app.kubernetes.io/version"
  const NameLabel: string := "app.kubernetes.io/name"
  const ComponentLabel: string := "app.kubernetes.io/component"
  const PartOfLabel: string := "app.kubernetes.io/part-of"
  const CreatedByLabel: string := "app.kubernetes.io/created-by"
  const ManagedByLabel: string := "app.kubernetes.io/managed-by"
  const Creator: string := "terraform"

  const FixedLabelKeys: set<string> :=
    {SchemaLabel, InstanceLabel, VersionLabel, NameLabel, ComponentLabel, PartOfLabel, CreatedByLabel, ManagedByLabel}

  /** The eight labels every object of the resource carries. */
  function FixedLabels(block: ResourceBlock, component: string): map<string, string> {
    map[
      SchemaLabel := block.id,
      InstanceLabel := block.id,
      VersionLabel := block.version,
      NameLabel := ComponentName(block.name, component),
      ComponentLabel := component,
      PartOfLabel := block.name,
      CreatedByLabel := Creator,
      ManagedByLabel := Creator]
  }

  /** Each fixed label carries its own value: the keys are distinct, so no write shadows another. */
  lemma FixedLabelValues(block: ResourceBlock, component: string)
    ensures var r := FixedLabels(block, component);
      r.Keys == FixedLabelKeys &&
      r[NameLabel] == ComponentName(block.name, component) && r[PartOfLabel] == block.name &&
      r[ComponentLabel] == component && r[CreatedByLabel] == Creator && r[ManagedByLabel] == Creator &&
      r[SchemaLabel] == block.id && r[InstanceLabel] == block.id && r[VersionLabel] == block.version
  {
  }

  /** The metadata after updateMetadata. */
  function UpdatedMeta(component: string, namespaced: bool, m: Meta, block: ResourceBlock, cfg: ComponentMeta): Meta {
    m.(namespace := if namespaced then cfg.namespace else m.namespace,
       name := ComponentName(block.name, component),
       labels := cfg.labels + FixedLabels(block, component))
  }

  /**
   * The object is named after the resource and component, and only a
   * namespaced object takes the configured namespace.
   */
  lemma NameAndNamespace(component: string, namespaced: bool, m: Meta, block: ResourceBlock, cfg: ComponentMeta)
    ensures var r := UpdatedMeta(component, namespaced, m, block, cfg);
      r.name == ComponentName(block.name, component) &&
      (namespaced ==> r.namespace == cfg.namespace) && (!namespaced ==> r.namespace == m.namespace)
  {
  }

  /**
   * The labels are the configured ones and the eight fixed ones, nothing
   * else; on a clash the fixed label wins.
   */
  lemma FixedLabelsWin(component: string, namespaced: bool, m: Meta, block: ResourceBlock, cfg: ComponentMeta)
    ensures var r := UpdatedMeta(component, namespaced, m, block, cfg);
      r.labels.Keys == cfg.labels.Keys + FixedLabelKeys &&
      (forall k :: k in FixedLabelKeys ==> r.labels[k] == FixedLabels(block, component)[k]) &&
      (forall k :: k in cfg.labels && k !in FixedLabelKeys ==> r.labels[k] == cfg.labels[k])
  {
  }

  /** The annotations, uid and resourceVersion are left as they were: the configured annotations are never applied. */
  lemma AnnotationsUntouched(component: string, namespaced: bool, m: Meta, block: ResourceBlock, cfg: ComponentMeta)
    ensures var r := UpdatedMeta(component, namespaced, m, block, cfg);
      r.annotations == m.annotations && r.uid == m.uid && r.resourceVersion == m.resourceVersion
  {
  }

  /** The labels an object ends up with do not depend on the labels it had. */
  lemma LabelsReplaced(component: string, namespaced: bool, m1: Meta, m2: Meta, block: ResourceBlock, cfg: ComponentMeta)
    ensures UpdatedMeta(component, namespaced, m1, block, cfg).labels == UpdatedMeta(component, namespaced, m2, block, cfg).labels
  {
  }

  /** Updating twice with the same inputs is updating once. */
  lemma UpdateIdempotent(component: string, namespaced: bool, m: Meta, block: ResourceBlock, cfg: ComponentMeta)
    ensures var once := UpdatedMeta(component, namespaced, m, block, cfg);
      UpdatedMeta(component, namespaced, once, block, cfg) == once
  {
  }

  /** A metadata object whose setters update its fields in place. */
  class ObjectMeta {
    var name: string
    var namespace: string
    var uid: string
    var resourceVersion: string
    var labels: map<string, string>
    var annotations: map<string, string>

    constructor (m: Meta)
      ensures Value() == m
    {
      name := m.name;
      namespace := m.namespace;
      uid := m.uid;
      resourceVersion := m.resourceVersion;
      labels := m.labels;
      annotations := m.annotations;
    }

    function Value(): Meta
      reads this
    {
      Meta(name, namespace, uid, resourceVersion, labels, annotations)
    }
  }

  /** Copies a string map entry by entry, as the loops over the configured labels and annotations do. */
  method CopyStringMap(source: map<string, string>) returns (copy: map<string, string>)
    ensures copy == source
  {
    copy := map[];
    var left := source.Keys;
    while left != {}
      invariant left <= source.Keys
      invariant copy.Keys == source.Keys - left
      invariant forall k :: k in copy ==> copy[k] == source[k]
      decreases left
    {
      var k :| k in left;
      copy := copy[k := source[k]];
      left := left - {k};
    }
  }

  /**
   * One label write over the configured labels: the labels stay the
   * configured ones overridden by the fixed ones written so far.
   */
  method Override(labels: map<string, string>, ghost configured: map<string, string>, ghost fixed: map<string, string>, key: string, value: string)
    returns (updated: map<string, string>, ghost fixedNow: map<string, string>)
    requires labels == configured + fixed
    ensures updated == labels[key := value] && fixedNow == fixed[key := value]
    ensures updated == configured + fixedNow
  {
    updated := labels[key := value];
    fixedNow := fixed[key := value];
  }

  /** The label map updateMetadata builds: the configured labels, then the eight fixed labels written over them. */
  method ComponentLabels(block: ResourceBlock, component: string, componentName: string, cfg: ComponentMeta) returns (componentLabels: map<string, string>)
    requires componentName == ComponentName(block.name, component)
    ensures componentLabels == cfg.labels + FixedLabels(block, component)
  {
    componentLabels := CopyStringMap(cfg.labels);
    ghost var fixed: map<string, string> := map[];
    assert componentLabels == cfg.labels + fixed;
    componentLabels, fixed := Override(componentLabels, cfg.labels, fixed, SchemaLabel, block.id);
    componentLabels, fixed := Override(componentLabels, cfg.labels, fixed, InstanceLabel, block.id);
    componentLabels, fixed := Override(componentLabels, cfg.labels, fixed, VersionLabel, block.version);
    componentLabels, fixed := Override(componentLabels, cfg.labels, fixed, NameLabel, componentName);
    componentLabels, fixed := Override(componentLabels, cfg.labels, fixed, ComponentLabel, component);
    componentLabels, fixed := Override(componentLabels, cfg.labels, fixed, PartOfLabel, block.name);
    componentLabels, fixed := Override(componentLabels, cfg.labels, fixed, CreatedByLabel, Creator);
    componentLabels, fixed := Override(componentLabels, cfg.labels, fixed, ManagedByLabel, Creator);
    assert fixed == FixedLabels(block, component);
  }

  /**
   * updateMetadata: set the namespace (namespaced objects only) and the
   * name, replace the labels by the configured ones overridden by the fixed
   * ones. The configured annotations are copied but never applied.
   */
  method UpdateMetadata(component: string, namespaced: bool, m: ObjectMeta, block: ResourceBlock, cfg: ComponentMeta)
    modifies m
    ensures m.Value() == UpdatedMeta(component, namespaced, old(m.Value()), block, cfg)
  {
    if namespaced {
      m.namespace := cfg.namespace;
    }
    var componentName := ComponentName(block.name, component);
    m.name := componentName;
    var componentLabels := ComponentLabels(block, component, componentName, cfg);
    m.labels := componentLabels;
    var componentAnnotations := CopyStringMap(cfg.annotations);
    m.annotations := m.annotations;
  }

  const MetadataKeys: set<string> := {"uid", "resource_version", "name", "component", "labels", "annotations"}

  /** flattenMetadata: the one-record state entry for an object's metadata. */
  function FlattenMetadata(component: string, m: Meta): (r: seq<map<string, FlatField>>)
    ensures |r| == 1 && r[0].Keys == MetadataKeys
  {
    [map[
      "uid" := Text(m.uid),
      "resource_version" := Text(m.resourceVersion),
      "name" := Text(m.name),
      "component" := Text(component),
      "labels" := Strings(m.labels),
      "annotations" := Strings(m.annotations)]]
  }

  /**
   * The record keeps exactly the component and five metadata fields: two
   * records are equal iff they agree on those, whatever the namespaces.
   */
  lemma FlattenMetadataDetermines(c1: string, m1: Meta, c2: string, m2: Meta)
    ensures FlattenMetadata(c1, m1) == FlattenMetadata(c2, m2) <==>
      c1 == c2 && m1.uid == m2.uid && m1.resourceVersion == m2.resourceVersion && m1.name == m2.name &&
      m1.labels == m2.labels && m1.annotations == m2.annotations
  {
    if FlattenMetadata(c1, m1) == FlattenMetadata(c2, m2) {
      var r1 := FlattenMetadata(c1, m1)[0];
      var r2 := FlattenMetadata(c2, m2)[0];
      assert r1["uid"] == r2["uid"];
      assert r1["resource_version"] == r2["resource_version"];
      assert r1["name"] == r2["name"];
      assert r1["component"] == r2["component"];
      assert r1["labels"] == r2["labels"];
      assert r1["annotations"] == r2["annotations"];
    }
  }

  /**
   * The state record after updateMetadata, end to end: the derived name,
   * the component, the merged labels, and the uid, resourceVersion and
   * annotations the object already had.
   */
  lemma FlattenUpdatedMeta(component: string, namespaced: bool, m: Meta, block: ResourceBlock, cfg: ComponentMeta)
    ensures var r := FlattenMetadata(component, UpdatedMeta(component, namespaced, m, block, cfg))[0];
      r["name"] == Text(ComponentName(block.name, component)) && r["component"] == Text(component) &&
      r["labels"] == Strings(cfg.labels + FixedLabels(block, component)) &&
      r["annotations"] == Strings(m.annotations) &&
      r["uid"] == Text(m.uid) && r["resource_version"] == Text(m.resourceVersion)
  {
  }
}
