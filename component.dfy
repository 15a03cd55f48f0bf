/**
 * A component: its manifest templates in ten categories, rendered in a
 * fixed dependency order against the flattened config with the component
 * namespace injected. Every render is kept as text; a non-empty render is
 * decoded into a component object, and one that fails to decode is skipped.
 */
module Components {
  import opened Wrappers
  import opened Foreign
  import opened FlatConfig
  import opened ComponentObjects

  datatype ResourceTemplates = ResourceTemplates(
    deployments: seq<string>,
    services: seq<string>,
    serviceAccounts: seq<string>,
    roles: seq<string>,
    roleBindings: seq<string>,
    clusterRoles: seq<string>,
    clusterRoleBindings: seq<string>,
    mutatingWebhooks: seq<string>,
    validatingWebhooks: seq<string>,
    customResourceDefinitions: seq<string>)

  /**
   * Every template, one category after another, in dependency order:
   * definitions and access rules before the workloads that use them.
   */
  function OrderedTemplates(rt: ResourceTemplates): seq<string> {
    rt.customResourceDefinitions + rt.roles + rt.clusterRoles + rt.serviceAccounts + rt.roleBindings +
    rt.clusterRoleBindings + rt.mutatingWebhooks + rt.validatingWebhooks + rt.deployments + rt.services
  }

  /**
   * The component's block in the resource data: absent, or a list whose
   * elements are config maps or nil.
   */
  type ConfigBlock = Option<seq<Option<seq<Entry>>>>

  /** The config a block yields: its first element, or nothing when that is missing. */
  function ComponentConfig(block: ConfigBlock): (cfg: seq<Entry>)
    ensures block.None? || |block.value| == 0 || block.value[0].None? ==> cfg == []
    ensures block.Some? && |block.value| > 0 && block.value[0].Some? ==> cfg == block.value[0].value
  {
    if block.Some? && |block.value| > 0 && block.value[0].Some? then block.value[0].value else []
  }

  /** The flat config a template sees: `namespace` first, then every config entry flattened over it. */
  function ConfigFlat(namespace: string, cfg: seq<Entry>): map<string, string> {
    FlattenedTop(cfg, map["namespace" := namespace])
  }

  function AsSeq<T>(o: Option<T>): seq<T> {
    if o.Some? then [o.value] else []
  }

  datatype Rendered = Rendered(text: string, found: Option<ComponentObject>)

  /** A template's text: parse it under the component's name, then execute it against the flat config. */
  function TemplateText(lib: Library, name: string, flat: map<string, string>, t: string): Result<string, string> {
    match lib.parse(name, t)
    case Some(e) => Failure(e)
    case None => lib.execute(name, t, flat)
  }

  /** One template: its text, decoded into an object when it is not empty. */
  function RenderTemplate(lib: Library, name: string, flat: map<string, string>, t: string): Result<Rendered, string> {
      match TemplateText(lib, name, flat, t)
      case Failure(e) => Failure(e)
      case Success(text) =>
        if text == "" then Success(Rendered(text, None))
        else match ObjectFromManifest(lib, text)
          case Success(o) => Success(Rendered(text, Some(o)))
          case Failure(_) => Success(Rendered(text, None))
  }

  datatype Rendering = Rendering(manifests: seq<string>, objects: seq<ComponentObject>)

  /** The render loop over ts, stopping at the first template that fails to parse or execute. */
  function RenderAll(lib: Library, name: string, flat: map<string, string>, ts: seq<string>): Result<Rendering, string>
    decreases |ts|
  {
    if ts == [] then Success(Rendering([], []))
    else
      match RenderAll(lib, name, flat, ts[..|ts| - 1])
      case Failure(e) => Failure(e)
      case Success(done) =>
        match RenderTemplate(lib, name, flat, ts[|ts| - 1])
        case Failure(e) => Failure(e)
        case Success(one) => Success(Rendering(done.manifests + [one.text], done.objects + AsSeq(one.found)))
  }

  /** The objects the templates yield, one template after another: a reference definition independent of the loop. */
  function Kept(lib: Library, name: string, flat: map<string, string>, ts: seq<string>): seq<ComponentObject> {
    if ts == [] then []
    else
      var first := RenderTemplate(lib, name, flat, ts[0]);
      (if first.Success? then AsSeq(first.value.found) else []) + Kept(lib, name, flat, ts[1..])
  }

  datatype ResourceComponent = ResourceComponent(
    name: string,
    namespace: string,
    config: seq<Entry>,
    objects: seq<ComponentObject>,
    templates: ResourceTemplates,
    manifests: seq<string>)
  {
    /** GetConfig: the flat config, `namespace` included. */
    method GetConfig() returns (flat: map<string, string>)
      ensures flat == ConfigFlat(namespace, config)
    {
      var fm := new FlatMap();
      fm.Put("namespace", namespace);
      fm.FlattenEach(config);
      flat := fm.entries;
    }

    /** GetFlat: one record whose `objects` entry lists each object's persisted record, in order. */
    method GetFlat() returns (r: seq<map<string, seq<map<string, FlatField>>>>)
      ensures |r| == 1 && r[0].Keys == {"objects"}
      ensures |r[0]["objects"]| == |objects|
      ensures forall i :: 0 <= i < |objects| ==> r[0]["objects"][i] == Flat(objects[i])
    {
      var parts: seq<map<string, FlatField>> := [];
      var i := 0;
      while i < |objects|
        invariant 0 <= i <= |objects|
        invariant |parts| == i
        invariant forall j :: 0 <= j < i ==> parts[j] == Flat(objects[j])
      {
        parts := parts + [Flat(objects[i])];
        i := i + 1;
      }
      r := [map["objects" := parts]];
    }
  }

  /** What GetComponent builds, or the error its render panics with. */
  function BuildComponent(lib: Library, name: string, namespace: string, block: ConfigBlock, rt: ResourceTemplates): Result<ResourceComponent, string> {
    var cfg := ComponentConfig(block);
    match RenderAll(lib, name, ConfigFlat(namespace, cfg), OrderedTemplates(rt))
    case Failure(e) => Failure(e)
    case Success(rd) => Success(ResourceComponent(name, namespace, cfg, rd.objects, rt, rd.manifests))
  }

  /** One pass of the render loop: flatten the config, parse and execute the template, decode a non-empty text. */
  method RenderOne(lib: Library, name: string, namespace: string, cfg: seq<Entry>, t: string)
    returns (r: Result<Rendered, string>)
    ensures r == RenderTemplate(lib, name, ConfigFlat(namespace, cfg), t)
  {
    var parseError := lib.parse(name, t);
    if parseError.Some? {
      return Failure(parseError.value);
    }
    var fm := new FlatMap();
    fm.Put("namespace", namespace);
    assert fm.entries == map["namespace" := namespace];
    fm.FlattenEach(cfg);
    var text := lib.execute(name, t, fm.entries);
    if text.Failure? {
      return Failure(text.error);
    }
    if text.value == "" {
      return Success(Rendered(text.value, None));
    }
    var o := ObjectFromManifest(lib, text.value);
    if o.Success? {
      r := Success(Rendered(text.value, Some(o.value)));
    } else {
      r := Success(Rendered(text.value, None));
    }
  }

  /** The render loop of GetComponent over a list of templates. */
  method RenderTemplates(lib: Library, name: string, namespace: string, cfg: seq<Entry>, ts: seq<string>)
    returns (r: Result<Rendering, string>)
    ensures r == RenderAll(lib, name, ConfigFlat(namespace, cfg), ts)
  {
    ghost var flat := ConfigFlat(namespace, cfg);
    var rendered: seq<string> := [];
    var objects: seq<ComponentObject> := [];
    var i := 0;
    while i < |ts|
      invariant 0 <= i <= |ts|
      invariant RenderAll(lib, name, flat, ts[..i]) == Success(Rendering(rendered, objects))
    {
      var one := RenderOne(lib, name, namespace, cfg, ts[i]);
      if one.Failure? {
        RenderAllStops(lib, name, flat, ts, i);
        return Failure(one.error);
      }
      RenderAllStep(lib, name, flat, ts, i);
      rendered := rendered + [one.value.text];
      objects := objects + AsSeq(one.value.found);
      i := i + 1;
    }
    assert ts[..i] == ts;
    r := Success(Rendering(rendered, objects));
  }

  /** GetComponent(componentName, componentNamespace, d, resourceTemplates); a panic is a Failure. */
  method GetComponent(lib: Library, name: string, namespace: string, block: ConfigBlock, rt: ResourceTemplates)
    returns (r: Result<ResourceComponent, string>)
    ensures r == BuildComponent(lib, name, namespace, block, rt)
  {
    var cfg := ComponentConfig(block);
    var rd := RenderTemplates(lib, name, namespace, cfg, OrderedTemplates(rt));
    if rd.Failure? {
      return Failure(rd.error);
    }
    r := Success(ResourceComponent(name, namespace, cfg, rd.value.objects, rt, rd.value.manifests));
  }

  // ---------------------------------------------------------------------
  // What the render loop promises.

  /** The injected namespace sits under the config: a `namespace` the config produces wins. */
  lemma ConfigFlatNamespace(namespace: string, cfg: seq<Entry>)
    ensures ConfigFlat(namespace, cfg) == map["namespace" := namespace] + FlattenedTop(cfg, map[])
    ensures ConfigFlat(namespace, cfg)["namespace"] ==
      if "namespace" in FlattenedTop(cfg, map[]) then FlattenedTop(cfg, map[])["namespace"] else namespace
  {
    TopOverlay(cfg, map["namespace" := namespace]);
  }

  /**
   * A scalar config entry reaches every template under its own key, as its
   * text, when the top-level keys are distinct and free of '.'.
   */
  lemma ConfigScalarSeen(namespace: string, cfg: seq<Entry>, j: nat, t: string)
    requires j < |cfg| && cfg[j].value == Scalar(t) && KeysSeparate(cfg)
    ensures cfg[j].key in ConfigFlat(namespace, cfg) && ConfigFlat(namespace, cfg)[cfg[j].key] == t
  {
    ConfigFlatNamespace(namespace, cfg);
    ScalarEntry(cfg[j].key, t);
    TopEntries(cfg);
  }

  /** One more template that renders extends the loop's texts and objects by its own. */
  lemma RenderAllStep(lib: Library, name: string, flat: map<string, string>, ts: seq<string>, i: nat)
    requires i < |ts|
    requires RenderAll(lib, name, flat, ts[..i]).Success?
    requires RenderTemplate(lib, name, flat, ts[i]).Success?
    ensures var rd, one := RenderAll(lib, name, flat, ts[..i]).value, RenderTemplate(lib, name, flat, ts[i]).value;
      RenderAll(lib, name, flat, ts[..i + 1]) == Success(Rendering(rd.manifests + [one.text], rd.objects + AsSeq(one.found)))
  {
    assert ts[..i + 1][..i] == ts[..i];
  }

  lemma {:induction false} KeptAppend(lib: Library, name: string, flat: map<string, string>, a: seq<string>, b: seq<string>)
    ensures Kept(lib, name, flat, a + b) == Kept(lib, name, flat, a) + Kept(lib, name, flat, b)
    decreases |a|
  {
    if a == [] {
      assert a + b == b;
    } else {
      assert (a + b)[1..] == a[1..] + b;
      KeptAppend(lib, name, flat, a[1..], b);
    }
  }

  /** The loop succeeds iff no template fails to parse or execute. */
  lemma {:induction false} RenderAllSuccess(lib: Library, name: string, flat: map<string, string>, ts: seq<string>)
    ensures RenderAll(lib, name, flat, ts).Success? <==>
      forall i :: 0 <= i < |ts| ==> RenderTemplate(lib, name, flat, ts[i]).Success?
    decreases |ts|
  {
    if ts != [] {
      var init, last := ts[..|ts| - 1], ts[|ts| - 1];
      RenderAllSuccess(lib, name, flat, init);
      assert forall i :: 0 <= i < |init| ==> init[i] == ts[i];
    }
  }

  /** A loop that succeeds keeps one rendered text per template, in template order. */
  lemma {:induction false} RenderAllTexts(lib: Library, name: string, flat: map<string, string>, ts: seq<string>)
    requires RenderAll(lib, name, flat, ts).Success?
    ensures var rd := RenderAll(lib, name, flat, ts).value;
      |rd.manifests| == |ts| &&
      forall i :: 0 <= i < |ts| ==>
        RenderTemplate(lib, name, flat, ts[i]).Success? && rd.manifests[i] == RenderTemplate(lib, name, flat, ts[i]).value.text
    decreases |ts|
  {
    if ts != [] {
      var init := ts[..|ts| - 1];
      RenderAllTexts(lib, name, flat, init);
      assert forall i :: 0 <= i < |init| ==> init[i] == ts[i];
    }
  }

  /** A loop that succeeds adds the last template's object, if any, to the objects kept before it. */
  lemma RenderAllLast(lib: Library, name: string, flat: map<string, string>, ts: seq<string>)
    requires ts != [] && RenderAll(lib, name, flat, ts).Success?
    ensures RenderAll(lib, name, flat, ts[..|ts| - 1]).Success? && RenderTemplate(lib, name, flat, ts[|ts| - 1]).Success?
    ensures RenderAll(lib, name, flat, ts).value.objects ==
      RenderAll(lib, name, flat, ts[..|ts| - 1]).value.objects + AsSeq(RenderTemplate(lib, name, flat, ts[|ts| - 1]).value.found)
  {
  }

  lemma KeptOne(lib: Library, name: string, flat: map<string, string>, t: string)
    ensures var one := RenderTemplate(lib, name, flat, t);
      Kept(lib, name, flat, [t]) == if one.Success? then AsSeq(one.value.found) else []
  {
    assert [t][1..] == [];
  }

  /** One more template extends the objects kept before it exactly as the reference definition does. */
  lemma ObjectsExtend(lib: Library, name: string, flat: map<string, string>, ts: seq<string>)
    requires ts != [] && RenderAll(lib, name, flat, ts).Success?
    requires RenderAll(lib, name, flat, ts[..|ts| - 1]).Success?
    requires RenderAll(lib, name, flat, ts[..|ts| - 1]).value.objects == Kept(lib, name, flat, ts[..|ts| - 1])
    ensures RenderAll(lib, name, flat, ts).value.objects == Kept(lib, name, flat, ts)
  {
    var init, last := ts[..|ts| - 1], ts[|ts| - 1];
    RenderAllLast(lib, name, flat, ts);
    KeptOne(lib, name, flat, last);
    KeptAppend(lib, name, flat, init, [last]);
    assert init + [last] == ts;
  }

  /** A loop that succeeds keeps the objects of the non-empty texts, as the reference definition does. */
  lemma {:induction false} RenderAllObjects(lib: Library, name: string, flat: map<string, string>, ts: seq<string>)
    requires RenderAll(lib, name, flat, ts).Success?
    ensures RenderAll(lib, name, flat, ts).value.objects == Kept(lib, name, flat, ts)
    decreases |ts|
  {
    if ts != [] {
      RenderAllLast(lib, name, flat, ts);
      RenderAllObjects(lib, name, flat, ts[..|ts| - 1]);
      ObjectsExtend(lib, name, flat, ts);
    }
  }

  /** A template that fails to parse or execute stops the loop with its error, once all before it rendered. */
  lemma {:induction false} RenderAllFailure(lib: Library, name: string, flat: map<string, string>, ts: seq<string>, i: nat)
    requires i < |ts| && RenderTemplate(lib, name, flat, ts[i]).Failure?
    requires forall j :: 0 <= j < i ==> RenderTemplate(lib, name, flat, ts[j]).Success?
    ensures RenderAll(lib, name, flat, ts) == Failure(RenderTemplate(lib, name, flat, ts[i]).error)
    decreases |ts|
  {
    var init := ts[..|ts| - 1];
    if i == |ts| - 1 {
      RenderAllSuccess(lib, name, flat, init);
    } else {
      RenderAllFailure(lib, name, flat, init, i);
    }
  }

  /** After templates that all rendered, one that fails stops the loop with its error. */
  lemma RenderAllStops(lib: Library, name: string, flat: map<string, string>, ts: seq<string>, i: nat)
    requires i < |ts| && RenderAll(lib, name, flat, ts[..i]).Success?
    requires RenderTemplate(lib, name, flat, ts[i]).Failure?
    ensures RenderAll(lib, name, flat, ts) == Failure(RenderTemplate(lib, name, flat, ts[i]).error)
  {
    RenderAllSuccess(lib, name, flat, ts[..i]);
    RenderAllFailure(lib, name, flat, ts, i);
  }

  /** No more objects than templates; each object decodes a non-empty text one template rendered. */
  lemma {:induction false} KeptFromRenders(lib: Library, name: string, flat: map<string, string>, ts: seq<string>)
    ensures |Kept(lib, name, flat, ts)| <= |ts|
    ensures forall o :: o in Kept(lib, name, flat, ts) ==>
      o.manifest != "" && exists i :: 0 <= i < |ts| && RenderTemplate(lib, name, flat, ts[i]) == Success(Rendered(o.manifest, Some(o)))
    decreases |ts|
  {
    if ts != [] {
      KeptFromRenders(lib, name, flat, ts[1..]);
      var first := RenderTemplate(lib, name, flat, ts[0]);
      forall o | o in Kept(lib, name, flat, ts)
        ensures o.manifest != "" && exists i :: 0 <= i < |ts| && RenderTemplate(lib, name, flat, ts[i]) == Success(Rendered(o.manifest, Some(o)))
      {
        if first.Success? && o in AsSeq(first.value.found) {
          assert RenderTemplate(lib, name, flat, ts[0]) == Success(Rendered(o.manifest, Some(o)));
        } else {
          var i :| 0 <= i < |ts[1..]| && RenderTemplate(lib, name, flat, ts[1..][i]) == Success(Rendered(o.manifest, Some(o)));
          assert ts[1..][i] == ts[i + 1];
        }
      }
    }
  }

  /** An empty render, or one that does not decode, adds no object; later templates still count. */
  lemma SkippedTemplate(lib: Library, name: string, flat: map<string, string>, t: string, rest: seq<string>)
    requires RenderTemplate(lib, name, flat, t).Success?
    requires var text := RenderTemplate(lib, name, flat, t).value.text;
      text == "" || ObjectFromManifest(lib, text).Failure?
    ensures Kept(lib, name, flat, [t] + rest) == Kept(lib, name, flat, rest)
  {
    assert ([t] + rest)[1..] == rest;
  }

  /**
   * A built component's objects are those of the custom resource
   * definitions, then roles, cluster roles, service accounts, role bindings,
   * cluster role bindings, mutating and validating webhooks, deployments
   * and services; its manifests hold one text per template.
   */
  lemma ObjectsByCategory(lib: Library, name: string, namespace: string, block: ConfigBlock, rt: ResourceTemplates)
    requires BuildComponent(lib, name, namespace, block, rt).Success?
    ensures var c := BuildComponent(lib, name, namespace, block, rt).value;
      var flat := ConfigFlat(namespace, ComponentConfig(block));
      |c.manifests| == |OrderedTemplates(rt)| &&
      c.objects ==
        Kept(lib, name, flat, rt.customResourceDefinitions) + Kept(lib, name, flat, rt.roles) +
        Kept(lib, name, flat, rt.clusterRoles) + Kept(lib, name, flat, rt.serviceAccounts) +
        Kept(lib, name, flat, rt.roleBindings) + Kept(lib, name, flat, rt.clusterRoleBindings) +
        Kept(lib, name, flat, rt.mutatingWebhooks) + Kept(lib, name, flat, rt.validatingWebhooks) +
        Kept(lib, name, flat, rt.deployments) + Kept(lib, name, flat, rt.services)
  {
    var flat := ConfigFlat(namespace, ComponentConfig(block));
    RenderAllTexts(lib, name, flat, OrderedTemplates(rt));
    RenderAllObjects(lib, name, flat, OrderedTemplates(rt));
    var a := rt.customResourceDefinitions;
    KeptAppend(lib, name, flat, a, rt.roles);
    a := a + rt.roles;
    KeptAppend(lib, name, flat, a, rt.clusterRoles);
    a := a + rt.clusterRoles;
    KeptAppend(lib, name, flat, a, rt.serviceAccounts);
    a := a + rt.serviceAccounts;
    KeptAppend(lib, name, flat, a, rt.roleBindings);
    a := a + rt.roleBindings;
    KeptAppend(lib, name, flat, a, rt.clusterRoleBindings);
    a := a + rt.clusterRoleBindings;
    KeptAppend(lib, name, flat, a, rt.mutatingWebhooks);
    a := a + rt.mutatingWebhooks;
    KeptAppend(lib, name, flat, a, rt.validatingWebhooks);
    a := a + rt.validatingWebhooks;
    KeptAppend(lib, name, flat, a, rt.deployments);
    a := a + rt.deployments;
    KeptAppend(lib, name, flat, a, rt.services);
  }
}
