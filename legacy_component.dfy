/**
 * The older component type: a plain struct whose methods all take their
 * receiver by value. Only deployment templates are rendered, the config is
 * flattened without a `namespace` entry, and adding an object changes only
 * the receiver's copy.
 */
module LegacyComponents {
  import opened Wrappers
  import opened Objects
  import opened Foreign
  import opened FlatConfig
  import Components

  /** The texts of the templates in order, or the error of the first that fails to parse or execute. */
  function RenderedTexts(lib: Library, name: string, flat: map<string, string>, ts: seq<string>): Result<seq<string>, string>
    decreases |ts|
  {
    if ts == [] then Success([])
    else
      match RenderedTexts(lib, name, flat, ts[..|ts| - 1])
      case Failure(e) => Failure(e)
      case Success(done) =>
        match Components.TemplateText(lib, name, flat, ts[|ts| - 1])
        case Failure(e) => Failure(e)
        case Success(text) => Success(done + [text])
  }

  /** The flat config of this copy: the config entries alone. */
  function LegacyFlat(config: seq<Entry>): map<string, string> {
    FlattenedTop(config, map[])
  }

  class LegacyComponent {
    var name: string
    var namespace: string
    var config: seq<Entry>
    var unstructuredObjects: seq<Unstructured>
    var deploymentManifests: seq<string>
    var serviceManifests: seq<string>
    var serviceAccountManifests: seq<string>
    var roleManifests: seq<string>
    var roleBindingManifests: seq<string>
    var clusterRoleManifests: seq<string>
    var clusterRoleBindingManifests: seq<string>
    var mutatingWebhookManifests: seq<string>
    var validatingWebhookManifests: seq<string>
    var customResourceDefinitionManifests: seq<string>

    constructor (name: string, namespace: string, config: seq<Entry>, objects: seq<Unstructured>, templates: Components.ResourceTemplates)
      ensures this.name == name && this.namespace == namespace && this.config == config
      ensures unstructuredObjects == objects
      ensures deploymentManifests == templates.deployments && serviceManifests == templates.services
      ensures serviceAccountManifests == templates.serviceAccounts && roleManifests == templates.roles
      ensures roleBindingManifests == templates.roleBindings && clusterRoleManifests == templates.clusterRoles
      ensures clusterRoleBindingManifests == templates.clusterRoleBindings
      ensures mutatingWebhookManifests == templates.mutatingWebhooks && validatingWebhookManifests == templates.validatingWebhooks
      ensures customResourceDefinitionManifests == templates.customResourceDefinitions
    {
      this.name := name;
      this.namespace := namespace;
      this.config := config;
      unstructuredObjects := objects;
      deploymentManifests := templates.deployments;
      serviceManifests := templates.services;
      serviceAccountManifests := templates.serviceAccounts;
      roleManifests := templates.roles;
      roleBindingManifests := templates.roleBindings;
      clusterRoleManifests := templates.clusterRoles;
      clusterRoleBindingManifests := templates.clusterRoleBindings;
      mutatingWebhookManifests := templates.mutatingWebhooks;
      validatingWebhookManifests := templates.validatingWebhooks;
      customResourceDefinitionManifests := templates.customResourceDefinitions;
    }

    function GetName(): string
      reads this
    {
      name
    }

    function GetNamespace(): string
      reads this
    {
      namespace
    }

    function GetUnstructuredObjects(): seq<Unstructured>
      reads this
    {
      unstructuredObjects
    }

    /** GetConfig: every config entry flattened, and no `namespace` entry of its own. */
    method GetConfig() returns (flat: map<string, string>)
      ensures flat == LegacyFlat(config)
    {
      var fm := new FlatMap();
      fm.FlattenEach(config);
      flat := fm.entries;
    }

    /** RenderManifests: one text per deployment template, in order; the other nine categories are never read. */
    method RenderManifests(lib: Library) returns (r: Result<seq<string>, string>)
      ensures r == RenderedTexts(lib, name, LegacyFlat(config), deploymentManifests)
    {
      var rendered: seq<string> := [];
      var i := 0;
      while i < |deploymentManifests|
        invariant 0 <= i <= |deploymentManifests|
        invariant RenderedTexts(lib, name, LegacyFlat(config), deploymentManifests[..i]) == Success(rendered)
      {
        assert deploymentManifests[..i + 1][..i] == deploymentManifests[..i];
        var flat := GetConfig();
        var parseError := lib.parse(name, deploymentManifests[i]);
        if parseError.Some? {
          RenderedTextsSuccess(lib, name, flat, deploymentManifests[..i]);
          RenderedTextsFailure(lib, name, flat, deploymentManifests, i);
          return Failure(parseError.value);
        }
        var text := lib.execute(name, deploymentManifests[i], flat);
        if text.Failure? {
          RenderedTextsSuccess(lib, name, flat, deploymentManifests[..i]);
          RenderedTextsFailure(lib, name, flat, deploymentManifests, i);
          return Failure(text.error);
        }
        rendered := rendered + [text.value];
        i := i + 1;
      }
      assert deploymentManifests[..i] == deploymentManifests;
      r := Success(rendered);
    }

    /**
     * AddUnstructuredObject: the object is appended to the receiver, which
     * is a copy; the component the caller holds keeps its objects.
     */
    method AddUnstructuredObject(o: Unstructured)
      ensures unstructuredObjects == old(unstructuredObjects)
    {
      var receiver := new LegacyComponent(name, namespace, config, unstructuredObjects, Templates());
      receiver.unstructuredObjects := receiver.unstructuredObjects + [o];
    }

    function Templates(): Components.ResourceTemplates
      reads this
    {
      Components.ResourceTemplates(
        deploymentManifests, serviceManifests, serviceAccountManifests, roleManifests, roleBindingManifests,
        clusterRoleManifests, clusterRoleBindingManifests, mutatingWebhookManifests, validatingWebhookManifests,
        customResourceDefinitionManifests)
    }
  }

  /** Adding an object and then listing the objects gives back the list as it was before. */
  method AddThenList(c: LegacyComponent, o: Unstructured) returns (objects: seq<Unstructured>)
    ensures objects == c.unstructuredObjects
    ensures o !in c.unstructuredObjects ==> o !in objects
  {
    c.AddUnstructuredObject(o);
    objects := c.GetUnstructuredObjects();
  }

  /**
   * The render succeeds iff every template parses and executes; it then
   * holds exactly one text per template, in template order.
   */
  lemma {:induction false} RenderedTextsSuccess(lib: Library, name: string, flat: map<string, string>, ts: seq<string>)
    ensures RenderedTexts(lib, name, flat, ts).Success? <==>
      forall i :: 0 <= i < |ts| ==> Components.TemplateText(lib, name, flat, ts[i]).Success?
    ensures RenderedTexts(lib, name, flat, ts).Success? ==>
      |RenderedTexts(lib, name, flat, ts).value| == |ts| &&
      forall i :: 0 <= i < |ts| ==> RenderedTexts(lib, name, flat, ts).value[i] == Components.TemplateText(lib, name, flat, ts[i]).value
    decreases |ts|
  {
    if ts != [] {
      var init := ts[..|ts| - 1];
      RenderedTextsSuccess(lib, name, flat, init);
      assert forall i :: 0 <= i < |init| ==> init[i] == ts[i];
    }
  }

  /** The first template that fails to parse or execute decides the error. */
  lemma {:induction false} RenderedTextsFailure(lib: Library, name: string, flat: map<string, string>, ts: seq<string>, i: nat)
    requires i < |ts| && Components.TemplateText(lib, name, flat, ts[i]).Failure?
    requires forall j :: 0 <= j < i ==> Components.TemplateText(lib, name, flat, ts[j]).Success?
    ensures RenderedTexts(lib, name, flat, ts) == Failure(Components.TemplateText(lib, name, flat, ts[i]).error)
    decreases |ts|
  {
    var init := ts[..|ts| - 1];
    if i == |ts| - 1 {
      RenderedTextsSuccess(lib, name, flat, init);
    } else {
      RenderedTextsFailure(lib, name, flat, init, i);
    }
  }

  /** The newer copy's flat config is this copy's with `namespace` laid underneath. */
  lemma NamespaceOnlyInNewerCopy(namespace: string, config: seq<Entry>)
    ensures Components.ConfigFlat(namespace, config) == map["namespace" := namespace] + LegacyFlat(config)
    ensures "namespace" !in LegacyFlat(config) ==> Components.ConfigFlat(namespace, config)["namespace"] == namespace
  {
    Components.ConfigFlatNamespace(namespace, config);
  }
}
