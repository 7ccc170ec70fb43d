/**
 * pulumi/config/naming.ts: resource names `prefix-env-resource[-component]` and the
 * global tag set, both computed from the stack configuration.
 */
module Naming {
  import opened Wrappers
  import Js

  /** The four required stack-configuration values naming.ts reads at load time. */
  datatype Settings = Settings(environment: string, prefix: string, project: string, owner: string)

  /** `config.require(key)` failed: the key is not set in the stack configuration. */
  datatype ConfigError = MissingRequired(key: string)

  /** The keys naming.ts requires, in the order it requires them. */
  const RequiredKeys: seq<string> := ["env", "prefix", "project", "owner"]

  /** Loads the settings; the first missing required key, in source order, is the error. */
  function LoadSettings(config: map<string, string>): (r: Result<Settings, ConfigError>)
    ensures r.Success? <==> forall k :: k in RequiredKeys ==> k in config
    ensures r.Success? ==> r.value.environment == config["env"] && r.value.prefix == config["prefix"] &&
                           r.value.project == config["project"] && r.value.owner == config["owner"]
    ensures r.Failure? ==>
      exists i :: 0 <= i < |RequiredKeys| && r.error.key == RequiredKeys[i] &&
        RequiredKeys[i] !in config && forall j :: 0 <= j < i ==> RequiredKeys[j] in config
  {
    if "env" !in config then assert RequiredKeys[0] == "env"; Failure(MissingRequired("env"))
    else if "prefix" !in config then assert RequiredKeys[1] == "prefix"; Failure(MissingRequired("prefix"))
    else if "project" !in config then assert RequiredKeys[2] == "project"; Failure(MissingRequired("project"))
    else if "owner" !in config then assert RequiredKeys[3] == "owner"; Failure(MissingRequired("owner"))
    else Success(Settings(config["env"], config["prefix"], config["project"], config["owner"]))
  }

  /** The separator between name segments. */
  const Sep: string := "-"

  /** The part every name starts with. */
  function NamePrefix(s: Settings): string {
    s.prefix + Sep + s.environment + Sep
  }

  /** getResourceName: the suffix `-component` is added only for a truthy (present, non-empty) component. */
  function ResourceName(s: Settings, resource: string, component: Option<string>): (name: string)
    ensures NamePrefix(s) <= name && |name| > |resource|
  {
    var name := s.prefix + Sep + s.environment + Sep + resource;
    if Js.Truthy(component) then name + Sep + component.value else name
  }

  /** getGlobalTags. */
  function GlobalTags(s: Settings): (tags: map<string, string>)
    ensures tags.Keys == {"Project", "Managed By", "Owner", "Environment"}
    ensures tags["Managed By"] == "Pulumi"
    ensures tags["Project"] == s.project && tags["Owner"] == s.owner && tags["Environment"] == s.environment
  {
    map["Project" := s.project, "Managed By" := "Pulumi", "Owner" := s.owner, "Environment" := s.environment]
  }

  /** Without a component (absent or empty) the name is prefix-env-resource; with one, that name plus -component. */
  lemma NameShape(s: Settings, resource: string, component: Option<string>)
    ensures !Js.Truthy(component) ==> ResourceName(s, resource, component) == s.prefix + "-" + s.environment + "-" + resource
    ensures Js.Truthy(component) ==> ResourceName(s, resource, component) == ResourceName(s, resource, None) + "-" + component.value
    ensures ResourceName(s, resource, Some("")) == ResourceName(s, resource, None)
  {
  }

  /** Names without a component never collide: the resource part can be read back from the name. */
  lemma {:induction false} NameInjective(s: Settings, r1: string, r2: string)
    requires ResourceName(s, r1, None) == ResourceName(s, r2, None)
    ensures r1 == r2
  {
    var p := NamePrefix(s);
    assert ResourceName(s, r1, None) == p + r1 && ResourceName(s, r2, None) == p + r2;
    assert r1 == (p + r1)[|p|..] && r2 == (p + r2)[|p|..];
  }

  /** Over (resource, component) names do collide: ("a-b", none) and ("a", "b") give one name. */
  lemma {:induction false} NameCollision(s: Settings)
    ensures ResourceName(s, "a-b", None) == ResourceName(s, "a", Some("b"))
  {
    assert s.prefix + "-" + s.environment + "-" + "a-b" == s.prefix + "-" + s.environment + "-" + "a" + "-" + "b";
  }

  /** The Environment tag is exactly the environment segment every name carries. */
  lemma {:induction false} TagsAgreeWithNames(s: Settings, resource: string, component: Option<string>)
    ensures s.prefix + "-" + GlobalTags(s)["Environment"] + "-" <= ResourceName(s, resource, component)
  {
    assert NamePrefix(s) <= ResourceName(s, resource, component);
  }
}
