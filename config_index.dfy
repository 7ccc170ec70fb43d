/**
 * pulumi/config/index.ts: the variables file (project, prefix, owner), the required
 * `env` key, and the second getResourceName / globalTags built from them.
 */
module ConfigIndex {
  import opened Wrappers
  import Js
  import Files
  import Naming

  /**
   * What `JSON.parse(rawData) as VariableConfig` yields. The cast checks nothing,
   * so each field may be missing (undefined).
   */
  datatype VariableConfig = VariableConfig(project: Option<string>, prefix: Option<string>, owner: Option<string>)

  /** JSON.parse either yields an object or throws a SyntaxError with a message. */
  datatype ParseOutcome = Parsed(config: VariableConfig) | SyntaxError(message: string)

  /** The errors that abort loading this module. */
  datatype LoadError = LoadFailed(message: string) | MissingRequired(key: string)

  /** The module-level constants of index.ts once loaded. */
  datatype IndexConfig = IndexConfig(vars: VariableConfig, environment: string)

  /** The prefix every error of loadVariableConfig starts with. */
  function LoadFailurePrefix(path: string): string {
    "Failed to load variables from " + path + ": "
  }

  /** loadVariableConfig: read and parse the variables file; reading and parsing errors are rethrown with the path. */
  function LoadVariableConfig(fs: Files.FileSystem, path: string, parse: string -> ParseOutcome): (r: Result<VariableConfig, string>)
    ensures r.Success? <==> path in fs.files && parse(fs.files[path]).Parsed?
    ensures r.Success? ==> r.value == parse(fs.files[path]).config
    ensures r.Failure? ==> LoadFailurePrefix(path) <= r.error
    ensures path !in fs.files ==> r.error == LoadFailurePrefix(path) + fs.errorMessage(path)
    ensures path in fs.files && parse(fs.files[path]).SyntaxError? ==>
              r.error == LoadFailurePrefix(path) + parse(fs.files[path]).message
  {
    if path !in fs.files then Failure("Failed to load variables from " + path + ": " + fs.errorMessage(path))
    else match parse(fs.files[path])
      case SyntaxError(m) => Failure("Failed to load variables from " + path + ": " + m)
      case Parsed(c) => Success(c)
  }

  /** Module load: the variables file first (line 21), then `config.require("env")` (line 27). */
  function LoadIndexConfig(fs: Files.FileSystem, path: string, parse: string -> ParseOutcome,
                           config: map<string, string>): (r: Result<IndexConfig, LoadError>)
    ensures r.Success? <==> LoadVariableConfig(fs, path, parse).Success? && "env" in config
    ensures r.Success? ==> r.value.vars == LoadVariableConfig(fs, path, parse).value && r.value.environment == config["env"]
    ensures LoadVariableConfig(fs, path, parse).Failure? ==> r == Failure(LoadFailed(LoadVariableConfig(fs, path, parse).error))
    ensures LoadVariableConfig(fs, path, parse).Success? && "env" !in config ==> r == Failure(MissingRequired("env"))
  {
    match LoadVariableConfig(fs, path, parse)
    case Failure(e) => Failure(LoadFailed(e))
    case Success(vars) =>
      if "env" in config then Success(IndexConfig(vars, config["env"])) else Failure(MissingRequired("env"))
  }

  /** getResourceName of index.ts; a prefix missing from the file renders as "undefined". */
  function GetResourceName(c: IndexConfig, resourceName: string, componentName: Option<string>): (name: string)
    ensures Js.Render(c.vars.prefix) + "-" + c.environment + "-" <= name
  {
    var baseName := Js.Render(c.vars.prefix) + "-" + c.environment + "-" + resourceName;
    if Js.Truthy(componentName) then baseName + "-" + componentName.value else baseName
  }

  /** globalTags: four keys; a value missing from the variables file stays undefined (None). */
  function GlobalTags(c: IndexConfig): (tags: map<string, Option<string>>)
    ensures tags.Keys == {"Project", "Managed By", "Owner", "Environment"}
    ensures tags["Managed By"] == Some("Pulumi") && tags["Environment"] == Some(c.environment)
    ensures tags["Project"] == c.vars.project && tags["Owner"] == c.vars.owner
  {
    map["Project" := c.vars.project, "Managed By" := Some("Pulumi"), "Owner" := c.vars.owner,
        "Environment" := Some(c.environment)]
  }

  /** The two getResourceName functions agree whenever their prefix and environment agree. */
  lemma SameNameAsNaming(c: IndexConfig, s: Naming.Settings, resourceName: string, componentName: Option<string>)
    requires c.vars.prefix == Some(s.prefix) && c.environment == s.environment
    ensures GetResourceName(c, resourceName, componentName) == Naming.ResourceName(s, resourceName, componentName)
  {
  }

  /** The two tag sets agree whenever every configuration value they read agrees. */
  lemma SameTagsAsNaming(c: IndexConfig, s: Naming.Settings)
    requires c.vars.project == Some(s.project) && c.vars.owner == Some(s.owner) && c.environment == s.environment
    ensures forall k :: k in GlobalTags(c) ==> k in Naming.GlobalTags(s) && GlobalTags(c)[k] == Some(Naming.GlobalTags(s)[k])
  {
  }

  /** A variables file without "prefix" is accepted, and every name then starts with "undefined-". */
  lemma {:induction false} MissingPrefixRendersUndefined(fs: Files.FileSystem, path: string, parse: string -> ParseOutcome,
                                                        config: map<string, string>, resourceName: string)
    requires path in fs.files && parse(fs.files[path]).Parsed? && parse(fs.files[path]).config.prefix.None?
    requires "env" in config
    ensures LoadIndexConfig(fs, path, parse, config).Success?
    ensures "undefined-" <= GetResourceName(LoadIndexConfig(fs, path, parse, config).value, resourceName, None)
  {
    var c := LoadIndexConfig(fs, path, parse, config).value;
    assert GetResourceName(c, resourceName, None) == "undefined-" + (c.environment + "-" + resourceName);
  }
}
