/**
 * What `PluginConfigManager.init` computes (src/config/PluginConfigManager.ts), as
 * functions of its inputs. The schema check, `mergeConfig` and the plugin's parser are
 * not part of this model: they are passed in as functions.
 */
module ConfigInit {
  import opened Wrappers
  import opened ConfigTypes

  /** `replaceDefaultOverrides` is truthy. */
  predicate Replaces(user: UserOptions) {
    user.replaceDefaultOverrides == Some(true)
  }

  /**
   * The overrides `init` validates and stores: the user's alone in replace mode, otherwise
   * the defaults followed by the user's.
   */
  function ResolveOverrides(defaults: PluginOptions, user: UserOptions): (r: seq<Override>)
    ensures Replaces(user) ==> r == user.overrides.GetOr([])
    ensures !Replaces(user) ==>
      var d := defaults.overrides.GetOr([]);
      var u := user.overrides.GetOr([]);
      |r| == |d| + |u| && r[..|d|] == d && r[|d|..] == u
  {
    if Replaces(user) then user.overrides.GetOr([])
    else defaults.overrides.GetOr([]) + user.overrides.GetOr([])
  }

  /** The raw base config: the defaults' config with the user's merged onto it. */
  function RawConfig(merge: (ConfigTree, ConfigTree) -> ConfigTree, defaults: PluginOptions, user: UserOptions): ConfigTree {
    merge(defaults.config.GetOr(map[]), user.config.GetOr(map[]))
  }

  /**
   * Why one override is refused, if it is: it has no `config` property, or the parser
   * rejects its delta merged onto the raw base config.
   */
  function CheckOverride(
    merge: (ConfigTree, ConfigTree) -> ConfigTree,
    parser: ConfigTree -> Result<ConfigTree, string>,
    config: ConfigTree,
    override: Override): (r: Option<Failure>)
    ensures r.None? <==> override.config != Absent && parser(merge(config, override.config.OrElse(map[]))).Success?
    ensures override.config == Absent ==> r == Some(ConfigValidationError(OverrideWithoutConfigMessage))
    ensures r.Some? ==> !r.value.LifecycleError?
  {
    if override.config == Absent then Some(ConfigValidationError(OverrideWithoutConfigMessage))
    else match parser(merge(config, override.config.OrElse(map[])))
      case Failure(msg) => Some(Rejected(msg))
      case Success(_) => None
  }

  /** The failure of the first refused override, in order; `None` if all pass. */
  function FirstOverrideFailure(
    merge: (ConfigTree, ConfigTree) -> ConfigTree,
    parser: ConfigTree -> Result<ConfigTree, string>,
    config: ConfigTree,
    overrides: seq<Override>): (r: Option<Failure>)
    ensures r.Some? ==> !r.value.LifecycleError?
    ensures overrides == [] ==> r == None
  {
    if overrides == [] then None
    else if CheckOverride(merge, parser, config, overrides[0]).Some? then CheckOverride(merge, parser, config, overrides[0])
    else FirstOverrideFailure(merge, parser, config, overrides[1..])
  }

  /** The first refused override decides the failure. */
  lemma {:induction false} FirstOverrideFailureAt(
    merge: (ConfigTree, ConfigTree) -> ConfigTree,
    parser: ConfigTree -> Result<ConfigTree, string>,
    config: ConfigTree,
    overrides: seq<Override>,
    k: nat)
    requires k < |overrides| && CheckOverride(merge, parser, config, overrides[k]).Some?
    requires forall j :: 0 <= j < k ==> CheckOverride(merge, parser, config, overrides[j]).None?
    ensures FirstOverrideFailure(merge, parser, config, overrides) == CheckOverride(merge, parser, config, overrides[k])
  {
    if k > 0 {
      assert CheckOverride(merge, parser, config, overrides[0]).None?;
      FirstOverrideFailureAt(merge, parser, config, overrides[1..], k - 1);
    }
  }

  /** No override is refused exactly when every override passes its check. */
  lemma {:induction false} FirstOverrideFailureNone(
    merge: (ConfigTree, ConfigTree) -> ConfigTree,
    parser: ConfigTree -> Result<ConfigTree, string>,
    config: ConfigTree,
    overrides: seq<Override>)
    ensures FirstOverrideFailure(merge, parser, config, overrides).None? <==>
            forall j :: 0 <= j < |overrides| ==> CheckOverride(merge, parser, config, overrides[j]).None?
  {
    if overrides != [] {
      FirstOverrideFailureNone(merge, parser, config, overrides[1..]);
      assert forall j :: 1 <= j < |overrides| ==> overrides[j] == overrides[1..][j - 1];
    }
  }

  /**
   * The outcome of a first `init`: the options it commits, or why it aborts. The schema
   * check comes first, then the parse of the raw base config, then each override in order.
   */
  function InitOptions(
    schema: ConfigValue -> Result<UserOptions, string>,
    merge: (ConfigTree, ConfigTree) -> ConfigTree,
    parser: ConfigTree -> Result<ConfigTree, string>,
    defaults: PluginOptions,
    userInput: ConfigValue): (r: Result<ParsedOptions, Failure>)
    ensures schema(userInput).Failure? ==> r == Failure(ConfigValidationError(schema(userInput).error))
    ensures r.Failure? ==> !r.error.LifecycleError?
    ensures r.Success? ==> |r.value.overrides| == |ResolveOverrides(defaults, schema(userInput).value)|
  {
    match schema(userInput)
    case Failure(msg) => Failure(ConfigValidationError(msg))
    case Success(user) =>
      var config := RawConfig(merge, defaults, user);
      match parser(config)
      case Failure(msg) => Failure(Rejected(msg))
      case Success(parsedConfig) =>
        var overrides := ResolveOverrides(defaults, user);
        match FirstOverrideFailure(merge, parser, config, overrides)
        case Some(failure) => Failure(failure)
        case None => Success(ParsedOptions(parsedConfig, overrides))
  }

  /**
   * `init` succeeds exactly when the schema accepts the input, the parser accepts the raw
   * base config, and every resolved override has a `config` property and is accepted by
   * the parser once merged onto the raw (not the parsed) base config.
   */
  lemma InitSucceedsIff(
    schema: ConfigValue -> Result<UserOptions, string>,
    merge: (ConfigTree, ConfigTree) -> ConfigTree,
    parser: ConfigTree -> Result<ConfigTree, string>,
    defaults: PluginOptions,
    userInput: ConfigValue)
    ensures InitOptions(schema, merge, parser, defaults, userInput).Success? <==>
      && schema(userInput).Success?
      && var user := schema(userInput).value;
         var config := RawConfig(merge, defaults, user);
         var overrides := ResolveOverrides(defaults, user);
      && parser(config).Success?
      && forall j :: 0 <= j < |overrides| ==>
           overrides[j].config != Absent && parser(merge(config, overrides[j].config.OrElse(map[]))).Success?
  {
    if schema(userInput).Success? {
      var user := schema(userInput).value;
      FirstOverrideFailureNone(merge, parser, RawConfig(merge, defaults, user), ResolveOverrides(defaults, user));
    }
  }

  /**
   * After a successful `init` the stored config is the parser's output on the raw base
   * config, and the stored overrides are the resolved ones, unmerged and in order.
   */
  lemma InitStoresUnmergedOverrides(
    schema: ConfigValue -> Result<UserOptions, string>,
    merge: (ConfigTree, ConfigTree) -> ConfigTree,
    parser: ConfigTree -> Result<ConfigTree, string>,
    defaults: PluginOptions,
    userInput: ConfigValue)
    requires InitOptions(schema, merge, parser, defaults, userInput).Success?
    ensures var stored := InitOptions(schema, merge, parser, defaults, userInput).value;
            var user := schema(userInput).value;
      && parser(RawConfig(merge, defaults, user)) == Success(stored.config)
      && stored.overrides == ResolveOverrides(defaults, user)
  {
  }

  /**
   * When the schema and the base parse succeed, the first refused override aborts `init`
   * with its own failure; one without a `config` property with a `ConfigValidationError`.
   */
  lemma InitFailsAtFirstBadOverride(
    schema: ConfigValue -> Result<UserOptions, string>,
    merge: (ConfigTree, ConfigTree) -> ConfigTree,
    parser: ConfigTree -> Result<ConfigTree, string>,
    defaults: PluginOptions,
    userInput: ConfigValue,
    k: nat)
    requires schema(userInput).Success?
    requires parser(RawConfig(merge, defaults, schema(userInput).value)).Success?
    requires var user := schema(userInput).value; var overrides := ResolveOverrides(defaults, user);
      && k < |overrides|
      && CheckOverride(merge, parser, RawConfig(merge, defaults, user), overrides[k]).Some?
      && forall j :: 0 <= j < k ==> CheckOverride(merge, parser, RawConfig(merge, defaults, user), overrides[j]).None?
    ensures var user := schema(userInput).value; var overrides := ResolveOverrides(defaults, user);
      && InitOptions(schema, merge, parser, defaults, userInput) ==
           Failure(CheckOverride(merge, parser, RawConfig(merge, defaults, user), overrides[k]).value)
      && (overrides[k].config == Absent ==>
           InitOptions(schema, merge, parser, defaults, userInput) == Failure(ConfigValidationError(OverrideWithoutConfigMessage)))
  {
    var user := schema(userInput).value;
    FirstOverrideFailureAt(merge, parser, RawConfig(merge, defaults, user), ResolveOverrides(defaults, user), k);
  }
}
