/**
 * The per-plugin configuration manager (class `PluginConfigManager` of
 * src/config/PluginConfigManager.ts): a one-way Uninitialized -> Initialized lifecycle,
 * and read-only lookups of the stored options.
 */
module ConfigManager {
  import opened Wrappers
  import opened Discord
  import opened PluginUtils
  import opened ConfigTypes
  import opened ConfigInit
  import opened MatchParamsResolver

  class PluginConfigManager {
    const defaultOptions: PluginOptions
    const userInput: ConfigValue
    const levels: PermissionLevels
    /** The plugin's config parser. */
    const parser: ConfigTree -> Result<ConfigTree, string>
    /** `pluginBaseOptionsSchema.safeParse`. */
    const schema: ConfigValue -> Result<UserOptions, string>
    /** `mergeConfig`. */
    const merge: (ConfigTree, ConfigTree) -> ConfigTree
    /** `getMatchingPluginConfig`, with the plugin's custom override criteria functions bound. */
    const matcher: (PluginData, ParsedOptions, MatchParams) -> Result<ConfigTree, string>

    var pluginData: Option<PluginData>
    var initialized: bool
    var parsedOptions: Option<ParsedOptions>

    /** Options are stored exactly when the manager is initialized. */
    ghost predicate Valid()
      reads this
    {
      initialized <==> parsedOptions.Some?
    }

    constructor (
      defaultOptions: PluginOptions,
      userInput: ConfigValue,
      levels: PermissionLevels,
      parser: ConfigTree -> Result<ConfigTree, string>,
      schema: ConfigValue -> Result<UserOptions, string>,
      merge: (ConfigTree, ConfigTree) -> ConfigTree,
      matcher: (PluginData, ParsedOptions, MatchParams) -> Result<ConfigTree, string>)
      ensures Valid()
      ensures this.defaultOptions == defaultOptions && this.userInput == userInput && this.levels == levels
      ensures this.parser == parser && this.schema == schema && this.merge == merge && this.matcher == matcher
      ensures !initialized && parsedOptions == None && pluginData == None
    {
      this.defaultOptions := defaultOptions;
      this.userInput := userInput;
      this.levels := levels;
      this.parser := parser;
      this.schema := schema;
      this.merge := merge;
      this.matcher := matcher;
      pluginData := None;
      initialized := false;
      parsedOptions := None;
    }

    /**
     * `init`: refuses a second call and leaves the state alone; otherwise validates the user
     * input, the base config and every override, and commits only if all of them pass.
     */
    method Init() returns (outcome: Outcome<Failure>)
      requires Valid()
      modifies this`initialized, this`parsedOptions
      ensures Valid()
      ensures old(initialized) ==>
        outcome == Fail(LifecycleError(AlreadyInitializedMessage)) && initialized && parsedOptions == old(parsedOptions)
      ensures !old(initialized) ==>
        match InitOptions(schema, merge, parser, defaultOptions, userInput)
        case Success(stored) => outcome == Pass && initialized && parsedOptions == Some(stored)
        case Failure(failure) => outcome == Fail(failure) && !initialized && parsedOptions == None
    {
      if initialized {
        return Fail(LifecycleError(AlreadyInitializedMessage));
      }

      var userInputParseResult := schema(userInput);
      if userInputParseResult.Failure? {
        return Fail(ConfigValidationError(userInputParseResult.error));
      }
      var parsedUserInput := userInputParseResult.value;
      var config := merge(defaultOptions.config.GetOr(map[]), parsedUserInput.config.GetOr(map[]));
      var parsedValidConfig := parser(config);
      if parsedValidConfig.Failure? {
        return Fail(Rejected(parsedValidConfig.error));
      }

      var overrides := if Replaces(parsedUserInput) then parsedUserInput.overrides.GetOr([])
                       else defaultOptions.overrides.GetOr([]) + parsedUserInput.overrides.GetOr([]);
      var parsedValidOverrides: seq<Override> := [];
      for i := 0 to |overrides|
        invariant parsedValidOverrides == overrides[..i]
        invariant forall j :: 0 <= j < i ==> CheckOverride(merge, parser, config, overrides[j]).None?
      {
        var override := overrides[i];
        if override.config == Absent {
          FirstOverrideFailureAt(merge, parser, config, overrides, i);
          return Fail(ConfigValidationError(OverrideWithoutConfigMessage));
        }
        var overrideConfig := merge(config, override.config.OrElse(map[]));
        // Validated as if merged with the base config; only the unmerged override is kept.
        var overrideParseResult := parser(overrideConfig);
        if overrideParseResult.Failure? {
          FirstOverrideFailureAt(merge, parser, config, overrides, i);
          return Fail(Rejected(overrideParseResult.error));
        }
        parsedValidOverrides := parsedValidOverrides + [override];
      }
      FirstOverrideFailureNone(merge, parser, config, overrides);
      assert parsedValidOverrides == overrides;

      parsedOptions := Some(ParsedOptions(parsedValidConfig.value, parsedValidOverrides));
      initialized := true;
      outcome := Pass;
    }

    /** `getParsedOptions`: the stored options, or "Not initialized" before a successful `init`. */
    function GetParsedOptions(): (r: Result<ParsedOptions, Failure>)
      reads this
      requires Valid()
      ensures r.Success? <==> initialized
      ensures !initialized ==> r == Failure(LifecycleError(NotInitializedMessage))
      ensures initialized ==> Some(r.value) == parsedOptions
    {
      if !initialized then Failure(LifecycleError(NotInitializedMessage)) else Success(parsedOptions.value)
    }

    /** `get`: the stored base config, or "Not initialized" before a successful `init`. */
    function Get(): (r: Result<ConfigTree, Failure>)
      reads this
      requires Valid()
      ensures !initialized ==> r == Failure(LifecycleError(NotInitializedMessage))
      ensures initialized ==> r == Success(parsedOptions.value.config)
    {
      match GetParsedOptions()
      case Failure(e) => Failure(e)
      case Success(options) => Success(options.config)
    }

    /** `setPluginData`: sets the plugin data once; a second call fails and changes nothing. */
    method SetPluginData(data: PluginData) returns (outcome: Outcome<Failure>)
      requires Valid()
      modifies this`pluginData
      ensures Valid()
      ensures old(pluginData).Some? ==>
        outcome == Fail(LifecycleError(PluginDataAlreadySetMessage)) && pluginData == old(pluginData)
      ensures old(pluginData).None? ==> outcome == Pass && pluginData == Some(data)
    {
      if pluginData.Some? {
        return Fail(LifecycleError(PluginDataAlreadySetMessage));
      }
      pluginData := Some(data);
      outcome := Pass;
    }

    /**
     * The result of matching the stored options against `params`: "Not initialized"
     * before a successful `init`, otherwise the matcher's result with a rejection passed on.
     * Every lookup below is stated through it.
     */
    ghost function MatchedWith(params: MatchParams): Result<ConfigTree, Failure>
      reads this
      requires Valid() && pluginData.Some?
    {
      if !initialized then Failure(LifecycleError(NotInitializedMessage))
      else Rejecting(matcher(pluginData.value, parsedOptions.value, params))
    }

    /** `getMatchingConfig`: the stored options matched against the parameters derived from `req`. */
    function GetMatchingConfig(req: MatchRequest): (r: Result<ConfigTree, Failure>)
      reads this
      requires Valid() && pluginData.Some?
      ensures !initialized ==> r == Failure(LifecycleError(NotInitializedMessage))
      ensures r == MatchedWith(ResolveMatchParams(req, levels, pluginData.value))
    {
      var params := ResolveMatchParams(req, levels, pluginData.value);
      match GetParsedOptions()
      case Failure(e) => Failure(e)
      case Success(options) => Rejecting(matcher(pluginData.value, options, params))
    }

    /** `getForMessage`: the message's author, channel (as is, even a thread) and member. */
    function GetForMessage(msg: Message): (r: Result<ConfigTree, Failure>)
      reads this
      requires Valid() && pluginData.Some?
      ensures r == MatchedWith(MatchParams(
        if msg.member.Some? then MemberLevel(levels, pluginData.value, msg.member.value) else None,
        TruthyOrNone(Some(msg.author.id)),
        TruthyOrNone(Some(msg.channel.id)),
        TruthyOrNone(msg.channel.parentId),
        None,
        None,
        if msg.member.Some? then Keys(msg.member.value.roleCache) else []))
    {
      MessageAdapterParams(msg, levels, pluginData.value);
      GetMatchingConfig(MessageRequest(msg, levels, pluginData.value))
    }

    /** `getForInteraction`: everything is derived from the interaction. */
    function GetForInteraction(interaction: Interaction): (r: Result<ConfigTree, Failure>)
      reads this
      requires Valid() && pluginData.Some?
      ensures r == MatchedWith(ResolveMatchParams(InteractionRequest(interaction), levels, pluginData.value))
    {
      GetMatchingConfig(InteractionRequest(interaction))
    }

    /** `getForChannel`: the channel's id and parent id only. */
    function GetForChannel(channel: Channel): (r: Result<ConfigTree, Failure>)
      reads this
      requires Valid() && pluginData.Some?
      ensures r == MatchedWith(
        MatchParams(None, None, TruthyOrNone(Some(channel.id)), TruthyOrNone(channel.parentId), None, None, []))
    {
      ChannelAdapterParams(channel, levels, pluginData.value);
      GetMatchingConfig(ChannelRequest(channel))
    }

    /** `getForUser`: the user's id only. */
    function GetForUser(user: User): (r: Result<ConfigTree, Failure>)
      reads this
      requires Valid() && pluginData.Some?
      ensures r == MatchedWith(MatchParams(None, TruthyOrNone(Some(user.id)), None, None, None, None, []))
    {
      UserAdapterParams(user, levels, pluginData.value);
      GetMatchingConfig(UserRequest(user))
    }

    /** `getForMember`: the member's level, its user's id and its role keys. */
    function GetForMember(member: FullGuildMember): (r: Result<ConfigTree, Failure>)
      reads this
      requires Valid() && pluginData.Some?
      ensures r == MatchedWith(MatchParams(MemberLevel(levels, pluginData.value, member),
        TruthyOrNone(Some(member.user.id)), None, None, None, None, Keys(member.roleCache)))
    {
      MemberAdapterParams(member, levels, pluginData.value);
      GetMatchingConfig(MemberRequest(member, levels, pluginData.value))
    }
  }

  /** A rejection of the matcher (from a custom criteria function) is passed on. */
  function Rejecting(matched: Result<ConfigTree, string>): (r: Result<ConfigTree, Failure>)
    ensures r.Success? <==> matched.Success?
    ensures matched.Success? ==> r.value == matched.value
    ensures matched.Failure? ==> r.error == Rejected(matched.error)
  {
    match matched
    case Success(config) => Success(config)
    case Failure(msg) => Failure(Rejected(msg))
  }

  /**
   * A client of the lifecycle: `get` fails before `init`, `init` runs once, a second `init`
   * fails and leaves the stored options as they were.
   */
  method InitOnce(
    defaultOptions: PluginOptions,
    userInput: ConfigValue,
    levels: PermissionLevels,
    parser: ConfigTree -> Result<ConfigTree, string>,
    schema: ConfigValue -> Result<UserOptions, string>,
    merge: (ConfigTree, ConfigTree) -> ConfigTree,
    matcher: (PluginData, ParsedOptions, MatchParams) -> Result<ConfigTree, string>)
    returns (first: Outcome<Failure>, second: Outcome<Failure>, config: Result<ConfigTree, Failure>)
    ensures first.Pass? <==> InitOptions(schema, merge, parser, defaultOptions, userInput).Success?
    ensures second.Fail?
    ensures first.Pass? ==> second == Fail(LifecycleError(AlreadyInitializedMessage)) &&
                            config == Success(InitOptions(schema, merge, parser, defaultOptions, userInput).value.config)
    ensures first.Fail? ==> second == first && config == Failure(LifecycleError(NotInitializedMessage))
  {
    var manager := new PluginConfigManager(defaultOptions, userInput, levels, parser, schema, merge, matcher);
    assert manager.Get() == Failure(LifecycleError(NotInitializedMessage));
    first := manager.Init();
    second := manager.Init();
    config := manager.Get();
  }
}
