/** The values the configuration manager stores and passes around. */
module ConfigTypes {
  import opened Wrappers
  import opened Discord

  /** A JSON-like value; the manager never looks inside one. */
  datatype ConfigValue =
    | Null
    | Bool(b: bool)
    | Number(n: int)
    | Text(s: string)
    | List(items: seq<ConfigValue>)
    | Object(fields: map<string, ConfigValue>)

  /** A configuration object (or a partial one, for a delta). */
  type ConfigTree = map<string, ConfigValue>

  /**
   * An object property as JavaScript distinguishes it: `Absent` fails `"key" in obj`,
   * `Nullish` passes it but holds null or undefined, `Present` holds a value.
   */
  datatype Field<+T> = Absent | Nullish | Present(value: T) {
    /** The `??` operator on the property. */
    function OrElse(default: T): T {
      match this
      case Present(v) => v
      case _ => default
    }
  }

  /** An override: its criteria (opaque here) and its configuration delta. */
  datatype Override = Override(criteria: ConfigTree, config: Field<ConfigTree>)

  /** A plugin's compiled-in `PluginOptions`: both parts may be missing. */
  datatype PluginOptions = PluginOptions(config: Option<ConfigTree>, overrides: Option<seq<Override>>)

  /** The user's options as the base-options schema hands them back. */
  datatype UserOptions = UserOptions(
    config: Option<ConfigTree>,
    overrides: Option<seq<Override>>,
    replaceDefaultOverrides: Option<bool>)

  /** The options `init` stores: the parsed base config and the validated, unmerged overrides. */
  datatype ParsedOptions = ParsedOptions(config: ConfigTree, overrides: seq<Override>)

  /** The canonical parameters overrides are matched against. */
  datatype MatchParams = MatchParams(
    level: Option<int>,
    userId: Option<string>,
    channelId: Option<string>,
    categoryId: Option<string>,
    threadId: Option<string>,
    isThread: Option<bool>,
    memberRoles: seq<string>)

  /** The data of the plugin that owns the manager: guild plugins know their guild. */
  datatype PluginData = GuildPluginData(guild: Guild) | GlobalPluginData

  /** What the manager's operations throw or reject with. */
  datatype Failure =
    | LifecycleError(message: string)        // a plain `Error`
    | ConfigValidationError(message: string)
    | Rejected(message: string)              // a rejection passed on from the parser or a criteria function

  const AlreadyInitializedMessage := "Already initialized"
  const NotInitializedMessage := "Not initialized"
  const PluginDataAlreadySetMessage := "Plugin data already set"
  const OverrideWithoutConfigMessage := "Overrides must include the config property"
}
