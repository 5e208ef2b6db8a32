# Knub plugin configuration manager, in Dafny

This project models the per-plugin configuration manager of Knub, a Discord bot
framework (`PluginConfigManager`), together with the permission-level helpers it uses
(`pluginUtils`). It proves properties of that model:

- **Lifecycle.** `init` moves the manager from uninitialized to initialized once. It
  assembles the override list (the user's overrides alone in replace mode, otherwise the
  defaults followed by the user's). Each override is validated by merging its delta onto
  the raw base config and running the plugin's parser. The validated overrides are stored
  unmerged, and the state is committed only when every step succeeds. `get` fails with
  "Not initialized" until then. A second `init` fails with "Already initialized" and
  changes nothing.
- **Context parameters.** `getMatchingConfig` turns a request into canonical match
  parameters. Each field has its own ordered chain of candidates taken from the explicit
  fields, the member, the message, the channel and the interaction. The `||` chains skip
  falsy ids such as the empty string. The `??` chains keep an explicit `false` or `0`. The
  `getFor*` adapters build a request from a single object.
- **Permission levels.** The guild owner always has level 99999. Anyone else gets the
  level of the *first* entry of the levels that names their id or one of their roles, or
  0 when no entry does.

Modules: `Wrappers` (Option/Result/Outcome), `Discord` (the few discord.js fields that
are read), `PluginUtils` (src/plugins/pluginUtils.ts), `ConfigTypes`, `MatchParamsResolver`
(the pure part of `getMatchingConfig` and the `getFor*` requests), `ConfigInit` (what
`init` computes, as functions) and `ConfigManager` (the class, whose `Init` runs the
source's loop over the overrides).

The collaborators `PluginConfigManager` imports from `./configUtils` and `./configTypes`, and
the plugin's parser, are passed to the manager's constructor as functions. Nothing is assumed about what they compute. Because
they are Dafny functions, though, each is taken to be total and deterministic, with no
side effects:
- `mergeConfig`;
- `pluginBaseOptionsSchema.safeParse`;
- the plugin's `parser`;
- `getMatchingPluginConfig`, with the plugin's custom override criteria functions bound.

A rejection from the parser or the matcher is modelled as a `Failure` result. `async` and
`await` are sequential calls.

Where the code's comments and a plain reading of the chains differ, the model follows the
code:
- The message fallbacks for `categoryId` (src/config/PluginConfigManager.ts:176) apply to
  any message channel, threads included. So a thread whose parent is not cached gets its
  parent channel's id as the category.
- The interaction fallback for `channelId` (line 163) has no thread-to-parent step, so an
  interaction in a thread reports the thread's own id as the channel (`ThreadInteractionOnly`).
- `getForMessage` and `getForChannel` pass the channel's own id even for a thread, and set
  no thread id (`MessageAdapterParams`, `ChannelAdapterParams`).

## Model

| member | source | states |
|---|---|---|
| `PluginUtils.Keys` | src/plugins/pluginUtils.ts:80 | the keys of a Map, in order: same length, i-th key at position i |
| `PluginUtils.CachedRoleIds` | src/plugins/pluginUtils.ts:16 | the ids of the cached roles (the values, not the keys), in iteration order |
| `PluginUtils.MemberRoles` | src/plugins/pluginUtils.ts:13-17 | a role array is returned unchanged; otherwise the ids of the cached roles, element by element and in order |
| `PluginUtils.MemberId` | src/plugins/pluginUtils.ts:24 | a member with an `id` property is identified by it, otherwise by its user's id |
| `PluginUtils.EntryApplies` | src/plugins/pluginUtils.ts:31 | definition: an entry applies when its key is the member's id or one of its role ids |
| `PluginUtils.FirstApplicableLevel` | src/plugins/pluginUtils.ts:30-36 | definition of the early-return scan; characterised by `FirstApplicableAt`, `FirstApplicableNone` and `FirstApplicableLevelIsAnEntry` |
| `PluginUtils.FirstApplicableAt` | src/plugins/pluginUtils.ts:30-34 | the scan returns the level of the first entry whose key is the member's id or one of its roles, whatever follows it |
| `PluginUtils.FirstApplicableNone` | src/plugins/pluginUtils.ts:30-36 | the scan finds nothing if and only if no entry's key is the member's id or one of its roles |
| `PluginUtils.FirstApplicableLevelIsAnEntry` | src/plugins/pluginUtils.ts:30-34 | a level the scan finds is the level of some entry |
| `PluginUtils.GetMemberLevel` | src/plugins/pluginUtils.ts:19-37 | the guild owner gets 99999 whatever the levels say; anyone else gets 0 or the level of some entry |
| `PluginUtils.MemberLevelFirstMatch` | src/plugins/pluginUtils.ts:29-34 | a non-owner gets the level of the first applicable entry in sequence order |
| `PluginUtils.MemberLevelNoMatch` | src/plugins/pluginUtils.ts:30-36 | a non-owner whom no entry names, directly or through a role, gets 0 |
| `PluginUtils.MemberLevelIsNotTheMaximum` | src/plugins/pluginUtils.ts:30-34 | with levels roleA: 5 then roleB: 10, a member holding both gets 5: declaration order, not the maximum |
| `PluginUtils.IsGuildContext` | src/plugins/pluginUtils.ts:39-42 | holds exactly when the context's `guildId` is neither null nor undefined |
| `PluginUtils.IsGlobalContext` | src/plugins/pluginUtils.ts:44-46 | holds exactly when `guildId` is missing, the negation of `IsGuildContext` |
| `PluginUtils.DefaultGetConfig` | src/plugins/pluginUtils.ts:69-71 | the default config is the empty object |
| `PluginUtils.DefaultGetEnabledGuildPlugins` | src/plugins/pluginUtils.ts:76-81 | every name of the guild plugin map is enabled, in map order |
| `MatchParamsResolver.FirstTruthy` | src/config/PluginConfigManager.ts:138-149 | an or-chain yields null or one of its candidates that is a non-empty id |
| `MatchParamsResolver.FirstTruthyAt` | src/config/PluginConfigManager.ts:138-193 | the first truthy candidate of a chain wins over every later one |
| `MatchParamsResolver.FirstTruthyNone` | src/config/PluginConfigManager.ts:138-193 | a chain yields null if and only if no candidate is truthy |
| `MatchParamsResolver.FirstTruthyOnly` | src/config/PluginConfigManager.ts:138-193 | with one candidate present, the chain yields it when truthy and null otherwise |
| `MatchParamsResolver.FirstTruthyOfTwo` | src/config/PluginConfigManager.ts:151-181 | with two candidates present, the chain reduces to those two, in the same order |
| `MatchParamsResolver.FirstSome` | src/config/PluginConfigManager.ts:196-200 | a `??` chain yields null or one of its candidates |
| `MatchParamsResolver.FirstSomeAt` | src/config/PluginConfigManager.ts:196-203 | the first present candidate wins, even `false` |
| `MatchParamsResolver.MemberLevel` | src/config/PluginConfigManager.ts:115-121 | null outside a guild plugin; in a guild plugin exactly `GetMemberLevel` of the member in the plugin's guild, so 99999 for the guild owner |
| `MatchParamsResolver.UserIdCandidates` | src/config/PluginConfigManager.ts:138-149 | definition of the `userId` chain: explicit, member id, member's user id, message author, interaction user |
| `MatchParamsResolver.ChannelIdCandidates` | src/config/PluginConfigManager.ts:151-164 | definition of the `channelId` chain: explicit, non-thread channel, thread's parent, message thread's parent, message channel, interaction channel |
| `MatchParamsResolver.CategoryIdCandidates` | src/config/PluginConfigManager.ts:166-181 | definition of the `categoryId` chain, with the two-hop parent-of-parent step for threads |
| `MatchParamsResolver.ThreadIdCandidates` | src/config/PluginConfigManager.ts:184-193 | definition of the `threadId` chain: explicit, then the id of whichever channel is a thread |
| `MatchParamsResolver.IsThreadCandidates` | src/config/PluginConfigManager.ts:196-200 | definition of the `isThread` chain: explicit, then `isThread()` of the channel, the message's channel, the interaction's channel |
| `MatchParamsResolver.DerivedMember` | src/config/PluginConfigManager.ts:203 | there is no member exactly when the request, its message and its interaction all lack one; precedence in `DerivedMemberPrecedence` |
| `MatchParamsResolver.ResolveMatchParams` | src/config/PluginConfigManager.ts:135-219 | each id field is null or a non-empty id from its own chain; `isThread` is null or one of its candidates; a level is set only with an explicit level or a member; characterised by the lemmas below |
| `MatchParamsResolver.ExplicitIdsWin` | src/config/PluginConfigManager.ts:138-193 | a truthy explicit `userId`, `channelId`, `categoryId` or `threadId` always wins over any derived value |
| `MatchParamsResolver.EmptyExplicitIdFallsThrough` | src/config/PluginConfigManager.ts:138-149 | an explicit empty-string `userId` is skipped and the rest of the chain decides |
| `MatchParamsResolver.ExplicitNullableFieldsKept` | src/config/PluginConfigManager.ts:196-209 | an explicit `level` (even 0), `isThread` (even false) or `memberRoles` (even empty) is kept |
| `MatchParamsResolver.DerivedMemberPrecedence` | src/config/PluginConfigManager.ts:203 | the member is the request's, else the message's, else the interaction's |
| `MatchParamsResolver.LevelFromMember` | src/config/PluginConfigManager.ts:203-206 | without an explicit level, whatever else the request holds, the level is the derived member's level, or null with no member |
| `MatchParamsResolver.RolesFromMember` | src/config/PluginConfigManager.ts:203-209 | without explicit roles, whatever else the request holds, the roles are the derived member's roles, or empty with no member |
| `MatchParamsResolver.LoneChannelUserId` | src/config/PluginConfigManager.ts:138-149 | a lone channel gives no user |
| `MatchParamsResolver.LoneChannelChannelId` | src/config/PluginConfigManager.ts:151-164 | a lone channel is the channel, or for a thread the thread's parent |
| `MatchParamsResolver.LoneChannelCategoryId` | src/config/PluginConfigManager.ts:166-181 | a lone channel's category is its parent, or for a thread its parent's parent |
| `MatchParamsResolver.LoneChannelThreadId` | src/config/PluginConfigManager.ts:184-193 | a lone channel is the thread exactly when it is one |
| `MatchParamsResolver.LoneChannelIsThread` | src/config/PluginConfigManager.ts:196-200 | a lone channel's isThread is its own flag |
| `MatchParamsResolver.LoneMessageUserId` | src/config/PluginConfigManager.ts:138-149 | a lone message's user is its author |
| `MatchParamsResolver.LoneMessageChannelId` | src/config/PluginConfigManager.ts:151-164 | a lone message's channel is its channel, or in a thread the parent, else the thread |
| `MatchParamsResolver.LoneMessageCategoryId` | src/config/PluginConfigManager.ts:166-181 | a lone message's category is its channel's parent, or in a thread the parent's parent, else the thread's parent |
| `MatchParamsResolver.LoneMessageThreadId` | src/config/PluginConfigManager.ts:184-193 | a lone message's thread is its channel exactly when that is a thread |
| `MatchParamsResolver.LoneMessageIsThread` | src/config/PluginConfigManager.ts:196-200 | a lone message's isThread is its channel's flag |
| `MatchParamsResolver.LoneInteractionMember` | src/config/PluginConfigManager.ts:203 | a lone interaction's derived member is the interaction's member |
| `MatchParamsResolver.LoneInteractionUserId` | src/config/PluginConfigManager.ts:138-149 | a lone interaction's user is the interaction's user |
| `MatchParamsResolver.LoneInteractionChannelId` | src/config/PluginConfigManager.ts:151-164 | a lone interaction's channel is its channel's own id, thread or not |
| `MatchParamsResolver.LoneInteractionCategoryId` | src/config/PluginConfigManager.ts:166-181 | a lone interaction's category is its channel's parent, or in a thread the parent's parent, else the thread's parent |
| `MatchParamsResolver.LoneInteractionThreadId` | src/config/PluginConfigManager.ts:184-193 | a lone interaction's thread is its channel exactly when that is a thread |
| `MatchParamsResolver.LoneInteractionIsThread` | src/config/PluginConfigManager.ts:196-200 | a lone interaction's isThread is its channel's flag |
| `MatchParamsResolver.ThreadChannelOnly` | src/config/PluginConfigManager.ts:151-200 | a lone thread channel gives channel = its parent, category = its parent's parent, thread = itself and isThread = true, with nothing else set |
| `MatchParamsResolver.PlainChannelOnly` | src/config/PluginConfigManager.ts:151-200 | a lone non-thread channel gives channel = itself, category = its parent, no thread and isThread = false |
| `MatchParamsResolver.PlainMessageOnly` | src/config/PluginConfigManager.ts:138-200 | a lone message in a non-thread channel gives its author, channel and category, no thread and isThread = false |
| `MatchParamsResolver.ThreadMessageOnly` | src/config/PluginConfigManager.ts:151-200 | a lone message in a thread gives its author as the user, channel = parent (else the thread), category = parent's parent (else the thread's parent) and thread = the thread |
| `MatchParamsResolver.ThreadInteractionOnly` | src/config/PluginConfigManager.ts:138-209 | a lone interaction in a thread gives the interaction's user, the thread's own id as both channel and thread, the parent's parent (else the thread's parent) as category, isThread = true, and the level and roles of the interaction's member |
| `MatchParamsResolver.PlainInteractionOnly` | src/config/PluginConfigManager.ts:138-209 | a lone interaction in a non-thread channel gives the interaction's user, the channel, its parent as category, no thread, isThread = false, and the level and roles of the interaction's member |
| `MatchParamsResolver.MessageRequest` | src/config/PluginConfigManager.ts:229-238 | definition of the request `getForMessage` builds; its parameters are in `MessageAdapterParams` |
| `MatchParamsResolver.InteractionRequest` | src/config/PluginConfigManager.ts:240-242 | definition: the interaction alone |
| `MatchParamsResolver.ChannelRequest` | src/config/PluginConfigManager.ts:244-249 | definition of the request `getForChannel` builds; its parameters are in `ChannelAdapterParams` |
| `MatchParamsResolver.UserRequest` | src/config/PluginConfigManager.ts:251-255 | definition of the request `getForUser` builds; its parameters are in `UserAdapterParams` |
| `MatchParamsResolver.MemberRequest` | src/config/PluginConfigManager.ts:257-264 | definition of the request `getForMember` builds; its parameters are in `MemberAdapterParams` |
| `MatchParamsResolver.MessageAdapterParams` | src/config/PluginConfigManager.ts:229-238 | `getForMessage` matches on the author, the channel as is, its parent, and the member's level and role keys (none and empty without a member) |
| `MatchParamsResolver.ChannelAdapterParams` | src/config/PluginConfigManager.ts:244-249 | `getForChannel` matches on the channel's id and parent id only, threads included |
| `MatchParamsResolver.ChannelAdapterOnPlainChannel` | src/config/PluginConfigManager.ts:244-249 | for a non-thread channel `getForChannel` gives the same channel and category as passing the channel object |
| `MatchParamsResolver.UserAdapterParams` | src/config/PluginConfigManager.ts:251-255 | `getForUser` matches on the user id alone |
| `MatchParamsResolver.MemberAdapterParams` | src/config/PluginConfigManager.ts:257-264 | `getForMember` matches on the member's level, its user's id and its role keys |
| `MatchParamsResolver.CacheKeysAreMemberRoles` | src/config/PluginConfigManager.ts:262 | the role keys the adapters list equal `getMemberRoles` when every role is cached under its own id |
| `ConfigInit.ResolveOverrides` | src/config/PluginConfigManager.ts:77-79 | replace mode keeps exactly the user's overrides (or none); otherwise defaults then user overrides, lengths adding up and each part in order |
| `ConfigInit.RawConfig` | src/config/PluginConfigManager.ts:74 | definition: the defaults' config (or `{}`) with the user's config (or `{}`) merged onto it |
| `ConfigInit.CheckOverride` | src/config/PluginConfigManager.ts:81-96 | an override passes if and only if it has a `config` property and the parser accepts its delta merged onto the raw base config; without the property it fails with the source's validation message |
| `ConfigInit.FirstOverrideFailure` | src/config/PluginConfigManager.ts:81-98 | the loop's outcome: none for no overrides, and never a lifecycle error; characterised by `FirstOverrideFailureAt` and `FirstOverrideFailureNone` |
| `ConfigInit.FirstOverrideFailureAt` | src/config/PluginConfigManager.ts:81-98 | the first refused override decides how validation fails |
| `ConfigInit.FirstOverrideFailureNone` | src/config/PluginConfigManager.ts:81-98 | validation passes if and only if every override passes its check |
| `ConfigInit.InitOptions` | src/config/PluginConfigManager.ts:68-104 | a schema rejection gives a ConfigValidationError with the schema's message; a first `init` never fails with a lifecycle error; on success one override is stored per resolved override |
| `ConfigInit.InitSucceedsIff` | src/config/PluginConfigManager.ts:68-98 | a first `init` succeeds if and only if the schema, the base parse and every override check (against the raw, unparsed base config) succeed |
| `ConfigInit.InitStoresUnmergedOverrides` | src/config/PluginConfigManager.ts:74-103 | after success the stored config is the parser's output on the merged defaults and user config, and the stored overrides are the resolved list, unmerged and in order |
| `ConfigInit.InitFailsAtFirstBadOverride` | src/config/PluginConfigManager.ts:81-98 | the first refused override aborts `init` with its own failure; a missing `config` property with a ConfigValidationError |
| `ConfigManager.PluginConfigManager.constructor` | src/config/PluginConfigManager.ts:48-61 | a new manager keeps its inputs, is not initialized, has no options and no plugin data |
| `ConfigManager.PluginConfigManager.Init` | src/config/PluginConfigManager.ts:63-105 | a second call fails with "Already initialized" and changes nothing; a first call commits the options `InitOptions` gives, or fails with its failure and commits nothing |
| `ConfigManager.PluginConfigManager.GetParsedOptions` | src/config/PluginConfigManager.ts:107-113 | fails with "Not initialized" exactly until an `init` has succeeded, then yields the stored options |
| `ConfigManager.PluginConfigManager.Get` | src/config/PluginConfigManager.ts:131-133 | fails with "Not initialized" before a successful `init`, then yields the stored base config |
| `ConfigManager.PluginConfigManager.SetPluginData` | src/config/PluginConfigManager.ts:123-129 | sets the plugin data once; a second call fails with "Plugin data already set" and changes nothing |
| `ConfigManager.PluginConfigManager.GetMatchingConfig` | src/config/PluginConfigManager.ts:135-227 | equals `MatchedWith` on the derived parameters: "Not initialized" before `init`, otherwise the matcher's result on the stored options, with a rejection passed on |
| `ConfigManager.PluginConfigManager.GetForMessage` | src/config/PluginConfigManager.ts:229-238 | the matcher's result on the author, the channel as is, its parent, the member's level and role keys |
| `ConfigManager.PluginConfigManager.GetForInteraction` | src/config/PluginConfigManager.ts:240-242 | the matcher's result on the parameters derived from the interaction alone |
| `ConfigManager.PluginConfigManager.GetForChannel` | src/config/PluginConfigManager.ts:244-249 | the matcher's result on the channel's id and parent id alone |
| `ConfigManager.PluginConfigManager.GetForUser` | src/config/PluginConfigManager.ts:251-255 | the matcher's result on the user's id alone |
| `ConfigManager.PluginConfigManager.GetForMember` | src/config/PluginConfigManager.ts:257-264 | the matcher's result on the member's level, user id and role keys |
| `ConfigManager.Rejecting` | src/config/PluginConfigManager.ts:221-226 | the matcher's config is passed through and its rejection becomes the call's failure |
| `ConfigManager.InitOnce` | src/config/PluginConfigManager.ts:63-133 | the first `init` passes exactly when the options check succeeds; after a successful `init` a second one fails with "Already initialized" and `get` returns the stored config; after a failed `init` a retry runs the checks again and, with deterministic collaborators, fails with the same error, and `get` still fails with "Not initialized" |

## Left out

- `mergeConfig`, `getMatchingPluginConfig` (with the override matching and custom criteria
  functions), `pluginBaseOptionsSchema` and the plugin's parser: configUtils and
  configTypes are not part of this model. They are constructor parameters, and nothing
  is assumed about what they compute, so merge identity, right bias and override matching are not proved.
- The collaborators (`mergeConfig`, the schema check, the parser, the matcher) are modelled
  as pure functions. A parser or criteria function that keeps state, or that answers
  differently on a later call, is not captured. In particular, the source's guard does not
  refuse a second `init` after a failed one. Such a retry calls the parser again, and the
  model assumes it answers as before.
- `isGuildPluginData` is not part of this model: `PluginData` is either guild data with
  its guild or global data, and a guild plugin is one with guild data.
- `ConfigManager.PluginConfigManager.GetMatchingConfig`: requires plugin data to be set, as
  the source's `this.pluginData!` assumes; what the source does when it is not set is not
  modelled. The `getFor*` functions have the same requirement.
- Permission levels are the sequence `Object.entries` yields. JavaScript lists keys that
  look like array indices first, in numeric order; the model takes the sequence as given
  and does not reproduce that reordering.
- The `console.debug` branch of `init` (src/config/PluginConfigManager.ts:85-92) only
  writes a log line and is left out.
- Concurrency: overlapping `init` calls and the asynchronous suspension points of the
  parser and the custom criteria functions are not modelled; calls run to completion in
  order.
- discord.js objects carry only the fields the manager reads. `Message.author` and
  `Message.channel` are always present, as discord.js declares them.
- `isGuildBlueprintByContext`, `isGlobalBlueprintByContext` and `PluginPublicInterface`
  (src/plugins/pluginUtils.ts:48-63) only narrow types and are left out.
- src/Queue.ts (timers and promise scheduling) and src/events/BasePluginEventManager.ts
  (event-listener plumbing) are not part of this model.
