/** Permission-level helpers and context predicates of src/plugins/pluginUtils.ts. */
module PluginUtils {
  import opened Wrappers
  import opened Discord
  import opened ConfigTypes

  /** The level the guild owner always has. */
  const OwnerLevel: int := 99999

  /**
   * Permission levels as `Object.entries` enumerates them: (user or role id, level)
   * pairs whose order decides which entry wins.
   */
  type PermissionLevels = seq<(string, int)>

  /** The keys of a sequence of entries, in order (`Array.from(map.keys())`). */
  function Keys<K, V>(entries: seq<(K, V)>): (r: seq<K>)
    ensures |r| == |entries|
    ensures forall i :: 0 <= i < |entries| ==> r[i] == entries[i].0
  {
    if entries == [] then [] else [entries[0].0] + Keys(entries[1..])
  }

  /** The ids of the roles of a role cache, in iteration order. */
  function CachedRoleIds(cache: seq<(string, Role)>): (r: seq<string>)
    ensures |r| == |cache|
    ensures forall i :: 0 <= i < |cache| ==> r[i] == cache[i].1.id
  {
    if cache == [] then [] else [cache[0].1.id] + CachedRoleIds(cache[1..])
  }

  /** `getMemberRoles`: a plain role array unchanged, otherwise the ids of the cached roles. */
  function MemberRoles(member: Member): (r: seq<string>)
    ensures member.InteractionMember? ==> r == member.roleIds
    ensures member.GuildMember? ==>
      |r| == |member.roleCache| && forall i :: 0 <= i < |r| ==> r[i] == member.roleCache[i].1.id
  {
    match member
    case InteractionMember(_, ids) => ids
    case GuildMember(_, _, cache) => CachedRoleIds(cache)
  }

  /** The member's id: its own `id` when it has that property, else its user's id. */
  function MemberId(member: Member): (r: string)
    ensures member.GuildMember? ==> r == member.id
    ensures member.InteractionMember? ==> r == member.user.id
  {
    match member
    case GuildMember(id, _, _) => id
    case InteractionMember(user, _) => user.id
  }

  /** Whether a levels entry applies to a member with this id and these roles. */
  predicate EntryApplies(entry: (string, int), memberId: string, roles: seq<string>) {
    memberId == entry.0 || entry.0 in roles
  }

  /** The level of the first applicable entry, scanning in order; `None` if none applies. */
  function FirstApplicableLevel(levels: PermissionLevels, memberId: string, roles: seq<string>): Option<int> {
    if levels == [] then None
    else if EntryApplies(levels[0], memberId, roles) then Some(levels[0].1)
    else FirstApplicableLevel(levels[1..], memberId, roles)
  }

  /** The first applicable entry decides the level, whatever the entries after it say. */
  lemma {:induction false} FirstApplicableAt(levels: PermissionLevels, memberId: string, roles: seq<string>, k: nat)
    requires k < |levels| && EntryApplies(levels[k], memberId, roles)
    requires forall j :: 0 <= j < k ==> !EntryApplies(levels[j], memberId, roles)
    ensures FirstApplicableLevel(levels, memberId, roles) == Some(levels[k].1)
  {
    if k > 0 {
      assert !EntryApplies(levels[0], memberId, roles);
      FirstApplicableAt(levels[1..], memberId, roles, k - 1);
    }
  }

  /** The scan finds nothing exactly when no entry applies. */
  lemma {:induction false} FirstApplicableNone(levels: PermissionLevels, memberId: string, roles: seq<string>)
    ensures FirstApplicableLevel(levels, memberId, roles).None? <==>
            forall j :: 0 <= j < |levels| ==> !EntryApplies(levels[j], memberId, roles)
  {
    if levels != [] {
      FirstApplicableNone(levels[1..], memberId, roles);
      assert forall j :: 1 <= j < |levels| ==> levels[j] == levels[1..][j - 1];
    }
  }

  /**
   * `getMemberLevel`: the owner of the guild has `OwnerLevel`; anyone else has the level
   * of the first entry whose key is their id or one of their roles, or 0.
   */
  function GetMemberLevel(levels: PermissionLevels, member: Member, guild: Guild): (r: int)
    ensures MemberId(member) == guild.ownerId ==> r == OwnerLevel
    ensures MemberId(member) != guild.ownerId ==>
      r == 0 || exists k :: 0 <= k < |levels| && levels[k].1 == r
  {
    var memberId := MemberId(member);
    if guild.ownerId == memberId then OwnerLevel
    else
      FirstApplicableLevelIsAnEntry(levels, memberId, MemberRoles(member));
      FirstApplicableLevel(levels, memberId, MemberRoles(member)).GetOr(0)
  }

  /** A level found by the scan is the level of some entry. */
  lemma {:induction false} FirstApplicableLevelIsAnEntry(levels: PermissionLevels, memberId: string, roles: seq<string>)
    ensures FirstApplicableLevel(levels, memberId, roles).Some? ==>
      exists k :: 0 <= k < |levels| && levels[k].1 == FirstApplicableLevel(levels, memberId, roles).value
  {
    if levels != [] && !EntryApplies(levels[0], memberId, roles) {
      FirstApplicableLevelIsAnEntry(levels[1..], memberId, roles);
      if FirstApplicableLevel(levels[1..], memberId, roles).Some? {
        var k :| 0 <= k < |levels[1..]| && levels[1..][k].1 == FirstApplicableLevel(levels[1..], memberId, roles).value;
        assert levels[k + 1].1 == levels[1..][k].1;
      }
    }
  }

  /** A non-owner gets the level of the first entry that names them or one of their roles. */
  lemma MemberLevelFirstMatch(levels: PermissionLevels, member: Member, guild: Guild, k: nat)
    requires MemberId(member) != guild.ownerId
    requires k < |levels| && EntryApplies(levels[k], MemberId(member), MemberRoles(member))
    requires forall j :: 0 <= j < k ==> !EntryApplies(levels[j], MemberId(member), MemberRoles(member))
    ensures GetMemberLevel(levels, member, guild) == levels[k].1
  {
    FirstApplicableAt(levels, MemberId(member), MemberRoles(member), k);
  }

  /** A non-owner named by no entry, directly or through a role, has level 0. */
  lemma MemberLevelNoMatch(levels: PermissionLevels, member: Member, guild: Guild)
    requires MemberId(member) != guild.ownerId
    requires forall j :: 0 <= j < |levels| ==> !EntryApplies(levels[j], MemberId(member), MemberRoles(member))
    ensures GetMemberLevel(levels, member, guild) == 0
  {
    FirstApplicableNone(levels, MemberId(member), MemberRoles(member));
  }

  /** Declaration order, not the larger value, breaks ties between two applicable roles. */
  lemma MemberLevelIsNotTheMaximum()
    ensures var member := InteractionMember(User("u"), ["roleA", "roleB"]);
            GetMemberLevel([("roleA", 5), ("roleB", 10)], member, Guild("owner")) == 5
  {
  }

  /** A context of the bot: guild contexts carry a `guildId`, global ones do not. */
  datatype AnyContext = AnyContext(guildId: Option<string>)

  /** `isGuildContext`: the `guildId` is neither null nor undefined. */
  function IsGuildContext(ctx: AnyContext): (r: bool)
    ensures r <==> ctx.guildId != None
  {
    ctx.guildId.Some?
  }

  /** `isGlobalContext`: exactly the contexts that are not guild contexts. */
  function IsGlobalContext(ctx: AnyContext): (r: bool)
    ensures r <==> ctx.guildId == None
    ensures r <==> !IsGuildContext(ctx)
  {
    !IsGuildContext(ctx)
  }

  /** `defaultGetConfig`: an empty configuration object. */
  function DefaultGetConfig(): (r: ConfigTree)
    ensures |r| == 0
  {
    map[]
  }

  /** `defaultGetEnabledGuildPlugins`: every plugin name of the guild plugin map, in order. */
  function DefaultGetEnabledGuildPlugins<P>(ctx: AnyContext, guildPlugins: seq<(string, P)>): (r: seq<string>)
    ensures |r| == |guildPlugins|
    ensures forall i :: 0 <= i < |r| ==> r[i] == guildPlugins[i].0
  {
    Keys(guildPlugins)
  }
}
