/**
 * How `getMatchingConfig` turns a request into canonical `MatchParams`
 * (src/config/PluginConfigManager.ts), and the requests the `getFor*` adapters build.
 * Each canonical field has its own ordered list of candidates; the `||` chains take the
 * first truthy candidate, the `??` chains the first one that is not null or undefined.
 */
module MatchParamsResolver {
  import opened Wrappers
  import opened Discord
  import opened PluginUtils
  import opened ConfigTypes

  /** `ExtendedMatchParams`: explicit fields and the objects they may be derived from. */
  datatype MatchRequest = MatchRequest(
    level: Option<int>,
    userId: Option<string>,
    channelId: Option<string>,
    categoryId: Option<string>,
    threadId: Option<string>,
    isThread: Option<bool>,
    memberRoles: Option<seq<string>>,
    member: Option<Member>,
    message: Option<Message>,
    channel: Option<Channel>,
    interaction: Option<Interaction>)

  const EmptyRequest := MatchRequest(None, None, None, None, None, None, None, None, None, None, None)

  /** JavaScript truthiness of an optional id: present and not the empty string. */
  predicate Truthy(s: Option<string>) {
    s.Some? && s.value != ""
  }

  /** The id itself when truthy, else nothing (`x || null`). */
  function TruthyOrNone(s: Option<string>): Option<string> {
    if Truthy(s) then s else None
  }

  /** An `a || b || ... || null` chain over optional ids. */
  function FirstTruthy(candidates: seq<Option<string>>): (r: Option<string>)
    ensures r == None || (Truthy(r) && r in candidates)
  {
    if candidates == [] then None
    else if Truthy(candidates[0]) then candidates[0]
    else FirstTruthy(candidates[1..])
  }

  /** The first truthy candidate wins over every later one. */
  lemma {:induction false} FirstTruthyAt(candidates: seq<Option<string>>, k: nat)
    requires k < |candidates| && Truthy(candidates[k])
    requires forall j :: 0 <= j < k ==> !Truthy(candidates[j])
    ensures FirstTruthy(candidates) == candidates[k]
  {
    if k > 0 {
      assert !Truthy(candidates[0]);
      FirstTruthyAt(candidates[1..], k - 1);
    }
  }

  /** A chain yields null exactly when no candidate is truthy. */
  lemma {:induction false} FirstTruthyNone(candidates: seq<Option<string>>)
    ensures FirstTruthy(candidates) == None <==> forall j :: 0 <= j < |candidates| ==> !Truthy(candidates[j])
  {
    if candidates != [] {
      FirstTruthyNone(candidates[1..]);
      assert forall j :: 1 <= j < |candidates| ==> candidates[j] == candidates[1..][j - 1];
    }
  }

  /** When all candidates but one are absent, the chain yields that one if it is truthy. */
  lemma FirstTruthyOnly(candidates: seq<Option<string>>, k: nat)
    requires k < |candidates|
    requires forall j :: 0 <= j < |candidates| && j != k ==> candidates[j] == None
    ensures FirstTruthy(candidates) == TruthyOrNone(candidates[k])
  {
    if Truthy(candidates[k]) {
      FirstTruthyAt(candidates, k);
    } else {
      FirstTruthyNone(candidates);
    }
  }

  /** When only two candidates may be present, the earlier one wins if truthy. */
  lemma FirstTruthyOfTwo(candidates: seq<Option<string>>, k1: nat, k2: nat)
    requires k1 < k2 < |candidates|
    requires forall j :: 0 <= j < |candidates| && j != k1 && j != k2 ==> candidates[j] == None
    ensures FirstTruthy(candidates) == FirstTruthy([candidates[k1], candidates[k2]])
  {
    if Truthy(candidates[k1]) {
      FirstTruthyAt(candidates, k1);
    } else if Truthy(candidates[k2]) {
      FirstTruthyAt(candidates, k2);
    } else {
      FirstTruthyNone(candidates);
    }
  }

  /** An `a ?? b ?? ... ?? null` chain, or an `||` chain over objects (always truthy). */
  function FirstSome<T>(candidates: seq<Option<T>>): (r: Option<T>)
    ensures r == None || r in candidates
    ensures r.None? <==> forall j :: 0 <= j < |candidates| ==> candidates[j].None?
  {
    if candidates == [] then None
    else if candidates[0].Some? then candidates[0]
    else FirstSome(candidates[1..])
  }

  /** The first present candidate wins, even when it is `false` or `0`. */
  lemma {:induction false} FirstSomeAt<T>(candidates: seq<Option<T>>, k: nat)
    requires k < |candidates| && candidates[k].Some?
    requires forall j :: 0 <= j < k ==> candidates[j] == None
    ensures FirstSome(candidates) == candidates[k]
  {
    if k > 0 {
      FirstSomeAt(candidates[1..], k - 1);
    }
  }

  /** The channel of the request's message, if a message was passed. */
  function MessageChannel(req: MatchRequest): Option<Channel> {
    if req.message.Some? then Some(req.message.value.channel) else None
  }

  /** The channel of the request's interaction, if it has one. */
  function InteractionChannel(req: MatchRequest): Option<Channel> {
    if req.interaction.Some? then req.interaction.value.channel else None
  }

  /** `channel.id`, for any channel. */
  function IdOf(c: Option<Channel>): Option<string> {
    if c.Some? then Some(c.value.id) else None
  }

  /** `channel.parentId`, for any channel. */
  function ParentIdOf(c: Option<Channel>): Option<string> {
    if c.Some? then c.value.parentId else None
  }

  /** `channel.parent?.parentId`: two hops up, from a thread to its category. */
  function GrandparentIdOf(c: Option<Channel>): Option<string> {
    if c.Some? && c.value.parent.Some? then c.value.parent.value.parentId else None
  }

  /** Restricts a candidate to channels that are (or are not) threads. */
  function IfThread(c: Option<Channel>, wantThread: bool, candidate: Option<string>): Option<string> {
    if c.Some? && c.value.isThread == wantThread then candidate else None
  }

  /** `channel.isThread()`, if there is a channel. */
  function IsThreadOf(c: Option<Channel>): Option<bool> {
    if c.Some? then Some(c.value.isThread) else None
  }

  function UserIdCandidates(req: MatchRequest): seq<Option<string>> {
    [ req.userId,
      if req.member.Some? && req.member.value.GuildMember? then Some(req.member.value.id) else None,
      if req.member.Some? then Some(req.member.value.user.id) else None,
      if req.message.Some? then Some(req.message.value.author.id) else None,
      if req.interaction.Some? then Some(req.interaction.value.user.id) else None ]
  }

  function ChannelIdCandidates(req: MatchRequest): seq<Option<string>> {
    [ req.channelId,
      IfThread(req.channel, false, IdOf(req.channel)),
      IfThread(req.channel, true, ParentIdOf(req.channel)),
      IfThread(MessageChannel(req), true, ParentIdOf(MessageChannel(req))),
      IdOf(MessageChannel(req)),
      IdOf(InteractionChannel(req)) ]
  }

  function CategoryIdCandidates(req: MatchRequest): seq<Option<string>> {
    [ req.categoryId,
      IfThread(req.channel, false, ParentIdOf(req.channel)),
      IfThread(req.channel, true, GrandparentIdOf(req.channel)),
      IfThread(MessageChannel(req), true, GrandparentIdOf(MessageChannel(req))),
      ParentIdOf(MessageChannel(req)),
      IfThread(InteractionChannel(req), true, GrandparentIdOf(InteractionChannel(req))),
      ParentIdOf(InteractionChannel(req)) ]
  }

  function ThreadIdCandidates(req: MatchRequest): seq<Option<string>> {
    [ req.threadId,
      IfThread(req.channel, true, IdOf(req.channel)),
      IfThread(MessageChannel(req), true, IdOf(MessageChannel(req))),
      IfThread(InteractionChannel(req), true, IdOf(InteractionChannel(req))) ]
  }

  function IsThreadCandidates(req: MatchRequest): seq<Option<bool>> {
    [ req.isThread, IsThreadOf(req.channel), IsThreadOf(MessageChannel(req)), IsThreadOf(InteractionChannel(req)) ]
  }

  /** The member levels and roles are derived from: passed, else the message's, else the interaction's. */
  function DerivedMember(req: MatchRequest): (r: Option<Member>)
    ensures r.None? <==>
      && req.member.None?
      && (req.message.None? || req.message.value.member.None?)
      && (req.interaction.None? || req.interaction.value.member.None?)
  {
    var candidates := [ req.member,
                        if req.message.Some? then req.message.value.member else None,
                        if req.interaction.Some? then req.interaction.value.member else None ];
    assert candidates[1] == (if req.message.Some? then req.message.value.member else None);
    assert candidates[2] == (if req.interaction.Some? then req.interaction.value.member else None);
    FirstSome(candidates)
  }

  /**
   * The manager's `getMemberLevel` wrapper: no level outside guild plugins, otherwise
   * the member's level in the plugin's guild.
   */
  function MemberLevel(levels: PermissionLevels, pluginData: PluginData, member: Member): (r: Option<int>)
    ensures r.Some? <==> pluginData.GuildPluginData?
    ensures pluginData.GuildPluginData? ==> r == Some(GetMemberLevel(levels, member, pluginData.guild))
    ensures r.Some? && MemberId(member) == pluginData.guild.ownerId ==> r.value == OwnerLevel
  {
    if pluginData.GuildPluginData? then Some(GetMemberLevel(levels, member, pluginData.guild)) else None
  }

  /** The canonical parameters `getMatchingConfig` hands to the override matcher. */
  function ResolveMatchParams(req: MatchRequest, levels: PermissionLevels, pluginData: PluginData): (r: MatchParams)
    ensures r.userId == None || (Truthy(r.userId) && r.userId in UserIdCandidates(req))
    ensures r.channelId == None || (Truthy(r.channelId) && r.channelId in ChannelIdCandidates(req))
    ensures r.categoryId == None || (Truthy(r.categoryId) && r.categoryId in CategoryIdCandidates(req))
    ensures r.threadId == None || (Truthy(r.threadId) && r.threadId in ThreadIdCandidates(req))
    ensures r.isThread == None || r.isThread in IsThreadCandidates(req)
    ensures r.level.Some? ==> req.level.Some? || DerivedMember(req).Some?
  {
    var member := DerivedMember(req);
    MatchParams(
      level := if req.level.Some? then req.level
               else if member.Some? then MemberLevel(levels, pluginData, member.value)
               else None,
      userId := FirstTruthy(UserIdCandidates(req)),
      channelId := FirstTruthy(ChannelIdCandidates(req)),
      categoryId := FirstTruthy(CategoryIdCandidates(req)),
      threadId := FirstTruthy(ThreadIdCandidates(req)),
      isThread := FirstSome(IsThreadCandidates(req)),
      memberRoles := req.memberRoles.GetOr(if member.Some? then MemberRoles(member.value) else []))
  }

  // ---- Properties of the derivation ----

  /** A truthy explicit id always wins over anything that could be derived. */
  lemma ExplicitIdsWin(req: MatchRequest, levels: PermissionLevels, pluginData: PluginData)
    ensures var p := ResolveMatchParams(req, levels, pluginData);
      && (Truthy(req.userId) ==> p.userId == req.userId)
      && (Truthy(req.channelId) ==> p.channelId == req.channelId)
      && (Truthy(req.categoryId) ==> p.categoryId == req.categoryId)
      && (Truthy(req.threadId) ==> p.threadId == req.threadId)
  {
  }

  /** An explicit empty-string id is falsy: the chain falls through to the derived value. */
  lemma EmptyExplicitIdFallsThrough(req: MatchRequest, levels: PermissionLevels, pluginData: PluginData)
    requires req.userId == Some("")
    ensures ResolveMatchParams(req, levels, pluginData).userId == FirstTruthy(UserIdCandidates(req)[1..])
  {
  }

  /** An explicit level, `isThread` or role list is kept, even when it is `0`, `false` or empty. */
  lemma ExplicitNullableFieldsKept(req: MatchRequest, levels: PermissionLevels, pluginData: PluginData)
    ensures var p := ResolveMatchParams(req, levels, pluginData);
      && (req.level.Some? ==> p.level == req.level)
      && (req.isThread.Some? ==> p.isThread == req.isThread)
      && (req.memberRoles.Some? ==> p.memberRoles == req.memberRoles.value)
  {
  }

  /** The member passed directly is preferred to the message's, which is preferred to the interaction's. */
  lemma DerivedMemberPrecedence(req: MatchRequest)
    ensures req.member.Some? ==> DerivedMember(req) == req.member
    ensures req.member.None? && req.message.Some? && req.message.value.member.Some? ==>
      DerivedMember(req) == Some(req.message.value.member.value)
    ensures req.member.None? && (req.message.None? || req.message.value.member.None?) ==>
      DerivedMember(req) == (if req.interaction.Some? then req.interaction.value.member else None)
  {
    var candidates := [ req.member,
                        if req.message.Some? then req.message.value.member else None,
                        if req.interaction.Some? then req.interaction.value.member else None ];
    if req.member.None? && req.message.Some? && req.message.value.member.Some? {
      FirstSomeAt(candidates, 1);
    } else if req.member.None? && candidates[2].Some? {
      FirstSomeAt(candidates, 2);
    }
  }

  /** Without an explicit level, the level is the derived member's, or null without one. */
  lemma LevelFromMember(req: MatchRequest, levels: PermissionLevels, pluginData: PluginData)
    requires req.level.None?
    ensures ResolveMatchParams(req, levels, pluginData).level ==
      (if DerivedMember(req).Some? then MemberLevel(levels, pluginData, DerivedMember(req).value) else None)
  {
  }

  /** Without explicit roles, the roles are the derived member's, or empty without one. */
  lemma RolesFromMember(req: MatchRequest, levels: PermissionLevels, pluginData: PluginData)
    requires req.memberRoles.None?
    ensures ResolveMatchParams(req, levels, pluginData).memberRoles ==
      (if DerivedMember(req).Some? then MemberRoles(DerivedMember(req).value) else [])
  {
  }

  // ---- Each chain for a request holding a single object ----

  /** A lone channel carries no user. */
  lemma LoneChannelUserId(ch: Channel)
    ensures FirstTruthy(UserIdCandidates(EmptyRequest.(channel := Some(ch)))) == None
  {
    var c := UserIdCandidates(EmptyRequest.(channel := Some(ch)));
    assert c == [None, None, None, None, None];
    FirstTruthyOnly(c, 0);
  }

  /** A lone channel is the channel itself, or for a thread the thread's parent. */
  lemma LoneChannelChannelId(ch: Channel)
    ensures FirstTruthy(ChannelIdCandidates(EmptyRequest.(channel := Some(ch)))) ==
      if ch.isThread then TruthyOrNone(ch.parentId) else TruthyOrNone(Some(ch.id))
  {
    var c := ChannelIdCandidates(EmptyRequest.(channel := Some(ch)));
    if ch.isThread {
      assert c == [None, None, ch.parentId, None, None, None];
      FirstTruthyOnly(c, 2);
    } else {
      assert c == [None, Some(ch.id), None, None, None, None];
      FirstTruthyOnly(c, 1);
    }
  }

  /** A lone channel's category is its parent, or for a thread its parent's parent. */
  lemma LoneChannelCategoryId(ch: Channel)
    ensures FirstTruthy(CategoryIdCandidates(EmptyRequest.(channel := Some(ch)))) ==
      if ch.isThread then TruthyOrNone(GrandparentIdOf(Some(ch))) else TruthyOrNone(ch.parentId)
  {
    var c := CategoryIdCandidates(EmptyRequest.(channel := Some(ch)));
    if ch.isThread {
      assert c == [None, None, GrandparentIdOf(Some(ch)), None, None, None, None];
      FirstTruthyOnly(c, 2);
    } else {
      assert c == [None, ch.parentId, None, None, None, None, None];
      FirstTruthyOnly(c, 1);
    }
  }

  /** A lone channel is the thread when it is one. */
  lemma LoneChannelThreadId(ch: Channel)
    ensures FirstTruthy(ThreadIdCandidates(EmptyRequest.(channel := Some(ch)))) ==
      if ch.isThread then TruthyOrNone(Some(ch.id)) else None
  {
    var c := ThreadIdCandidates(EmptyRequest.(channel := Some(ch)));
    if ch.isThread {
      assert c == [None, Some(ch.id), None, None];
      FirstTruthyOnly(c, 1);
    } else {
      assert c == [None, None, None, None];
      FirstTruthyOnly(c, 0);
    }
  }

  /** `isThread` of a lone channel is the channel's own flag. */
  lemma LoneChannelIsThread(ch: Channel)
    ensures FirstSome(IsThreadCandidates(EmptyRequest.(channel := Some(ch)))) == Some(ch.isThread)
  {
    var c := IsThreadCandidates(EmptyRequest.(channel := Some(ch)));
    assert c == [None, Some(ch.isThread), None, None];
    FirstSomeAt(c, 1);
  }

  /** A lone message's user is its author. */
  lemma LoneMessageUserId(msg: Message)
    ensures FirstTruthy(UserIdCandidates(EmptyRequest.(message := Some(msg)))) == TruthyOrNone(Some(msg.author.id))
  {
    var c := UserIdCandidates(EmptyRequest.(message := Some(msg)));
    assert c == [None, None, None, Some(msg.author.id), None];
    FirstTruthyOnly(c, 3);
  }

  /** A lone message's channel is its channel, or for a thread the thread's parent, else the thread. */
  lemma LoneMessageChannelId(msg: Message)
    ensures FirstTruthy(ChannelIdCandidates(EmptyRequest.(message := Some(msg)))) ==
      if msg.channel.isThread then FirstTruthy([msg.channel.parentId, Some(msg.channel.id)])
      else TruthyOrNone(Some(msg.channel.id))
  {
    var c := ChannelIdCandidates(EmptyRequest.(message := Some(msg)));
    if msg.channel.isThread {
      assert c == [None, None, None, msg.channel.parentId, Some(msg.channel.id), None];
      FirstTruthyOfTwo(c, 3, 4);
    } else {
      assert c == [None, None, None, None, Some(msg.channel.id), None];
      FirstTruthyOnly(c, 4);
    }
  }

  /** A lone message's category is its channel's parent, or for a thread the parent's parent, else the thread's parent. */
  lemma LoneMessageCategoryId(msg: Message)
    ensures FirstTruthy(CategoryIdCandidates(EmptyRequest.(message := Some(msg)))) ==
      if msg.channel.isThread then FirstTruthy([GrandparentIdOf(Some(msg.channel)), msg.channel.parentId])
      else TruthyOrNone(msg.channel.parentId)
  {
    var c := CategoryIdCandidates(EmptyRequest.(message := Some(msg)));
    if msg.channel.isThread {
      assert c == [None, None, None, GrandparentIdOf(Some(msg.channel)), msg.channel.parentId, None, None];
      FirstTruthyOfTwo(c, 3, 4);
    } else {
      assert c == [None, None, None, None, msg.channel.parentId, None, None];
      FirstTruthyOnly(c, 4);
    }
  }

  /** A lone message's thread is its channel when that is a thread. */
  lemma LoneMessageThreadId(msg: Message)
    ensures FirstTruthy(ThreadIdCandidates(EmptyRequest.(message := Some(msg)))) ==
      if msg.channel.isThread then TruthyOrNone(Some(msg.channel.id)) else None
  {
    var c := ThreadIdCandidates(EmptyRequest.(message := Some(msg)));
    if msg.channel.isThread {
      assert c == [None, None, Some(msg.channel.id), None];
      FirstTruthyOnly(c, 2);
    } else {
      assert c == [None, None, None, None];
      FirstTruthyOnly(c, 0);
    }
  }

  /** `isThread` of a lone message is its channel's flag. */
  lemma LoneMessageIsThread(msg: Message)
    ensures FirstSome(IsThreadCandidates(EmptyRequest.(message := Some(msg)))) == Some(msg.channel.isThread)
  {
    var c := IsThreadCandidates(EmptyRequest.(message := Some(msg)));
    assert c == [None, None, Some(msg.channel.isThread), None];
    FirstSomeAt(c, 2);
  }

  /** A lone interaction's member is the one its level and roles come from. */
  lemma LoneInteractionMember(interaction: Interaction)
    ensures DerivedMember(EmptyRequest.(interaction := Some(interaction))) == interaction.member
  {
    if interaction.member.Some? {
      FirstSomeAt([None, None, interaction.member], 2);
    }
  }

  /** A lone interaction's user is the interaction's user. */
  lemma LoneInteractionUserId(interaction: Interaction)
    ensures FirstTruthy(UserIdCandidates(EmptyRequest.(interaction := Some(interaction)))) ==
      TruthyOrNone(Some(interaction.user.id))
  {
    var c := UserIdCandidates(EmptyRequest.(interaction := Some(interaction)));
    assert c == [None, None, None, None, Some(interaction.user.id)];
    FirstTruthyOnly(c, 4);
  }

  /** A lone interaction's channel is its channel's own id, thread or not. */
  lemma LoneInteractionChannelId(interaction: Interaction, ch: Channel)
    requires interaction.channel == Some(ch)
    ensures FirstTruthy(ChannelIdCandidates(EmptyRequest.(interaction := Some(interaction)))) == TruthyOrNone(Some(ch.id))
  {
    var c := ChannelIdCandidates(EmptyRequest.(interaction := Some(interaction)));
    assert c == [None, None, None, None, None, Some(ch.id)];
    FirstTruthyOnly(c, 5);
  }

  /** A lone interaction's category is its channel's parent, or for a thread the parent's parent, else the thread's parent. */
  lemma LoneInteractionCategoryId(interaction: Interaction, ch: Channel)
    requires interaction.channel == Some(ch)
    ensures FirstTruthy(CategoryIdCandidates(EmptyRequest.(interaction := Some(interaction)))) ==
      if ch.isThread then FirstTruthy([GrandparentIdOf(Some(ch)), ch.parentId]) else TruthyOrNone(ch.parentId)
  {
    var c := CategoryIdCandidates(EmptyRequest.(interaction := Some(interaction)));
    if ch.isThread {
      assert c == [None, None, None, None, None, GrandparentIdOf(Some(ch)), ch.parentId];
      FirstTruthyOfTwo(c, 5, 6);
    } else {
      assert c == [None, None, None, None, None, None, ch.parentId];
      FirstTruthyOnly(c, 6);
    }
  }

  /** A lone interaction's thread is its channel when that is a thread. */
  lemma LoneInteractionThreadId(interaction: Interaction, ch: Channel)
    requires interaction.channel == Some(ch)
    ensures FirstTruthy(ThreadIdCandidates(EmptyRequest.(interaction := Some(interaction)))) ==
      if ch.isThread then TruthyOrNone(Some(ch.id)) else None
  {
    var c := ThreadIdCandidates(EmptyRequest.(interaction := Some(interaction)));
    if ch.isThread {
      assert c == [None, None, None, Some(ch.id)];
      FirstTruthyOnly(c, 3);
    } else {
      assert c == [None, None, None, None];
      FirstTruthyOnly(c, 0);
    }
  }

  /** `isThread` of a lone interaction is its channel's flag. */
  lemma LoneInteractionIsThread(interaction: Interaction, ch: Channel)
    requires interaction.channel == Some(ch)
    ensures FirstSome(IsThreadCandidates(EmptyRequest.(interaction := Some(interaction)))) == Some(ch.isThread)
  {
    var c := IsThreadCandidates(EmptyRequest.(interaction := Some(interaction)));
    assert c == [None, None, None, Some(ch.isThread)];
    FirstSomeAt(c, 3);
  }

  // ---- Whole parameters for a request holding a single object ----

  /** Only a thread channel: its parent is the channel, its parent's parent the category. */
  lemma ThreadChannelOnly(thread: Channel, levels: PermissionLevels, pluginData: PluginData)
    requires thread.isThread
    ensures ResolveMatchParams(EmptyRequest.(channel := Some(thread)), levels, pluginData) ==
      MatchParams(None, None, TruthyOrNone(thread.parentId), TruthyOrNone(GrandparentIdOf(Some(thread))),
                  TruthyOrNone(Some(thread.id)), Some(true), [])
  {
    LoneChannelUserId(thread);
    LoneChannelChannelId(thread);
    LoneChannelCategoryId(thread);
    LoneChannelThreadId(thread);
    LoneChannelIsThread(thread);
  }

  /** Only a channel that is not a thread: it is the channel, its parent the category, and there is no thread. */
  lemma PlainChannelOnly(channel: Channel, levels: PermissionLevels, pluginData: PluginData)
    requires !channel.isThread
    ensures ResolveMatchParams(EmptyRequest.(channel := Some(channel)), levels, pluginData) ==
      MatchParams(None, None, TruthyOrNone(Some(channel.id)), TruthyOrNone(channel.parentId), None, Some(false), [])
  {
    LoneChannelUserId(channel);
    LoneChannelChannelId(channel);
    LoneChannelCategoryId(channel);
    LoneChannelThreadId(channel);
    LoneChannelIsThread(channel);
  }

  /** Only a message in a channel that is not a thread: author, channel and its parent. */
  lemma PlainMessageOnly(msg: Message, levels: PermissionLevels, pluginData: PluginData)
    requires !msg.channel.isThread
    ensures var p := ResolveMatchParams(EmptyRequest.(message := Some(msg)), levels, pluginData);
      && p.userId == TruthyOrNone(Some(msg.author.id))
      && p.channelId == TruthyOrNone(Some(msg.channel.id))
      && p.categoryId == TruthyOrNone(msg.channel.parentId)
      && p.threadId == None
      && p.isThread == Some(false)
  {
    LoneMessageUserId(msg);
    LoneMessageChannelId(msg);
    LoneMessageCategoryId(msg);
    LoneMessageThreadId(msg);
    LoneMessageIsThread(msg);
  }

  /**
   * Only a message in a thread: the thread's parent is the channel and the parent's parent the
   * category; when either is missing the chain falls back to the thread's own id or parent id.
   */
  lemma ThreadMessageOnly(msg: Message, levels: PermissionLevels, pluginData: PluginData)
    requires msg.channel.isThread
    ensures var p := ResolveMatchParams(EmptyRequest.(message := Some(msg)), levels, pluginData);
      && p.userId == TruthyOrNone(Some(msg.author.id))
      && p.channelId == FirstTruthy([msg.channel.parentId, Some(msg.channel.id)])
      && p.categoryId == FirstTruthy([GrandparentIdOf(Some(msg.channel)), msg.channel.parentId])
      && p.threadId == TruthyOrNone(Some(msg.channel.id))
      && p.isThread == Some(true)
  {
    LoneMessageUserId(msg);
    LoneMessageChannelId(msg);
    LoneMessageCategoryId(msg);
    LoneMessageThreadId(msg);
    LoneMessageIsThread(msg);
  }

  /**
   * Only an interaction in a thread: the user is the interaction's, the channel id is the thread's
   * own id (not its parent's), and the level and roles come from the interaction's member.
   */
  lemma ThreadInteractionOnly(interaction: Interaction, thread: Channel, levels: PermissionLevels, pluginData: PluginData)
    requires interaction.channel == Some(thread) && thread.isThread
    ensures var p := ResolveMatchParams(EmptyRequest.(interaction := Some(interaction)), levels, pluginData);
      && p.userId == TruthyOrNone(Some(interaction.user.id))
      && p.channelId == TruthyOrNone(Some(thread.id))
      && p.categoryId == FirstTruthy([GrandparentIdOf(Some(thread)), thread.parentId])
      && p.threadId == TruthyOrNone(Some(thread.id))
      && p.isThread == Some(true)
      && p.level == (if interaction.member.Some? then MemberLevel(levels, pluginData, interaction.member.value) else None)
      && p.memberRoles == (if interaction.member.Some? then MemberRoles(interaction.member.value) else [])
  {
    LoneInteractionMember(interaction);
    LoneInteractionUserId(interaction);
    LoneInteractionChannelId(interaction, thread);
    LoneInteractionCategoryId(interaction, thread);
    LoneInteractionThreadId(interaction, thread);
    LoneInteractionIsThread(interaction, thread);
  }

  /**
   * Only an interaction in a channel that is not a thread: the user is the interaction's, the
   * channel is the channel itself, its parent the category, there is no thread, and the level and
   * roles come from the interaction's member.
   */
  lemma PlainInteractionOnly(interaction: Interaction, channel: Channel, levels: PermissionLevels, pluginData: PluginData)
    requires interaction.channel == Some(channel) && !channel.isThread
    ensures var p := ResolveMatchParams(EmptyRequest.(interaction := Some(interaction)), levels, pluginData);
      && p.userId == TruthyOrNone(Some(interaction.user.id))
      && p.channelId == TruthyOrNone(Some(channel.id))
      && p.categoryId == TruthyOrNone(channel.parentId)
      && p.threadId == None
      && p.isThread == Some(false)
      && p.level == (if interaction.member.Some? then MemberLevel(levels, pluginData, interaction.member.value) else None)
      && p.memberRoles == (if interaction.member.Some? then MemberRoles(interaction.member.value) else [])
  {
    LoneInteractionMember(interaction);
    LoneInteractionUserId(interaction);
    LoneInteractionChannelId(interaction, channel);
    LoneInteractionCategoryId(interaction, channel);
    LoneInteractionThreadId(interaction, channel);
    LoneInteractionIsThread(interaction, channel);
  }

  // ---- The requests the getFor* adapters build ----

  /** `getForMessage`: author, channel and its parent, level and role keys of the message's member. */
  function MessageRequest(msg: Message, levels: PermissionLevels, pluginData: PluginData): MatchRequest {
    EmptyRequest.(
      level := if msg.member.Some? then MemberLevel(levels, pluginData, msg.member.value) else None,
      userId := Some(msg.author.id),
      channelId := Some(msg.channel.id),
      categoryId := msg.channel.parentId,
      memberRoles := Some(if msg.member.Some? then Keys(msg.member.value.roleCache) else []))
  }

  /** `getForInteraction`: the interaction alone. */
  function InteractionRequest(interaction: Interaction): MatchRequest {
    EmptyRequest.(interaction := Some(interaction))
  }

  /** `getForChannel`: the channel's id and parent id. */
  function ChannelRequest(channel: Channel): MatchRequest {
    EmptyRequest.(channelId := Some(channel.id), categoryId := channel.parentId)
  }

  /** `getForUser`: the user's id. */
  function UserRequest(user: User): MatchRequest {
    EmptyRequest.(userId := Some(user.id))
  }

  /** `getForMember`: the member's level, its user's id and its role keys. */
  function MemberRequest(member: FullGuildMember, levels: PermissionLevels, pluginData: PluginData): MatchRequest {
    EmptyRequest.(
      level := MemberLevel(levels, pluginData, member),
      userId := Some(member.user.id),
      memberRoles := Some(Keys(member.roleCache)))
  }

  /**
   * The parameters of `getForMessage`: the message's channel is used as is, so in a
   * thread the thread is the channel and no thread id or thread flag is set.
   */
  lemma MessageAdapterParams(msg: Message, levels: PermissionLevels, pluginData: PluginData)
    ensures ResolveMatchParams(MessageRequest(msg, levels, pluginData), levels, pluginData) ==
      MatchParams(
        if msg.member.Some? then MemberLevel(levels, pluginData, msg.member.value) else None,
        TruthyOrNone(Some(msg.author.id)),
        TruthyOrNone(Some(msg.channel.id)),
        TruthyOrNone(msg.channel.parentId),
        None,
        None,
        if msg.member.Some? then Keys(msg.member.value.roleCache) else [])
  {
    var req := MessageRequest(msg, levels, pluginData);
    FirstTruthyOnly(UserIdCandidates(req), 0);
    FirstTruthyOnly(ChannelIdCandidates(req), 0);
    FirstTruthyOnly(CategoryIdCandidates(req), 0);
    FirstTruthyNone(ThreadIdCandidates(req));
  }

  /** `getForChannel` agrees with passing the channel object when the channel is not a thread. */
  lemma ChannelAdapterOnPlainChannel(channel: Channel, levels: PermissionLevels, pluginData: PluginData)
    requires !channel.isThread
    ensures var viaAdapter := ResolveMatchParams(ChannelRequest(channel), levels, pluginData);
            var viaObject := ResolveMatchParams(EmptyRequest.(channel := Some(channel)), levels, pluginData);
      viaAdapter.channelId == viaObject.channelId && viaAdapter.categoryId == viaObject.categoryId
  {
    var req := ChannelRequest(channel);
    FirstTruthyOnly(ChannelIdCandidates(req), 0);
    FirstTruthyOnly(CategoryIdCandidates(req), 0);
    PlainChannelOnly(channel, levels, pluginData);
  }

  /**
   * The parameters of `getForChannel`: the channel's id and parent id, whether or not the
   * channel is a thread, with no thread id and no thread flag.
   */
  lemma ChannelAdapterParams(channel: Channel, levels: PermissionLevels, pluginData: PluginData)
    ensures ResolveMatchParams(ChannelRequest(channel), levels, pluginData) ==
      MatchParams(None, None, TruthyOrNone(Some(channel.id)), TruthyOrNone(channel.parentId), None, None, [])
  {
    var req := ChannelRequest(channel);
    FirstTruthyOnly(ChannelIdCandidates(req), 0);
    FirstTruthyOnly(CategoryIdCandidates(req), 0);
    FirstTruthyNone(ThreadIdCandidates(req));
    FirstTruthyNone(UserIdCandidates(req));
  }

  /** The parameters of `getForUser`: the user's id alone. */
  lemma UserAdapterParams(user: User, levels: PermissionLevels, pluginData: PluginData)
    ensures ResolveMatchParams(UserRequest(user), levels, pluginData) ==
      MatchParams(None, TruthyOrNone(Some(user.id)), None, None, None, None, [])
  {
    var req := UserRequest(user);
    var p := ResolveMatchParams(req, levels, pluginData);
    assert DerivedMember(req) == None;
    FirstTruthyOnly(UserIdCandidates(req), 0);
    FirstTruthyNone(ChannelIdCandidates(req));
    FirstTruthyNone(CategoryIdCandidates(req));
    FirstTruthyNone(ThreadIdCandidates(req));
    assert p.level == None && p.memberRoles == [] && p.isThread == None;
  }

  /** The parameters of `getForMember`: the member's level, its user's id and its role keys. */
  lemma MemberAdapterParams(member: FullGuildMember, levels: PermissionLevels, pluginData: PluginData)
    ensures ResolveMatchParams(MemberRequest(member, levels, pluginData), levels, pluginData) ==
      MatchParams(MemberLevel(levels, pluginData, member), TruthyOrNone(Some(member.user.id)),
                  None, None, None, None, Keys(member.roleCache))
  {
    var req := MemberRequest(member, levels, pluginData);
    var p := ResolveMatchParams(req, levels, pluginData);
    assert p.level == MemberLevel(levels, pluginData, member) && p.memberRoles == Keys(member.roleCache);
    FirstTruthyOnly(UserIdCandidates(req), 0);
    FirstTruthyNone(ChannelIdCandidates(req));
    FirstTruthyNone(CategoryIdCandidates(req));
    FirstTruthyNone(ThreadIdCandidates(req));
    assert p.isThread == None;
  }

  /**
   * The adapters list the role cache's keys, `getMemberRoles` its roles' ids: the two
   * agree when every role is cached under its own id.
   */
  lemma CacheKeysAreMemberRoles(member: FullGuildMember)
    requires forall i :: 0 <= i < |member.roleCache| ==> member.roleCache[i].0 == member.roleCache[i].1.id
    ensures Keys(member.roleCache) == MemberRoles(member)
  {
  }
}
