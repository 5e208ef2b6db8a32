/**
 * The handful of discord.js object fields that the configuration manager reads.
 * Everything else about these objects is outside the model.
 */
module Discord {
  import opened Wrappers

  datatype User = User(id: string)

  datatype Role = Role(id: string)

  datatype Guild = Guild(ownerId: string)

  /**
   * A guild member, in the two shapes the source accepts.
   * `GuildMember` is a discord.js `GuildMember`: it has an `id` property and a role
   * manager whose `cache` is a collection of (key, role) entries in iteration order.
   * `InteractionMember` is an `APIInteractionGuildMember`: it has no `id` property and
   * its `roles` is a plain array of role ids.
   */
  datatype Member =
    | GuildMember(id: string, user: User, roleCache: seq<(string, Role)>)
    | InteractionMember(user: User, roleIds: seq<string>)

  /** Members that carry a role manager, as `Message.member` and `getForMember` expect. */
  type FullGuildMember = m: Member | m.GuildMember? witness GuildMember("", User(""), [])

  /** The parent of a channel, of which only its own `parentId` is read. */
  datatype ParentChannel = ParentChannel(parentId: Option<string>)

  /**
   * A channel: its id, the answer of `isThread()`, its `parentId` (absent on channels
   * that are not guild channels) and its cached `parent` channel (absent when not cached).
   */
  datatype Channel = Channel(id: string, isThread: bool, parentId: Option<string>, parent: Option<ParentChannel>)

  datatype Message = Message(author: User, channel: Channel, member: Option<FullGuildMember>)

  datatype Interaction = Interaction(user: User, channel: Option<Channel>, member: Option<Member>)
}
