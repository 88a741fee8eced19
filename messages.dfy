/**
 * The parts of a chat-gateway (Eris) message that the dispatcher and the
 * commands read. Channel kinds follow the gateway: 0 is a guild text channel,
 * 1 a direct message; every other kind counts as neither.
 */
module Messages {
  import opened Wrappers
  import opened JsObject

  datatype User = User(id: string, bot: bool, username: string, discriminator: string, avatarURL: string)

  datatype Channel = Channel(id: string, kind: int)

  /** The author's guild membership: the guild, and the permission json snapshot. */
  datatype Member = Member(guildId: string, permission: Props)

  datatype Message = Message(
    content: string,
    author: Option<User>,
    channel: Channel,
    member: Option<Member>,
    mentions: seq<User>,
    channelMentions: seq<string>)

  /** A message the bot created: its id and the channel it went to. */
  datatype Sent = Sent(id: string, channel: string)

  const GuildText: int := 0
  const DirectMessage: int := 1
}
