/**
 The chat platform as the two cogs see it: users, channels (a thread or a
 forum post has a parent channel), and the observable steps of a command.
 Every observable step of the relay (a reply, a webhook call, a message
 deletion, the xp award, a level-up notice) is one `Effect` value in the
 trace that `proxysay` returns; the other commands return their `Reply`.
 */
module Platform {

  datatype Option<+T> = None | Some(value: T)

  /** A user is identified by the decimal text of its numeric id. */
  type UserId = string

  /** A channel; `parent` is present exactly for threads and forum posts. */
  datatype Channel = Channel(id: nat, parent: Option<Channel>)

  /** The replies a command sends back into the invoking channel. */
  datatype Reply =
    | NoAccess                              // "You do not have access to this proxy."
    | ProxyNotFound                         // "Proxy not found."
    | DuplicateKey                          // "That proxy key already exists."
    | ProxyCreated(name: string, key: string)
    | AccessGranted(member: UserId, key: string)
    | ProxyDeleted(key: string)

  /**
   One observable step of a command, in the order it is made.  `AwardXp` is
   the in-process call into the xp cog, not a platform call.
   */
  datatype Effect =
    | Say(reply: Reply)
    | CreateWebhook(on: Channel, name: string)
    | WebhookSend(text: string, username: string, avatarUrl: string, thread: Option<Channel>)
    | DeleteWebhook(on: Channel)
    | DeleteInvokingMessage
    | AwardXp(user: UserId, channel: Channel)
    | LevelUpNotice(into: Channel, user: UserId, level: int)
}
