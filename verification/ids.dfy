/** Opaque identities handed out by the chat platform (Discord snowflakes). */
module Ids {

  /** The stable identity of a remote user (`message.author.id`, `payload.user_id`). */
  type UserId = int

  /** The identity of a message (`menu.id`, `payload.message_id`). */
  type MessageId = int
}
