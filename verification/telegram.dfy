/** What the bot hands to the Telegram API: messages, and the outcome of sending one. */
module Telegram {

  /** `parseRaw` sends plain text, `parseHTML` lets Telegram interpret HTML tags. */
  datatype ParseMode = Raw | Html

  /** One `sendText(chatID, notify, parse, text)` call. */
  datatype Outgoing = Outgoing(chat: int, notify: bool, mode: ParseMode, text: string)

  /** The outcome of `w.send`: success, a 403 (the user blocked the bot), or any other error. */
  datatype SendOutcome = Sent | BlockedByUser | SendFailed

  /** A plain-text message without notification, the form of every reply to a command. */
  function Reply(chat: int, text: string): Outgoing {
    Outgoing(chat, false, Raw, text)
  }
}
