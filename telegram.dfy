/** The messages the bot hands to Telegram. Sending is not modelled: every
    message the bot sends successfully becomes one `Outgoing` value appended to
    an outbox. Fixed wording and emoji are left to the constructor's name;
    the parts that vary (addresses, counts, ticket numbers, relayed text) are
    carried as fields. */
module Telegram {
  import opened Wrappers
  import opened JsonValue

  type FileId = string

  /** Telegram message ids are positive. */
  type MsgId = x: int | x > 0 witness 1

  /** An inline keyboard button: its text and its callback data. */
  datatype Button = Button(text: string, data: string)

  /** The two attachment tags `upload_files` records. */
  datatype MediaKind = Document | Photo

  /** The content kinds `_send_reply` can relay, in its priority order. */
  datatype ContentKind =
    | TextReply | PhotoReply | AnimationReply | VideoReply | AudioReply | VoiceReply | DocumentReply

  datatype Outgoing =
    // Conversation flow (private chat with the submitter)
    | AddressMenu(chat: int, buttons: seq<Button>, edited: bool)
    | AddressChosen(chat: int, address: string)
    | AskText(chat: int)
    | ContinuePrompt(chat: int)
    | CountEdited(chat: int, msg: MsgId, count: nat, word: string)
    | CountResent(chat: int, count: nat, word: string)
    | ButtonsRemoved(chat: int)
    | AskContact(chat: int)
    | Preview(chat: int, address: string, phone: string, text: string, count: nat)
    | Thanks(chat: int, number: int)
    | SomethingWrong(chat: int)
    | Cancelled(chat: int)
    // Staff group
    | Summary(group: string, number: int, address: string, phone: string, mention: string, text: string)
    | MediaBatch(group: string, mediaKind: MediaKind, files: seq<FileId>)
    // Reply routing
    | Relay(to: Json, content: ContentKind, media: Option<FileId>, text: string)
    | Delivered(chat: int, number: int)
    | NoRecipient(chat: int, number: int)
    | NotDelivered(chat: int, number: int)
}
