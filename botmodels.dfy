/**
 * The structures of the messaging-platform client library that the gateway
 * builds or receives. Only their shape matters here: the library's own
 * validation and transport are outside the model.
 */
module BotModels {
  import opened Uuid

  /** The per-button overrides, one constructor per `WithButton...` option. */
  datatype NDButtonOption =
    | ContentAlign(align: string)
    | FontColor(color: string)
    | BackgroundColor(color: string)
    | Alert(text: string)
    | HorizontalSize(size: int)

  /** `models.NewLinkButton(label, link, opts...)`; the label is called caption here, as `label` is a Dafny keyword. */
  datatype NDButton = LinkButton(caption: string, link: string, opts: seq<NDButtonOption>)

  /** The message-level options: a bubble row (`WithNDBubbleRow`) or the sealed
      caller metadata (`WithNDMetadata`). */
  datatype NDRequestOption =
    | BubbleRow(buttons: seq<NDButton>)
    | Metadata(sealed: string)

  /** `models.NewNDRequest(chatId, body, opts...)`: a notification to one chat. */
  datatype NDRequest = NDRequest(chatId: UUID, body: string, opts: seq<NDRequestOption>)

  /** A platform user found by mail address; only its kind is inspected. */
  datatype User = User(userKind: string)

  datatype ChatType = ChatTypeChat | ChatTypeGroupChat | ChatTypeChannel

  datatype CommandType = CommandTypeUser | CommandTypeSystem

  /** The sender of a bot command. */
  datatype From = From(groupChatId: UUID, isAdmin: bool, chatType: ChatType, locale: string)

  datatype Command = Command(body: string, commandType: CommandType)

  datatype CommandRequest = CommandRequest(from: From, command: Command)
}
