/**
 * Data declarations of the chat server (chat/src/models.rs) and the
 * outbound frames its WebSocket sessions write.  JSON encoding is not
 * modelled: an inbound frame is handed over already decoded, and an
 * outbound frame is the value that would be serialised.
 */
module ChatModels {
  import opened Wrappers

  /** `unwrap_or_default` on an optional string. */
  function OrEmpty(o: Option<string>): string
  {
    match o
    case None => ""
    case Some(v) => v
  }

  type byte = x: int | 0 <= x < 256

  /** An account as stored by `signup` (models.rs `User`). */
  datatype User = User(username: string, password: string)

  /** The body of a login request (models.rs `LoginInfo`). */
  datatype LoginInfo = LoginInfo(username: string, password: string)

  /**
   * A decoded client frame (models.rs `ClientMessage`); `msgType` is the
   * JSON field "type".  The optional `content_type` and `size` fields are
   * never read by the server and are not carried.
   */
  datatype ClientMessage = ClientMessage(
    msgType: string,
    recipient: string,
    content: Option<string>,
    filename: Option<string>,
    data: Option<seq<byte>>)

  /** The address of one live WebSocket session (an actor `Addr`). */
  type ConnId = nat

  /** A text frame written to a connection by `ctx.text`. */
  datatype Frame =
    | Public(from: string, content: string)                  // {"type":"public",...}
    | Private(from: string, content: string)                 // {"type":"private",...}
    | FileMeta(from: string, fileId: string, filename: string) // {"type":"file",...}
    | PrivateNotice(from: string, body: Frame)               // "Приватне повідомлення від <from>: <body>"
    | Error(message: string)                                 // ErrorMessage {"type":"error",...}
    | UserConnected(username: string)
    | UserDisconnected(username: string)

  const PublicRecipient := "public"
  const FileType := "file"
  const MessageType := "message"

  const UnknownFormat := "Невідомий формат повідомлення"
  const UnknownType := "Невідомий тип повідомлення"
  const SelfMessage := "Cannot send messages to yourself."
  const SelfFile := "Cannot send files to yourself."
  const UserNotFound := "Користувач не знайдений"
  const NoFileSelected := "Не вибрано жодного файлу"
  const UserExists := "Такий користувач вже існує"
  const SignupSucceeded := "Реєстрація успішна"
  const BadCredentials := "Не знайдено користувача з такими обліковими даними"
  const InvalidToken := "Invalid token"
}
