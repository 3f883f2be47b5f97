/** The Telegram Bot API as the rest of the model sees it: the requests the
    server sends, recorded in an outbox instead of being sent. */
module Channel {
  import opened Common

  /** The process environment the bot code reads: BOT_TOKEN, the resolved
      ADMIN_TELEGRAM_ID (its default applied) and WEBAPP_URL. */
  datatype Config = Config(token: string, adminId: string, webAppUrl: string)

  const PlaceholderToken: string := "YOUR_NEW_BOT_TOKEN_HERE"

  /** A request reaches Telegram only with a token that is set and is not
      the placeholder. */
  predicate TokenUsable(cfg: Config) {
    cfg.token != "" && cfg.token != PlaceholderToken
  }

  /** An inline button: its label and its callback payload. */
  datatype Button = Button(text: string, callbackData: string)

  /** A reply-keyboard button; with a URL it opens the web app. */
  datatype KeyButton = KeyButton(text: string, webAppUrl: Option<string>)

  /** `reply_markup`: absent or null, an inline keyboard, or a reply keyboard. */
  datatype Markup =
    | NoMarkup
    | InlineKeyboard(rows: seq<seq<Button>>)
    | ReplyKeyboard(keys: seq<seq<KeyButton>>, resize: bool, oneTime: bool)

  /** One Bot API request. `markdown` is `parse_mode: 'Markdown'`. */
  datatype ApiCall =
    | SendMessage(chatId: string, text: string, markdown: bool, markup: Markup)
    | EditMessageText(chatId: string, messageId: int, text: string, markdown: bool, markup: Markup)
    | SendLocation(chatId: string, latitude: string, longitude: string)
    | AnswerCallbackQuery(callbackQueryId: string, notice: Option<string>, showAlert: bool)
    | DeleteWebhook(dropPendingUpdates: bool)
    | GetUpdates(offset: int, timeout: nat)

  /** `tgFetch` / `tgSend`: the request is made when the token is usable and
      silently dropped otherwise. Transport failures are caught by the
      source and change nothing else, so a made request is simply recorded. */
  function TgFetch(cfg: Config, call: ApiCall): seq<ApiCall> {
    if TokenUsable(cfg) then [call] else []
  }
}
