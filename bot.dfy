/** The Telegram bot: the per-chat language map, the two callback payloads
    (`set_lang_<code>` and `setstatus:<id>:<status>`), the text commands and
    the long-polling cursor loop. Every handler is a method of `Bot` proved
    equal to a specification function over `BotState`; the properties of
    the bot are lemmas about those functions. */
module BotHandler {
  import opened Common
  import opened Channel
  import opened Telegram
  import opened Store

  // ---------------------------------------------------------------------
  // Languages and texts
  // ---------------------------------------------------------------------

  /** `LANGS`: code, flag and label, in declaration order. */
  const Langs: seq<(string, string, string)> :=
    [("ru", "🇷🇺", "Русский"), ("uz", "🇺🇿", "O'zbekcha"), ("en", "🇬🇧", "English")]

  /** `LANGS[code]` is defined. */
  predicate KnownLang(code: string) {
    exists i | 0 <= i < |Langs| :: Langs[i].0 == code
  }

  /** One language's texts; `welcome(name)` is greeting + name + welcomeTail. */
  datatype Texts = Texts(greeting: string, welcomeTail: string, langChanged: string,
                         chooseLang: string, menuBtn: string, langBtn: string)

  function Welcome(tx: Texts, name: string): string {
    tx.greeting + name + tx.welcomeTail
  }

  const RuTexts: Texts := Texts(
    "Ассалому алайкум, ",
    "! 👋\nДобро пожаловать в нашу кухню.\nНажмите «🍽️ Меню», чтобы открыть каталог.",
    "Язык изменён на Русский 🇷🇺",
    "Выберите язык / Tilni tanlang:",
    "🍽️ Меню",
    "🌐 Изменить язык")

  const UzTexts: Texts := Texts(
    "Assalomu alaykum, ",
    "! 👋\nOshxonamizga xush kelibsiz.\n«🍽️ Menyu» tugmasini bosib katalogni oching.",
    "Til O'zbekchaga o'zgartirildi 🇺🇿",
    "Tilni tanlang / Выберите язык:",
    "🍽️ Menyu",
    "🌐 Tilni o'zgartirish")

  const EnTexts: Texts := Texts(
    "Hello, ",
    "! 👋\nWelcome to our kitchen.\nTap «🍽️ Menu» to open the catalog.",
    "Language changed to English 🇬🇧",
    "Choose language / Выберите язык:",
    "🍽️ Menu",
    "🌐 Change language")

  /** `messages[lang]` */
  function Messages(lang: string): Option<Texts> {
    if lang == "ru" then Some(RuTexts)
    else if lang == "uz" then Some(UzTexts)
    else if lang == "en" then Some(EnTexts)
    else None
  }

  /** `getLang`: the stored language of the chat, or `ru`. */
  function GetLang(userLangs: map<string, string>, chat: string): string {
    if chat in userLangs && userLangs[chat] != "" then userLangs[chat] else "ru"
  }

  /** `getT`: the texts of the chat's language, falling back to Russian. */
  function GetT(userLangs: map<string, string>, chat: string): Texts {
    match Messages(GetLang(userLangs, chat))
    case Some(tx) => tx
    case None => RuTexts
  }

  /** A chat without a stored language is spoken to in Russian; a chat whose
      stored language is one of `LANGS` gets exactly that language's texts. */
  lemma GetTFollowsLanguage(userLangs: map<string, string>, chat: string, code: string)
    ensures chat !in userLangs ==> GetLang(userLangs, chat) == "ru" && GetT(userLangs, chat) == RuTexts
    ensures KnownLang(code) ==>
      && GetLang(userLangs[chat := code], chat) == code
      && Messages(code).Some?
      && GetT(userLangs[chat := code], chat) == Messages(code).value
  {
  }

  /** `mainKeyboard`: the menu button (opening the web app when its URL is
      configured) above the language button, in the chat's language. */
  function MainKeyboard(cfg: Config, userLangs: map<string, string>, chat: string): Markup {
    var ln := GetT(userLangs, chat);
    ReplyKeyboard([[KeyButton(ln.menuBtn, if cfg.webAppUrl != "" then Some(cfg.webAppUrl) else None)],
                   [KeyButton(ln.langBtn, None)]], true, false)
  }

  /** The main keyboard is a resized, persistent reply keyboard. One of its
      buttons opens the web app iff the web-app URL is configured, and such
      a button is the menu button and opens exactly that URL. */
  lemma MainKeyboardWebApp(cfg: Config, userLangs: map<string, string>, chat: string)
    ensures var kb := MainKeyboard(cfg, userLangs, chat);
      && kb.ReplyKeyboard? && kb.resize && !kb.oneTime
      && ((exists i, j :: 0 <= i < |kb.keys| && 0 <= j < |kb.keys[i]| && kb.keys[i][j].webAppUrl.Some?) <==> cfg.webAppUrl != "")
      && (forall i, j :: 0 <= i < |kb.keys| && 0 <= j < |kb.keys[i]| && kb.keys[i][j].webAppUrl.Some? ==>
            kb.keys[i][j].webAppUrl.value == cfg.webAppUrl && kb.keys[i][j].text == GetT(userLangs, chat).menuBtn)
  {
    var kb := MainKeyboard(cfg, userLangs, chat);
    if cfg.webAppUrl != "" {
      assert kb.keys[0][0].webAppUrl.Some?;
    }
  }

  const SetLangPrefix: string := "set_lang_"
  const SetStatusPrefix: string := "setstatus:"

  /** `langInlineKeyboard`: one row per language, in `LANGS` order. */
  function LangInlineKeyboard(): (rows: seq<seq<Button>>)
    ensures |rows| == |Langs|
    ensures forall i :: 0 <= i < |rows| ==>
      rows[i] == [Button(Langs[i].1 + " " + Langs[i].2, SetLangPrefix + Langs[i].0)]
  {
    seq(|Langs|, i requires 0 <= i < |Langs| => [Button(Langs[i].1 + " " + Langs[i].2, SetLangPrefix + Langs[i].0)])
  }

  predicate IsLangButton(text: string) {
    text == RuTexts.langBtn || text == UzTexts.langBtn || text == EnTexts.langBtn
  }

  predicate IsMenuButton(text: string) {
    text == RuTexts.menuBtn || text == UzTexts.menuBtn || text == EnTexts.menuBtn
  }

  // ---------------------------------------------------------------------
  // Updates
  // ---------------------------------------------------------------------

  /** A callback query. `chat` is the id of the message's chat when there is
      one; `messageId` is 0 when missing; `data` is empty when missing. */
  datatype Callback = Callback(id: string, chat: Option<string>, messageId: int, data: string)

  /** A message. `chat` is `None` when the message has no chat object;
      `text` and `firstName` are empty when missing. */
  datatype Message = Message(chat: Option<string>, text: string, firstName: string)

  datatype UpdateBody = CallbackQuery(query: Callback) | TextMessage(msg: Message) | NoBody

  datatype Update = Update(updateId: int, body: UpdateBody)

  /** `String(chatId)`: the key a chat is stored and compared under. */
  function ChatKey(chat: Option<string>): string {
    match chat
    case Some(c) => c
    case None => "undefined"
  }

  /** The `chat_id` a request carries; empty stands for a missing one. */
  function ChatField(chat: Option<string>): string {
    match chat
    case Some(c) => c
    case None => ""
  }

  const AdminOnlyNotice: string := "⛔ Только администратор может менять статус"
  const InvalidNotice: string := "❌ Неверный статус или ID заказа"
  const NotFoundNotice: string := "❌ Заказ не найден в базе данных"
  const FailureNotice: string := "❌ Ошибка при обновлении статуса"
  const NoWebAppNotice: string := "⚠️ WEBAPP_URL is not configured in .env"

  function Alert(callbackQueryId: string, text: string): ApiCall {
    AnswerCallbackQuery(callbackQueryId, Some(text), true)
  }

  /** `STATUS_LABEL[newStatus] || newStatus` */
  function StatusLabel(status: string): string {
    if status == Accepted then "📋 Принят"
    else if status == Preparing then "👨‍🍳 Готовится"
    else if status == Cooking then "🔥 Упаковывается"
    else if status == OutForDelivery then "🚗 В пути"
    else if status == Delivered then "✅ Доставлен"
    else if status == Cancelled then "❌ Отменён"
    else status
  }

  /** `orderForEdit`: the row as the renderer sees it. The row carries no
      delivery type, customer name or location. */
  function RowView(row: OrderRow, items: seq<Item>): OrderView {
    OrderView(row.id, row.orderNumber, items, "", "", row.firstName, row.lastName, row.phone,
              row.deliveryAddress, row.totalAmount, row.paymentMethod, None)
  }

  // ---------------------------------------------------------------------
  // Specification of the handlers
  // ---------------------------------------------------------------------

  /** Everything the bot's handlers read and write. */
  datatype BotState = BotState(
    userLangs: map<string, string>,
    orders: map<int, OrderRow>,
    outbox: seq<ApiCall>,
    pollingOffset: int,
    pollingActive: bool)

  function Sent(cfg: Config, s: BotState, call: ApiCall): BotState {
    s.(outbox := s.outbox + TgFetch(cfg, call))
  }

  /** `set_lang_<lang>`: a known code is stored for the chat, the press is
      acknowledged and the new main keyboard is sent; any other code does
      nothing. */
  function SetLangSpec(cfg: Config, s: BotState, cb: Callback, lang: string): BotState {
    if !KnownLang(lang) then s
    else
      var key := ChatKey(cb.chat);
      var langs := s.userLangs[key := lang];
      var s1 := Sent(cfg, s.(userLangs := langs), AnswerCallbackQuery(cb.id, None, false));
      Sent(cfg, s1, SendMessage(ChatField(cb.chat), GetT(langs, key).langChanged, false, MainKeyboard(cfg, langs, key)))
  }

  /** The customer is told about the change only when the row has a
      Telegram id. */
  function CustomerNotice(cfg: Config, row: OrderRow, newStatus: string): seq<ApiCall> {
    if row.telegramId != "" then SendStatusUpdateToUser(cfg, row.telegramId, row.orderNumber, newStatus) else []
  }

  function Acknowledgement(cb: Callback, row: OrderRow, newStatus: string): ApiCall {
    AnswerCallbackQuery(cb.id, Some("#" + row.orderNumber + ": " + StatusLabel(newStatus)), false)
  }

  /** A validated status change: written first, then looked up; then the
      press is acknowledged, the operator message edited and the customer
      told. An unparsable item list fails after the acknowledgement. */
  function ApplyStatus(cfg: Config, s: BotState, cb: Callback, id: int, newStatus: string): BotState {
    var orders := WithStatus(s.orders, id, newStatus);
    s.(orders := orders, outbox := s.outbox + StatusReplies(cfg, cb, Lookup(orders, id), newStatus))
  }

  /** What is sent after the write, given the row read back. */
  function StatusReplies(cfg: Config, cb: Callback, found: Option<OrderRow>, newStatus: string): seq<ApiCall> {
    match found
    case None => TgFetch(cfg, Alert(cb.id, NotFoundNotice))
    case Some(row) =>
      var ack := TgFetch(cfg, Acknowledgement(cb, row, newStatus));
      match row.items
      case None => ack + TgFetch(cfg, Alert(cb.id, FailureNotice))
      case Some(items) =>
        ack + UpdateAdminMessage(cfg, ChatField(cb.chat), cb.messageId, RowView(row, items), newStatus)
            + CustomerNotice(cfg, row, newStatus)
  }

  /** `setstatus:<id>:<status>` */
  function SetStatusSpec(cfg: Config, s: BotState, cb: Callback): BotState {
    if ChatKey(cb.chat) != cfg.adminId then Sent(cfg, s, Alert(cb.id, AdminOnlyNotice))
    else
      var parts := Split(cb.data, ':');
      if |parts| < 3 then s
      else
        var orderId := ParseInt(parts[1]);
        if orderId.None? || orderId.value == 0 || parts[2] !in ValidStatuses then
          Sent(cfg, s, Alert(cb.id, InvalidNotice))
        else ApplyStatus(cfg, s, cb, orderId.value, parts[2])
  }

  /** `handleCallbackQuery` */
  function CallbackSpec(cfg: Config, s: BotState, cb: Callback): BotState {
    if StartsWith(cb.data, SetLangPrefix) then SetLangSpec(cfg, s, cb, cb.data[|SetLangPrefix|..])
    else if StartsWith(cb.data, SetStatusPrefix) then SetStatusSpec(cfg, s, cb)
    else s
  }

  /** The reply `handleUpdate` sends to the (trimmed) text of a message in
      `chat`, if any. */
  function TextReply(cfg: Config, userLangs: map<string, string>, chat: string, text: string, firstName: string): (r: Option<ApiCall>)
    ensures r.Some? ==> r.value.SendMessage? && r.value.chatId == chat && !r.value.markdown
  {
    var ln := GetT(userLangs, chat);
    if text == "/start" then
      Some(SendMessage(chat, Welcome(ln, firstName), false, MainKeyboard(cfg, userLangs, chat)))
    else if IsLangButton(text) then
      Some(SendMessage(chat, ln.chooseLang, false, InlineKeyboard(LangInlineKeyboard())))
    else if IsMenuButton(text) && cfg.webAppUrl == "" then
      Some(SendMessage(chat, NoWebAppNotice, false, NoMarkup))
    else None
  }

  /** The text part of `handleUpdate`; a message without a chat throws
      before doing anything. */
  function MessageSpec(cfg: Config, s: BotState, m: Message): BotState {
    match m.chat
    case None => s
    case Some(chat) =>
      match TextReply(cfg, s.userLangs, chat, Trim(m.text), m.firstName)
      case Some(call) => Sent(cfg, s, call)
      case None => s
  }

  /** `handleUpdate` throws exactly for a message without a chat. */
  predicate Throws(u: Update) {
    u.body.TextMessage? && u.body.msg.chat.None?
  }

  function UpdateSpec(cfg: Config, s: BotState, u: Update): BotState {
    match u.body
    case CallbackQuery(cb) => CallbackSpec(cfg, s, cb)
    case TextMessage(m) => MessageSpec(cfg, s, m)
    case NoBody => s
  }

  /** The `for` loop over one batch: the cursor moves past each update
      before its handler runs. */
  function BatchSpec(cfg: Config, s: BotState, updates: seq<Update>): BotState
    decreases |updates|
  {
    if |updates| == 0 then s
    else BatchSpec(cfg, UpdateSpec(cfg, s.(pollingOffset := updates[0].updateId + 1), updates[0]), updates[1..])
  }

  const PollTimeout: nat := 30

  /** What one `getUpdates` request brings back. */
  datatype Reply = Batch(ok: bool, updates: seq<Update>) | NetworkError

  /** One pass of the `while` loop, and whether `stopBotPolling` was called
      while it was under way. */
  datatype Round = Round(reply: Reply, stopRequested: bool)

  function RoundSpec(cfg: Config, s: BotState, r: Round): BotState {
    var s1 := s.(outbox := s.outbox + [GetUpdates(s.pollingOffset, PollTimeout)]);
    var s2 := if r.reply.Batch? && r.reply.ok && |r.reply.updates| > 0 then BatchSpec(cfg, s1, r.reply.updates) else s1;
    if r.stopRequested then s2.(pollingActive := false) else s2
  }

  /** The `while (pollingActive)` loop over the rounds observed. */
  function RoundsSpec(cfg: Config, s: BotState, rounds: seq<Round>): BotState
    decreases |rounds|
  {
    if |rounds| == 0 || !s.pollingActive then s
    else RoundsSpec(cfg, RoundSpec(cfg, s, rounds[0]), rounds[1..])
  }

  /** `pollUpdates` */
  function PollSpec(cfg: Config, s: BotState, rounds: seq<Round>): BotState {
    if !TokenUsable(cfg) then s
    else RoundsSpec(cfg, Sent(cfg, s.(pollingActive := true), DeleteWebhook(false)), rounds)
  }

  // ---------------------------------------------------------------------
  // The bot
  // ---------------------------------------------------------------------

  class Bot {
    const cfg: Config
    const store: OrderStore
    var userLangs: map<string, string>
    var outbox: seq<ApiCall>
    var pollingOffset: int
    var pollingActive: bool

    function State(): BotState
      reads this, store
    {
      BotState(userLangs, store.orders, outbox, pollingOffset, pollingActive)
    }

    predicate Valid()
      reads this, store
    {
      store.Valid()
    }

    constructor (cfg: Config, store: OrderStore)
      requires store.Valid()
      ensures this.cfg == cfg && this.store == store
      ensures userLangs == map[] && outbox == [] && pollingOffset == 0 && !pollingActive
      ensures Valid()
    {
      this.cfg := cfg;
      this.store := store;
      userLangs := map[];
      outbox := [];
      pollingOffset := 0;
      pollingActive := false;
    }

    /** `tgSend` */
    method Send(call: ApiCall)
      modifies this
      ensures State() == Sent(cfg, old(State()), call)
    {
      outbox := outbox + TgFetch(cfg, call);
    }

    method HandleCallbackQuery(cb: Callback)
      requires Valid()
      modifies this, store
      ensures Valid()
      ensures store.nextId == old(store.nextId)
      ensures State() == CallbackSpec(cfg, old(State()), cb)
    {
      if StartsWith(cb.data, SetLangPrefix) {
        var lang := cb.data[|SetLangPrefix|..];
        if KnownLang(lang) {
          var key := ChatKey(cb.chat);
          userLangs := userLangs[key := lang];
          Send(AnswerCallbackQuery(cb.id, None, false));
          Send(SendMessage(ChatField(cb.chat), GetT(userLangs, key).langChanged, false, MainKeyboard(cfg, userLangs, key)));
        }
        return;
      }
      if StartsWith(cb.data, SetStatusPrefix) {
        if ChatKey(cb.chat) != cfg.adminId {
          Send(Alert(cb.id, AdminOnlyNotice));
          return;
        }
        var parts := Split(cb.data, ':');
        if |parts| < 3 {
          return;
        }
        var orderId := ParseInt(parts[1]);
        var newStatus := parts[2];
        if orderId.None? || orderId.value == 0 || newStatus !in ValidStatuses {
          Send(Alert(cb.id, InvalidNotice));
          return;
        }
        ChangeStatus(cb, orderId.value, newStatus);
      }
    }

    /** The write-then-reply tail of the `setstatus` branch. */
    method ChangeStatus(cb: Callback, id: int, newStatus: string)
      requires Valid()
      modifies this, store
      ensures Valid()
      ensures store.nextId == old(store.nextId)
      ensures State() == ApplyStatus(cfg, old(State()), cb, id, newStatus)
    {
      store.UpdateStatus(newStatus, id);
      var order := store.FindById(id);
      ghost var before := outbox;
      if order.None? {
        Send(Alert(cb.id, NotFoundNotice));
        return;
      }
      var row := order.value;
      var ack := TgFetch(cfg, Acknowledgement(cb, row, newStatus));
      Send(Acknowledgement(cb, row, newStatus));
      if row.items.None? {
        var alert := TgFetch(cfg, Alert(cb.id, FailureNotice));
        Send(Alert(cb.id, FailureNotice));
        CallsAssoc(before, ack, alert);
        return;
      }
      var edit := UpdateAdminMessage(cfg, ChatField(cb.chat), cb.messageId, RowView(row, row.items.value), newStatus);
      outbox := outbox + edit;
      CallsAssoc(before, ack, edit);
      var notice := CustomerNotice(cfg, row, newStatus);
      if row.telegramId != "" {
        outbox := outbox + SendStatusUpdateToUser(cfg, row.telegramId, row.orderNumber, newStatus);
      } else {
        assert outbox + notice == outbox;
      }
      CallsAssoc(before, ack + edit, notice);
    }

    /** The text part of `handleUpdate`. */
    method HandleMessage(m: Message) returns (threw: bool)
      modifies this
      ensures threw == m.chat.None?
      ensures State() == MessageSpec(cfg, old(State()), m)
    {
      if m.chat.None? {
        return true;
      }
      threw := false;
      var chat := m.chat.value;
      var text := Trim(m.text);
      var ln := GetT(userLangs, chat);
      if text == "/start" {
        var call := SendMessage(chat, Welcome(ln, m.firstName), false, MainKeyboard(cfg, userLangs, chat));
        assert TextReply(cfg, userLangs, chat, text, m.firstName) == Some(call);
        Send(call);
        return;
      }
      if IsLangButton(text) {
        var call := SendMessage(chat, ln.chooseLang, false, InlineKeyboard(LangInlineKeyboard()));
        assert TextReply(cfg, userLangs, chat, text, m.firstName) == Some(call);
        Send(call);
        return;
      }
      if IsMenuButton(text) && cfg.webAppUrl == "" {
        var call := SendMessage(chat, NoWebAppNotice, false, NoMarkup);
        assert TextReply(cfg, userLangs, chat, text, m.firstName) == Some(call);
        Send(call);
      } else {
        assert TextReply(cfg, userLangs, chat, text, m.firstName) == None;
      }
    }

    /** `handleUpdate` */
    method HandleUpdate(u: Update) returns (threw: bool)
      requires Valid()
      modifies this, store
      ensures Valid()
      ensures store.nextId == old(store.nextId)
      ensures threw == Throws(u)
      ensures State() == UpdateSpec(cfg, old(State()), u)
    {
      threw := false;
      match u.body {
        case CallbackQuery(cb) =>
          HandleCallbackQuery(cb);
        case TextMessage(m) =>
          threw := HandleMessage(m);
        case NoBody =>
      }
    }

    /** `stopBotPolling` */
    method StopBotPolling()
      modifies this
      ensures State() == old(State()).(pollingActive := false)
    {
      pollingActive := false;
    }

    /** The `for` loop over one batch; a handler that throws is caught and
        the loop goes on. */
    method RunBatch(updates: seq<Update>)
      requires Valid()
      modifies this, store
      ensures Valid()
      ensures store.nextId == old(store.nextId)
      ensures State() == BatchSpec(cfg, old(State()), updates)
    {
      var j := 0;
      while j < |updates|
        invariant 0 <= j <= |updates|
        invariant Valid()
        invariant store.nextId == old(store.nextId)
        invariant BatchSpec(cfg, State(), updates[j..]) == BatchSpec(cfg, old(State()), updates)
      {
        BatchStep(cfg, State(), updates, j);
        pollingOffset := updates[j].updateId + 1;
        var threw := HandleUpdate(updates[j]);
        j := j + 1;
      }
    }

    /** One pass of the polling loop body. */
    method RunRound(round: Round)
      requires Valid()
      modifies this, store
      ensures Valid()
      ensures store.nextId == old(store.nextId)
      ensures State() == RoundSpec(cfg, old(State()), round)
    {
      outbox := outbox + [GetUpdates(pollingOffset, PollTimeout)];
      var reply := round.reply;
      if reply.Batch? && reply.ok && |reply.updates| > 0 {
        RunBatch(reply.updates);
      }
      if round.stopRequested {
        StopBotPolling();
      }
    }

    /** `pollUpdates`, over the rounds observed before the loop ends or the
        observation does. */
    method PollUpdates(rounds: seq<Round>)
      requires Valid()
      modifies this, store
      ensures Valid()
      ensures store.nextId == old(store.nextId)
      ensures State() == PollSpec(cfg, old(State()), rounds)
    {
      if !TokenUsable(cfg) {
        return;
      }
      pollingActive := true;
      Send(DeleteWebhook(false));
      var i := 0;
      while pollingActive && i < |rounds|
        invariant 0 <= i <= |rounds|
        invariant Valid()
        invariant store.nextId == old(store.nextId)
        invariant RoundsSpec(cfg, State(), rounds[i..]) == PollSpec(cfg, old(State()), rounds)
        decreases |rounds| - i
      {
        RunRound(rounds[i]);
        assert rounds[i..][1..] == rounds[i + 1..];
        i := i + 1;
      }
    }
  }

  // ---------------------------------------------------------------------
  // Properties of the handlers
  // ---------------------------------------------------------------------

  lemma PrefixesExclusive(data: string)
    ensures StartsWith(data, SetStatusPrefix) ==> !StartsWith(data, SetLangPrefix)
  {
    if StartsWith(data, SetStatusPrefix) {
      assert data[3] == 's';
    }
  }

  /** `set_lang_<code>` stores a known code for the chat and answers in that
      language; any other code changes nothing and sends nothing. The store
      and the cursor are never touched. */
  lemma SetLangOnlyKnown(cfg: Config, s: BotState, cb: Callback)
    requires StartsWith(cb.data, SetLangPrefix)
    ensures var r := CallbackSpec(cfg, s, cb);
      var code := cb.data[|SetLangPrefix|..];
      && r.orders == s.orders && r.pollingOffset == s.pollingOffset && r.pollingActive == s.pollingActive
      && (!KnownLang(code) ==> r == s)
      && (KnownLang(code) ==>
            && r.userLangs == s.userLangs[ChatKey(cb.chat) := code]
            && r.outbox == s.outbox + TgFetch(cfg, AnswerCallbackQuery(cb.id, None, false))
                           + TgFetch(cfg, SendMessage(ChatField(cb.chat), Messages(code).value.langChanged, false,
                                                      MainKeyboard(cfg, r.userLangs, ChatKey(cb.chat)))))
  {
    var code := cb.data[|SetLangPrefix|..];
    GetTFollowsLanguage(s.userLangs, ChatKey(cb.chat), code);
  }

  /** Pressing a button of the language picker switches the chat to that
      button's language. */
  lemma LanguagePickerRoundTrip(cfg: Config, s: BotState, cb: Callback, i: int)
    requires 0 <= i < |LangInlineKeyboard()|
    requires cb.data == LangInlineKeyboard()[i][0].callbackData
    ensures CallbackSpec(cfg, s, cb).userLangs == s.userLangs[ChatKey(cb.chat) := Langs[i].0]
    ensures GetT(CallbackSpec(cfg, s, cb).userLangs, ChatKey(cb.chat)) == Messages(Langs[i].0).value
  {
    assert cb.data == SetLangPrefix + Langs[i].0;
    assert cb.data[..|SetLangPrefix|] == SetLangPrefix;
    assert cb.data[|SetLangPrefix|..] == Langs[i].0;
    assert KnownLang(Langs[i].0);
    SetLangOnlyKnown(cfg, s, cb);
    GetTFollowsLanguage(s.userLangs, ChatKey(cb.chat), Langs[i].0);
  }

  /** A status payload from any chat but the operator's gets an alert and
      nothing else: no read or write of the store. */
  lemma NonAdminRejected(cfg: Config, s: BotState, cb: Callback)
    requires StartsWith(cb.data, SetStatusPrefix) && ChatKey(cb.chat) != cfg.adminId
    ensures var r := CallbackSpec(cfg, s, cb);
      && r.orders == s.orders && r.userLangs == s.userLangs
      && r.outbox == s.outbox + TgFetch(cfg, Alert(cb.id, AdminOnlyNotice))
  {
    PrefixesExclusive(cb.data);
  }

  /** From the operator, a payload of fewer than three parts is ignored
      silently, and a zero or unparsable id or an unknown status gets an
      alert; neither writes to the store. */
  lemma MalformedStatusIgnored(cfg: Config, s: BotState, cb: Callback)
    requires StartsWith(cb.data, SetStatusPrefix) && ChatKey(cb.chat) == cfg.adminId
    ensures var parts := Split(cb.data, ':');
      var r := CallbackSpec(cfg, s, cb);
      && (|parts| < 3 ==> r == s)
      && (|parts| >= 3 && (ParseInt(parts[1]).None? || ParseInt(parts[1]) == Some(0) || parts[2] !in ValidStatuses) ==>
            r.orders == s.orders && r.userLangs == s.userLangs
            && r.outbox == s.outbox + TgFetch(cfg, Alert(cb.id, InvalidNotice)))
  {
    PrefixesExclusive(cb.data);
    assert CallbackSpec(cfg, s, cb) == SetStatusSpec(cfg, s, cb);
    var parts := Split(cb.data, ':');
    if |parts| >= 3 && (ParseInt(parts[1]).None? || ParseInt(parts[1]) == Some(0) || parts[2] !in ValidStatuses) {
      assert SetStatusSpec(cfg, s, cb) == Sent(cfg, s, Alert(cb.id, InvalidNotice));
    }
  }

  lemma IntToStringNoColon(n: int)
    ensures ':' !in IntToString(n)
  {
    var t := IntToString(n);
    if n < 0 {
      assert forall i :: 1 <= i < |t| ==> t[i] == NatToString(-n)[i - 1];
    }
  }

  /** The handler reads back what the keyboard writes: the payload of a
      status button splits into the prefix, the decimal id and the target,
      and the id parses back to itself. */
  lemma StatusPayloadParses(orderId: int, target: string)
    requires ':' !in target
    ensures Split(CallbackData(orderId, target), ':') == ["setstatus", IntToString(orderId), target]
    ensures ParseInt(IntToString(orderId)) == Some(orderId)
  {
    var id := IntToString(orderId);
    IntToStringNoColon(orderId);
    assert CallbackData(orderId, target) == "setstatus" + [':'] + (id + [':'] + target);
    SplitCons("setstatus", ':', id + [':'] + target);
    SplitCons(id, ':', target);
    SplitNoSeparator(target, ':');
    ParseIntOfIntToString(orderId);
  }

  lemma StatusesHaveNoColon(status: string)
    requires status in ValidStatuses
    ensures ':' !in status
  {
  }

  /** An operator press of a well-formed button writes its target whatever
      the order's current status: the handler checks no transition. */
  lemma NoTransitionGuard(cfg: Config, s: BotState, cb: Callback, orderId: int, target: string)
    requires cb.data == CallbackData(orderId, target)
    requires ChatKey(cb.chat) == cfg.adminId && orderId != 0 && target in ValidStatuses
    ensures CallbackSpec(cfg, s, cb) == ApplyStatus(cfg, s, cb, orderId, target)
    ensures orderId in s.orders ==>
      CallbackSpec(cfg, s, cb).orders == s.orders[orderId := s.orders[orderId].(status := target)]
  {
    StatusesHaveNoColon(target);
    StatusPayloadRoutes(cb.data, orderId, target);
    var parts := Split(cb.data, ':');
    assert |parts| == 3 && parts[1] == IntToString(orderId) && parts[2] == target;
    assert SetStatusSpec(cfg, s, cb) == ApplyStatus(cfg, s, cb, orderId, target);
    ApplyStatusWrites(cfg, s, cb, orderId, target);
  }

  /** A status button's payload is routed to the status branch and reads
      back as its id and target. */
  lemma StatusPayloadRoutes(data: string, orderId: int, target: string)
    requires data == CallbackData(orderId, target) && ':' !in target
    ensures StartsWith(data, SetStatusPrefix) && !StartsWith(data, SetLangPrefix)
    ensures Split(data, ':') == ["setstatus", IntToString(orderId), target]
    ensures ParseInt(IntToString(orderId)) == Some(orderId)
  {
    StatusPayloadParses(orderId, target);
    StatusPrefixOf(orderId, target);
    PrefixesExclusive(data);
  }

  lemma StatusPrefixOf(orderId: int, target: string)
    ensures StartsWith(CallbackData(orderId, target), SetStatusPrefix)
  {
    var rest := IntToString(orderId) + ":" + target;
    assert CallbackData(orderId, target) == SetStatusPrefix + rest;
    StartsWithConcat(SetStatusPrefix, rest);
  }

  lemma StartsWithConcat(p: string, rest: string)
    ensures StartsWith(p + rest, p)
  {
    assert (p + rest)[..|p|] == p;
  }

  /** Whatever follows, the status is written first. */
  lemma ApplyStatusWrites(cfg: Config, s: BotState, cb: Callback, id: int, newStatus: string)
    ensures ApplyStatus(cfg, s, cb, id, newStatus).orders == WithStatus(s.orders, id, newStatus)
  {
  }

  /** For instance, a delivered order pressed back to `preparing` is
      reopened, although no keyboard offers that step. */
  lemma DeliveredOrderReopened(cfg: Config, s: BotState, cb: Callback, orderId: int, target: string)
    requires target == Preparing && cb.data == CallbackData(orderId, target)
    requires ChatKey(cb.chat) == cfg.adminId && orderId != 0
    requires orderId in s.orders && s.orders[orderId].status == Delivered
    ensures !IsValidTransition(s.orders[orderId].status, target)
    ensures orderId in CallbackSpec(cfg, s, cb).orders
    ensures CallbackSpec(cfg, s, cb).orders[orderId].status == target
  {
    NoLeavingDelivered(orderId, target);
    NoTransitionGuard(cfg, s, cb, orderId, target);
  }

  /** A write to a missing order reports it and leaves the store as it was;
      a row whose items do not parse keeps the status just written and the
      press is answered twice, the second time with the failure alert. */
  lemma ApplyStatusFailures(cfg: Config, s: BotState, cb: Callback, orderId: int, newStatus: string)
    ensures orderId !in s.orders ==>
      var r := ApplyStatus(cfg, s, cb, orderId, newStatus);
      r.orders == s.orders && r.outbox == s.outbox + TgFetch(cfg, Alert(cb.id, NotFoundNotice))
    ensures orderId in s.orders && s.orders[orderId].items.None? ==>
      var r := ApplyStatus(cfg, s, cb, orderId, newStatus);
      && r.orders[orderId].status == newStatus
      && r.outbox == s.outbox + TgFetch(cfg, Acknowledgement(cb, r.orders[orderId], newStatus))
                    + TgFetch(cfg, Alert(cb.id, FailureNotice))
  {
  }

  /** In an outbox `o` that extends `before` by the replies to a write that
      read back `row`, the press is acknowledged first, then the operator
      message is edited (always as a delivery, since the row has no
      delivery type), and last the customer is told exactly when the row
      has a Telegram id and the new status is not `accepted`. */
  lemma StatusChangeMessages(cfg: Config, cb: Callback, row: OrderRow, newStatus: string, before: seq<ApiCall>, o: seq<ApiCall>)
    requires TokenUsable(cfg) && newStatus in ValidStatuses && row.items.Some?
    requires o == before + ([Acknowledgement(cb, row, newStatus)]
                            + UpdateAdminMessage(cfg, ChatField(cb.chat), cb.messageId, RowView(row, row.items.value), newStatus)
                            + CustomerNotice(cfg, row, newStatus))
    ensures var edit := UpdateAdminMessage(cfg, ChatField(cb.chat), cb.messageId, RowView(row, row.items.value), newStatus);
      var told := row.telegramId != "" && newStatus != Accepted;
      && KindWord(RowView(row, row.items.value)) == "ДОСТАВКА"
      && |o| == |before| + 1 + |edit| + (if told then 1 else 0)
      && o[..|before|] == before
      && o[|before|] == Acknowledgement(cb, row, newStatus)
      && (forall k :: 0 <= k < |edit| ==> o[|before| + 1 + k] == edit[k])
      && (told ==> o[|o| - 1].SendMessage?
                   && o[|o| - 1].chatId == row.telegramId
                   && Contains(o[|o| - 1].text, "Заказ #" + row.orderNumber))
  {
    var edit := UpdateAdminMessage(cfg, ChatField(cb.chat), cb.messageId, RowView(row, row.items.value), newStatus);
    var notice := CustomerNotice(cfg, row, newStatus);
    CustomerNoticeShape(cfg, row, newStatus);
    NoticeLayout(o, before, Acknowledgement(cb, row, newStatus), edit, notice, row.telegramId, row.orderNumber,
                 row.telegramId != "" && newStatus != Accepted);
    RowViewIsDelivery(row, row.items.value);
  }

  /** A successful write stores the new status and appends the
      acknowledgement, the operator edit and the customer notice, in that
      order; `StatusChangeMessages` says where each lands. */
  lemma StatusChangeOutbox(cfg: Config, s: BotState, cb: Callback, orderId: int, newStatus: string)
    requires TokenUsable(cfg)
    requires orderId in s.orders && s.orders[orderId].items.Some?
    ensures var r := ApplyStatus(cfg, s, cb, orderId, newStatus);
      var row := r.orders[orderId];
      && row == s.orders[orderId].(status := newStatus)
      && r.outbox == s.outbox + ([Acknowledgement(cb, row, newStatus)]
                                 + UpdateAdminMessage(cfg, ChatField(cb.chat), cb.messageId, RowView(row, row.items.value), newStatus)
                                 + CustomerNotice(cfg, row, newStatus))
  {
    var r := ApplyStatus(cfg, s, cb, orderId, newStatus);
    ApplyStatusFound(cfg, s, cb, orderId, newStatus);
    RepliesForRow(cfg, cb, r.orders[orderId], newStatus);
  }

  lemma ApplyStatusFound(cfg: Config, s: BotState, cb: Callback, id: int, newStatus: string)
    requires id in s.orders
    ensures var r := ApplyStatus(cfg, s, cb, id, newStatus);
      && id in r.orders && r.orders[id] == s.orders[id].(status := newStatus)
      && r.outbox == s.outbox + StatusReplies(cfg, cb, Some(r.orders[id]), newStatus)
  {
  }

  lemma RepliesForRow(cfg: Config, cb: Callback, row: OrderRow, newStatus: string)
    requires TokenUsable(cfg) && row.items.Some?
    ensures StatusReplies(cfg, cb, Some(row), newStatus)
      == [Acknowledgement(cb, row, newStatus)]
         + UpdateAdminMessage(cfg, ChatField(cb.chat), cb.messageId, RowView(row, row.items.value), newStatus)
         + CustomerNotice(cfg, row, newStatus)
  {
  }

  /** The customer gets one message naming the order, or nothing. */
  lemma CustomerNoticeShape(cfg: Config, row: OrderRow, newStatus: string)
    requires TokenUsable(cfg) && newStatus in ValidStatuses
    ensures var n := CustomerNotice(cfg, row, newStatus);
      && (|n| == 1 <==> row.telegramId != "" && newStatus != Accepted)
      && (|n| != 1 ==> n == [])
      && (|n| == 1 ==> n[0].SendMessage? && n[0].chatId == row.telegramId
                       && Contains(n[0].text, "Заказ #" + row.orderNumber))
  {
    StatusUpdateToUserShape(cfg, row.telegramId, row.orderNumber, newStatus);
  }

  /** A stored row has no delivery type, so it is always shown as a delivery. */
  lemma RowViewIsDelivery(row: OrderRow, items: seq<Item>)
    ensures KindWord(RowView(row, items)) == "ДОСТАВКА"
  {
  }

  /** Where each part of an appended reply sits in the outbox. */
  lemma CallsAssoc(a: seq<ApiCall>, b: seq<ApiCall>, c: seq<ApiCall>)
    ensures (a + b) + c == a + (b + c)
  {
  }

  /** The outbox layout of a status change, over its parts. */
  lemma NoticeLayout(o: seq<ApiCall>, a: seq<ApiCall>, x: ApiCall, e: seq<ApiCall>, n: seq<ApiCall>,
                     chat: string, number: string, told: bool)
    requires o == a + ([x] + e + n)
    requires |n| == 1 <==> told
    requires |n| != 1 ==> n == []
    requires |n| == 1 ==> n[0].SendMessage? && n[0].chatId == chat && Contains(n[0].text, "Заказ #" + number)
    ensures |o| == |a| + 1 + |e| + (if told then 1 else 0)
    ensures o[..|a|] == a
    ensures o[|a|] == x
    ensures forall k :: 0 <= k < |e| ==> o[|a| + 1 + k] == e[k]
    ensures told ==> o[|o| - 1].SendMessage? && o[|o| - 1].chatId == chat
                     && Contains(o[|o| - 1].text, "Заказ #" + number)
  {
    OutboxLayout(a, x, e, n);
  }

  lemma OutboxLayout(a: seq<ApiCall>, x: ApiCall, e: seq<ApiCall>, n: seq<ApiCall>)
    ensures var o := a + ([x] + e + n);
      && |o| == |a| + 1 + |e| + |n|
      && o[..|a|] == a
      && o[|a|] == x
      && o[|a| + 1..|a| + 1 + |e|] == e
      && (|n| == 1 ==> o[|o| - 1] == n[0])
  {
    var o := a + ([x] + e + n);
    assert o[..|a|] == a;
    assert o[|a| + 1..|a| + 1 + |e|] == e;
  }

  /** `/start` gets the welcome, with the sender's name, in the chat's
      language, and the main keyboard. */
  lemma StartGetsWelcome(cfg: Config, s: BotState, m: Message)
    requires m.chat.Some? && Trim(m.text) == "/start"
    ensures MessageSpec(cfg, s, m).outbox == s.outbox
      + TgFetch(cfg, SendMessage(m.chat.value, Welcome(GetT(s.userLangs, m.chat.value), m.firstName), false,
                                 MainKeyboard(cfg, s.userLangs, m.chat.value)))
  {
  }

  /** The language button of any of the three languages gets the picker. */
  lemma LangButtonGetsPicker(cfg: Config, s: BotState, m: Message)
    requires m.chat.Some? && IsLangButton(Trim(m.text))
    ensures MessageSpec(cfg, s, m).outbox == s.outbox
      + TgFetch(cfg, SendMessage(m.chat.value, GetT(s.userLangs, m.chat.value).chooseLang, false,
                                 InlineKeyboard(LangInlineKeyboard())))
  {
    var t := Trim(m.text);
    ButtonsDistinct(t);
    var call := SendMessage(m.chat.value, GetT(s.userLangs, m.chat.value).chooseLang, false, InlineKeyboard(LangInlineKeyboard()));
    assert TextReply(cfg, s.userLangs, m.chat.value, t, m.firstName) == Some(call);
  }

  /** A menu button gets the warning exactly while no web-app URL is set. */
  lemma MenuButtonWarns(cfg: Config, s: BotState, m: Message)
    requires m.chat.Some? && IsMenuButton(Trim(m.text))
    ensures cfg.webAppUrl == "" ==>
      MessageSpec(cfg, s, m).outbox == s.outbox + TgFetch(cfg, SendMessage(m.chat.value, NoWebAppNotice, false, NoMarkup))
    ensures cfg.webAppUrl != "" ==> MessageSpec(cfg, s, m) == s
  {
    var t := Trim(m.text);
    ButtonsDistinct(t);
    assert cfg.webAppUrl == "" ==>
      TextReply(cfg, s.userLangs, m.chat.value, t, m.firstName) == Some(SendMessage(m.chat.value, NoWebAppNotice, false, NoMarkup));
    assert cfg.webAppUrl != "" ==> TextReply(cfg, s.userLangs, m.chat.value, t, m.firstName).None?;
  }

  /** The three kinds of recognised text do not overlap: a language button
      starts with 🌐, a menu button with 🍽 and the command with `/`. */
  lemma ButtonsDistinct(t: string)
    ensures IsLangButton(t) ==> t != "/start"
    ensures IsMenuButton(t) ==> t != "/start" && !IsLangButton(t)
  {
    if IsLangButton(t) {
      assert t[0] == '🌐';
    }
    if IsMenuButton(t) {
      assert t[0] == '🍽';
    }
  }

  /** Any other text gets no reply. */
  lemma OtherTextIgnored(cfg: Config, s: BotState, m: Message)
    requires Trim(m.text) != "/start" && !IsLangButton(Trim(m.text)) && !IsMenuButton(Trim(m.text))
    ensures MessageSpec(cfg, s, m) == s
  {
  }

  // ---------------------------------------------------------------------
  // Properties of the polling loop
  // ---------------------------------------------------------------------

  /** `r` differs from `s` at most by requests appended to the outbox and
      by languages and orders; the cursor and the loop flag are as in `s`. */
  predicate Extends(r: BotState, s: BotState) {
    && |r.outbox| >= |s.outbox| && r.outbox[..|s.outbox|] == s.outbox
    && r.pollingOffset == s.pollingOffset && r.pollingActive == s.pollingActive
  }

  lemma ExtendsTrans(a: BotState, b: BotState, c: BotState)
    requires Extends(b, a) && Extends(c, b)
    ensures Extends(c, a)
  {
    assert c.outbox[..|b.outbox|][..|a.outbox|] == c.outbox[..|a.outbox|];
  }

  lemma AppendExtends(s: BotState, r: BotState, calls: seq<ApiCall>)
    requires r.outbox == s.outbox + calls
    requires r.pollingOffset == s.pollingOffset && r.pollingActive == s.pollingActive
    ensures Extends(r, s)
  {
    assert r.outbox[..|s.outbox|] == s.outbox;
  }

  lemma ApplyStatusExtends(cfg: Config, s: BotState, cb: Callback, orderId: int, newStatus: string)
    ensures Extends(ApplyStatus(cfg, s, cb, orderId, newStatus), s)
  {
    var orders := WithStatus(s.orders, orderId, newStatus);
    AppendExtends(s, ApplyStatus(cfg, s, cb, orderId, newStatus), StatusReplies(cfg, cb, Lookup(orders, orderId), newStatus));
  }

  lemma CallbackExtends(cfg: Config, s: BotState, cb: Callback)
    ensures Extends(CallbackSpec(cfg, s, cb), s)
  {
    var r := CallbackSpec(cfg, s, cb);
    if StartsWith(cb.data, SetLangPrefix) {
      var lang := cb.data[|SetLangPrefix|..];
      if KnownLang(lang) {
        var key := ChatKey(cb.chat);
        var langs := s.userLangs[key := lang];
        var s1 := Sent(cfg, s.(userLangs := langs), AnswerCallbackQuery(cb.id, None, false));
        AppendExtends(s, s1, TgFetch(cfg, AnswerCallbackQuery(cb.id, None, false)));
        AppendExtends(s1, r, TgFetch(cfg, SendMessage(ChatField(cb.chat), GetT(langs, key).langChanged, false,
                                                      MainKeyboard(cfg, langs, key))));
        ExtendsTrans(s, s1, r);
      } else {
        AppendExtends(s, r, []);
      }
    } else if StartsWith(cb.data, SetStatusPrefix) {
      if ChatKey(cb.chat) != cfg.adminId {
        AppendExtends(s, r, TgFetch(cfg, Alert(cb.id, AdminOnlyNotice)));
      } else {
        var parts := Split(cb.data, ':');
        if |parts| < 3 {
          AppendExtends(s, r, []);
        } else {
          var orderId := ParseInt(parts[1]);
          if orderId.None? || orderId.value == 0 || parts[2] !in ValidStatuses {
            AppendExtends(s, r, TgFetch(cfg, Alert(cb.id, InvalidNotice)));
          } else {
            ApplyStatusExtends(cfg, s, cb, orderId.value, parts[2]);
          }
        }
      }
    } else {
      AppendExtends(s, r, []);
    }
  }

  /** No message changes languages, orders or the cursor; at most one
      reply is sent, to the message's chat. */
  lemma MessageFrame(cfg: Config, s: BotState, m: Message)
    ensures var r := MessageSpec(cfg, s, m);
      && r.userLangs == s.userLangs && r.orders == s.orders
      && Extends(r, s) && |r.outbox| <= |s.outbox| + 1
      && (|r.outbox| > |s.outbox| ==>
            m.chat.Some? && r.outbox[|s.outbox|].SendMessage? && r.outbox[|s.outbox|].chatId == m.chat.value)
  {
    var r := MessageSpec(cfg, s, m);
    match m.chat
    case None => AppendExtends(s, r, []);
    case Some(chat) =>
      match TextReply(cfg, s.userLangs, chat, Trim(m.text), m.firstName)
      case Some(call) => AppendExtends(s, r, TgFetch(cfg, call));
      case None => AppendExtends(s, r, []);
  }

  /** A handler never moves the cursor or stops the loop, only appends to
      the outbox; one that throws changes nothing at all. */
  lemma UpdateKeepsCursor(cfg: Config, s: BotState, u: Update)
    ensures Extends(UpdateSpec(cfg, s, u), s)
    ensures Throws(u) ==> UpdateSpec(cfg, s, u) == s
  {
    match u.body
    case CallbackQuery(cb) => CallbackExtends(cfg, s, cb);
    case TextMessage(m) => MessageFrame(cfg, s, m);
    case NoBody => AppendExtends(s, s, []);
  }

  /** After a batch the cursor is one past the last update's id, whatever
      the handlers did, and the loop's flag is as it was. */
  lemma {:induction false} BatchCursor(cfg: Config, s: BotState, updates: seq<Update>)
    requires |updates| > 0
    decreases |updates|
    ensures var r := BatchSpec(cfg, s, updates);
      && r.pollingOffset == updates[|updates| - 1].updateId + 1
      && r.pollingActive == s.pollingActive
      && |r.outbox| >= |s.outbox| && r.outbox[..|s.outbox|] == s.outbox
  {
    var s0 := s.(pollingOffset := updates[0].updateId + 1);
    var s1 := UpdateSpec(cfg, s0, updates[0]);
    UpdateKeepsCursor(cfg, s0, updates[0]);
    assert BatchSpec(cfg, s, updates) == BatchSpec(cfg, s1, updates[1..]);
    if |updates| > 1 {
      BatchCursor(cfg, s1, updates[1..]);
      OutboxPrefixTrans(s.outbox, s1.outbox, BatchSpec(cfg, s1, updates[1..]).outbox);
    }
  }

  lemma OutboxPrefixTrans(a: seq<ApiCall>, b: seq<ApiCall>, c: seq<ApiCall>)
    requires |b| >= |a| && b[..|a|] == a
    requires |c| >= |b| && c[..|b|] == b
    ensures |c| >= |a| && c[..|a|] == a
  {
    assert c[..|b|][..|a|] == c[..|a|];
  }

  /** The batch from position `j` on handles update `j`, then the rest. */
  lemma BatchStep(cfg: Config, s: BotState, updates: seq<Update>, j: int)
    requires 0 <= j < |updates|
    ensures BatchSpec(cfg, s, updates[j..])
      == BatchSpec(cfg, UpdateSpec(cfg, s.(pollingOffset := updates[j].updateId + 1), updates[j]), updates[j + 1..])
  {
    assert updates[j..][0] == updates[j] && updates[j..][1..] == updates[j + 1..];
  }

  /** Updates 5, 6 and 7 where 6 has no chat and throws: the cursor still
      ends at 8. */
  lemma ThrowingHandlerSkipped(cfg: Config, s: BotState)
    ensures var batch := [Update(5, NoBody), Update(6, TextMessage(Message(None, "/start", ""))), Update(7, NoBody)];
      && Throws(batch[1])
      && BatchSpec(cfg, s, batch).pollingOffset == 8
  {
    var batch := [Update(5, NoBody), Update(6, TextMessage(Message(None, "/start", ""))), Update(7, NoBody)];
    BatchCursor(cfg, s, batch);
  }

  /** Each round first asks for updates from the current cursor. */
  lemma RoundAsksFromCursor(cfg: Config, s: BotState, r: Round)
    ensures var t := RoundSpec(cfg, s, r);
      && |t.outbox| > |s.outbox|
      && t.outbox[..|s.outbox|] == s.outbox
      && t.outbox[|s.outbox|] == GetUpdates(s.pollingOffset, PollTimeout)
      && (r.stopRequested ==> !t.pollingActive)
  {
    var s1 := s.(outbox := s.outbox + [GetUpdates(s.pollingOffset, PollTimeout)]);
    if r.reply.Batch? && r.reply.ok && |r.reply.updates| > 0 {
      BatchCursor(cfg, s1, r.reply.updates);
      var t := BatchSpec(cfg, s1, r.reply.updates);
      assert t.outbox[..|s1.outbox|][..|s.outbox|] == t.outbox[..|s.outbox|];
      assert t.outbox[..|s1.outbox|][|s.outbox|] == t.outbox[|s.outbox|];
    }
  }

  /** A stop requested during a round ends the loop after that round. */
  lemma StopEndsPolling(cfg: Config, s: BotState, rounds: seq<Round>)
    requires |rounds| > 0 && s.pollingActive && rounds[0].stopRequested
    ensures RoundsSpec(cfg, s, rounds) == RoundSpec(cfg, s, rounds[0])
    ensures !RoundsSpec(cfg, s, rounds).pollingActive
  {
  }

  /** The polling loop only appends to the outbox: whatever rounds run,
      every request sent before the loop is kept, in place. */
  lemma {:induction false} RoundsKeepOutbox(cfg: Config, s: BotState, rounds: seq<Round>)
    decreases |rounds|
    ensures var t := RoundsSpec(cfg, s, rounds);
      |t.outbox| >= |s.outbox| && t.outbox[..|s.outbox|] == s.outbox
  {
    if |rounds| > 0 && s.pollingActive {
      var s1 := RoundSpec(cfg, s, rounds[0]);
      RoundAsksFromCursor(cfg, s, rounds[0]);
      RoundsKeepOutbox(cfg, s1, rounds[1..]);
      OutboxPrefixTrans(s.outbox, s1.outbox, RoundsSpec(cfg, s1, rounds[1..]).outbox);
    }
  }

  /** Without a usable token polling never starts; with one, the webhook is
      deleted first, before any `getUpdates`, and the loop then runs over
      the rounds observed. */
  lemma PollStart(cfg: Config, s: BotState, rounds: seq<Round>)
    ensures !TokenUsable(cfg) ==> PollSpec(cfg, s, rounds) == s
    ensures TokenUsable(cfg) && rounds == [] ==>
      PollSpec(cfg, s, rounds) == s.(pollingActive := true, outbox := s.outbox + [DeleteWebhook(false)])
    ensures TokenUsable(cfg) ==>
      var t := PollSpec(cfg, s, rounds);
      && |t.outbox| > |s.outbox|
      && t.outbox[..|s.outbox| + 1] == s.outbox + [DeleteWebhook(false)]
      && t == RoundsSpec(cfg, s.(pollingActive := true, outbox := s.outbox + [DeleteWebhook(false)]), rounds)
  {
    if TokenUsable(cfg) {
      RoundsKeepOutbox(cfg, s.(pollingActive := true, outbox := s.outbox + [DeleteWebhook(false)]), rounds);
    }
  }
}
