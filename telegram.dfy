/** backend/src/services/telegram.js: the order-status machine (the next-step
    keyboard), the status captions, and the messages sent to the operator
    and to the customer. Each `Send...`/`Update...` function returns the Bot
    API requests the source would make, in order. */
module Telegram {
  import opened Common
  import opened Channel

  // ---------------------------------------------------------------------
  // Statuses
  // ---------------------------------------------------------------------

  const Accepted: string := "accepted"
  const Preparing: string := "preparing"
  const Cooking: string := "cooking"
  const OutForDelivery: string := "out_for_delivery"
  const Delivered: string := "delivered"
  const Cancelled: string := "cancelled"

  /** The six statuses an order may hold. */
  const ValidStatuses: seq<string> :=
    [Accepted, Preparing, Cooking, OutForDelivery, Delivered, Cancelled]

  /** The happy path, in order. */
  const Chain: seq<string> := [Accepted, Preparing, Cooking, OutForDelivery, Delivered]

  predicate IsTerminal(status: string) {
    status == Delivered || status == Cancelled
  }

  /** Position of `status` on the happy path, found by a search of `Chain`. */
  function ChainIndex(status: string, from: nat := 0): (r: Option<nat>)
    requires from <= |Chain|
    decreases |Chain| - from
    ensures r.Some? ==> from <= r.value < |Chain| && Chain[r.value] == status
    ensures r.None? ==> forall i :: from <= i < |Chain| ==> Chain[i] != status
  {
    if from == |Chain| then None
    else if Chain[from] == status then Some(from)
    else ChainIndex(status, from + 1)
  }

  /** The status one step further along the happy path, if any. */
  function NextInChain(status: string): Option<string> {
    match ChainIndex(status)
    case Some(i) => if i + 1 < |Chain| then Some(Chain[i + 1]) else None
    case None => None
  }

  // ---------------------------------------------------------------------
  // buildStatusKeyboard
  // ---------------------------------------------------------------------

  const StartCookingLabel: string := "👨‍🍳 Начать готовить"
  const PackLabel: string := "🔥 Готово, упаковываем"
  const HandOverLabel: string := "🚗 Передать курьеру"
  const DeliveredLabel: string := "✅ Заказ доставлен!"
  const CancelLabel: string := "❌ Отменить заказ"

  /** `setstatus:<orderId>:<target>` */
  function CallbackData(orderId: int, target: string): string {
    "setstatus:" + IntToString(orderId) + ":" + target
  }

  /** One row per action, one button per row. */
  function ActionRows(orderId: int, forward: string, forwardLabel: string): seq<seq<Button>> {
    [[Button(forwardLabel, CallbackData(orderId, forward))],
     [Button(CancelLabel, CallbackData(orderId, Cancelled))]]
  }

  /** `FLOWS[currentStatus] || []`: the rows offered for each status. */
  function Flow(orderId: int, currentStatus: string): seq<seq<Button>> {
    if currentStatus == Accepted then ActionRows(orderId, Preparing, StartCookingLabel)
    else if currentStatus == Preparing then ActionRows(orderId, Cooking, PackLabel)
    else if currentStatus == Cooking then ActionRows(orderId, OutForDelivery, HandOverLabel)
    else if currentStatus == OutForDelivery then ActionRows(orderId, Delivered, DeliveredLabel)
    else []
  }

  /** `buildStatusKeyboard`: `None` stands for the `null` it returns when
      there is no row to offer. */
  function BuildStatusKeyboard(orderId: int, currentStatus: string): Option<seq<seq<Button>>> {
    var rows := Flow(orderId, currentStatus);
    if |rows| > 0 then Some(rows) else None
  }

  /** The keyboard follows the happy path: a status with a successor other
      than the last one gets exactly two one-button rows, the forward step
      first and the cancel step second; every other status, terminal or
      unknown, gets no keyboard. */
  lemma KeyboardFollowsChain(orderId: int, status: string)
    ensures BuildStatusKeyboard(orderId, status).Some?
        <==> status in Chain && !IsTerminal(status)
    ensures BuildStatusKeyboard(orderId, status).Some? ==>
      var rows := BuildStatusKeyboard(orderId, status).value;
      && NextInChain(status).Some?
      && |rows| == 2 && |rows[0]| == 1 && |rows[1]| == 1
      && rows[0][0].callbackData == CallbackData(orderId, NextInChain(status).value)
      && rows[1][0].callbackData == CallbackData(orderId, Cancelled)
  {
    if status in Chain && !IsTerminal(status) {
      assert status == Chain[0] || status == Chain[1] || status == Chain[2] || status == Chain[3];
    }
  }

  /** Every button of every keyboard carries `setstatus:<orderId>:<s>` for
      one of the six statuses. */
  lemma KeyboardPayloadsWellFormed(orderId: int, status: string)
    ensures BuildStatusKeyboard(orderId, status).Some? ==>
      var rows := BuildStatusKeyboard(orderId, status).value;
      forall i, j :: 0 <= i < |rows| && 0 <= j < |rows[i]| ==>
        exists target :: target in ValidStatuses && rows[i][j].callbackData == CallbackData(orderId, target)
  {
  }

  /** `isValidTransition(from, to)`: some button of the keyboard of `from`
      leads to `to`. The bot's handler does not consult it (see BotHandler). */
  predicate IsValidTransition(from: string, to: string) {
    var rows: seq<seq<Button>> := Flow(0, from);
    exists i, j :: 0 <= i < |rows| && 0 <= j < |rows[i]| && rows[i][j].callbackData == CallbackData(0, to)
  }

  lemma CallbackDataInjective(orderId: int, a: string, b: string)
    requires CallbackData(orderId, a) == CallbackData(orderId, b)
    ensures a == b
  {
    var p := "setstatus:" + IntToString(orderId) + ":";
    assert CallbackData(orderId, a) == p + a;
    assert CallbackData(orderId, b) == p + b;
    assert a == (p + a)[|p|..];
    assert b == (p + b)[|p|..];
  }

  /** The transitions are exactly one step forward along the happy path, or
      cancellation from a non-terminal status. */
  lemma {:induction false} ValidTransitionIff(from: string, to: string)
    ensures IsValidTransition(from, to)
        <==> (NextInChain(from) == Some(to) && !IsTerminal(from))
             || (to == Cancelled && from in Chain && !IsTerminal(from))
  {
    KeyboardFollowsChain(0, from);
    var rows: seq<seq<Button>> := Flow(0, from);
    if IsValidTransition(from, to) {
      var i, j :| 0 <= i < |rows| && 0 <= j < |rows[i]| && rows[i][j].callbackData == CallbackData(0, to);
      assert i == 0 || i == 1;
      if i == 0 {
        CallbackDataInjective(0, to, NextInChain(from).value);
      } else {
        CallbackDataInjective(0, to, Cancelled);
      }
    } else {
      if from in Chain && !IsTerminal(from) {
        assert rows[0][0].callbackData == CallbackData(0, NextInChain(from).value);
        assert rows[1][0].callbackData == CallbackData(0, Cancelled);
      }
    }
  }

  /** No transition stays put, moves backwards, or leaves a terminal status. */
  lemma TransitionsMoveForward(from: string, to: string)
    requires IsValidTransition(from, to)
    ensures !IsTerminal(from) && from != to && to in ValidStatuses
    ensures to != Cancelled ==>
      ChainIndex(from).Some? && ChainIndex(to).Some? && ChainIndex(to).value == ChainIndex(from).value + 1
  {
    ValidTransitionIff(from, to);
    if to != Cancelled {
      assert from in Chain;
      var i := ChainIndex(from).value;
      var k := ChainIndex(to);
      assert Chain[i + 1] == to;
      assert k.Some?;
    }
  }

  /** A delivered order gets no keyboard at all, so no press leads out of
      `delivered`. */
  lemma NoLeavingDelivered(orderId: int, to: string)
    ensures BuildStatusKeyboard(orderId, Delivered).None?
    ensures !IsValidTransition(Delivered, to)
  {
    KeyboardFollowsChain(orderId, Delivered);
    ValidTransitionIff(Delivered, to);
  }

  // ---------------------------------------------------------------------
  // statusLine
  // ---------------------------------------------------------------------

  const StatusWord: string := "Статус: "

  /** `LABELS`: each known status's emoji and caption word. */
  function StatusCaption(status: string): Option<(string, string)> {
    if status == Accepted then Some(("📋", "Принят"))
    else if status == Preparing then Some(("👨‍🍳", "Готовится"))
    else if status == Cooking then Some(("🔥", "Упаковываем"))
    else if status == OutForDelivery then Some(("🚗", "В пути к клиенту"))
    else if status == Delivered then Some(("✅", "Доставлен"))
    else if status == Cancelled then Some(("❌", "Отменён"))
    else None
  }

  /** `statusLine`: `<emoji> Статус: <caption>` for each known status, else
      `Статус: <s>`. */
  function StatusLine(status: string): string {
    match StatusCaption(status)
    case Some((emoji, caption)) => emoji + " " + StatusWord + caption
    case None => StatusWord + status
  }

  /** Every line names the status word; exactly the six known statuses get
      a caption of their own, and an unknown one is shown verbatim. */
  lemma StatusLineShape(status: string)
    ensures Contains(StatusLine(status), StatusWord)
    ensures StatusCaption(status).Some? <==> status in ValidStatuses
    ensures status !in ValidStatuses ==> StatusLine(status) == StatusWord + status
  {
    match StatusCaption(status)
    case Some((emoji, caption)) => ContainsMiddle(emoji + " ", StatusWord, caption);
    case None => ContainsMiddle("", StatusWord, status);
  }

  /** Distinct statuses never share a line: the known ones differ in their
      first character, which is never the first letter of the status word. */
  lemma StatusLineInjective(a: string, b: string)
    requires StatusLine(a) == StatusLine(b)
    ensures a == b
  {
    StatusLineHead(a);
    StatusLineHead(b);
    if StatusCaption(a).None? && StatusCaption(b).None? {
      assert a == StatusLine(a)[|StatusWord|..];
      assert b == StatusLine(b)[|StatusWord|..];
    } else {
      assert StatusLine(a)[0] == StatusLine(b)[0];
    }
  }

  /** The first character of a status line: the caption's emoji, or the
      status word's first letter. */
  lemma StatusLineHead(status: string)
    ensures |StatusLine(status)| > 0
    ensures StatusCaption(status).Some? ==>
      |StatusCaption(status).value.0| > 0 && StatusLine(status)[0] == StatusCaption(status).value.0[0]
    ensures StatusCaption(status).None? ==> StatusLine(status)[0] == 'С'
  {
  }

  // ---------------------------------------------------------------------
  // Orders as the renderers see them
  // ---------------------------------------------------------------------

  /** A cart line inside an order; an empty `size` is a missing one. */
  datatype Item = Item(name: string, size: string, quantity: int, price: int)

  /** A delivery point; each coordinate is the decimal text of the number
      (empty when absent). */
  datatype GeoPoint = GeoPoint(latitude: string, longitude: string)

  /** The order object handed to the renderers. Text fields are empty when
      the object lacks them; `deliveryType` is empty for rows read back from
      the database, which has no such column. */
  datatype OrderView = OrderView(
    id: int,
    orderNumber: string,
    items: seq<Item>,
    deliveryType: string,
    customerName: string,
    firstName: string,
    lastName: string,
    phone: string,
    deliveryAddress: string,
    totalAmount: int,
    paymentMethod: string,
    location: Option<GeoPoint>)

  /** A coordinate is truthy when present and non-zero. */
  predicate CoordinateTruthy(c: string) {
    exists i | 0 <= i < |c| :: '1' <= c[i] <= '9'
  }

  predicate IsPickup(order: OrderView) {
    order.deliveryType == "pickup"
  }

  /** The map link and the location pin are added only for deliveries with
      both coordinates truthy. */
  predicate ShowsMap(order: OrderView) {
    && !IsPickup(order)
    && order.location.Some?
    && CoordinateTruthy(order.location.value.latitude)
    && CoordinateTruthy(order.location.value.longitude)
  }

  /** `toLocaleString('ru-RU')` is stood in for by plain decimal text. */
  function FormatAmount(n: int): string {
    IntToString(n)
  }

  const DefaultSize: string := "стд."

  /** One operator-side item line, showing `price × quantity` as its total. */
  function ItemLine(item: Item): string {
    "  • " + item.name + " (" + (if item.size == "" then DefaultSize else item.size) + ") × "
      + IntToString(item.quantity) + " = " + FormatAmount(item.price * item.quantity) + " сум"
  }

  function ItemLines(items: seq<Item>): (lines: seq<string>)
    ensures |lines| == |items|
    ensures forall i :: 0 <= i < |items| ==> lines[i] == ItemLine(items[i])
  {
    seq(|items|, i requires 0 <= i < |items| => ItemLine(items[i]))
  }

  /** Each item line shows the size (or the default) and the line total. */
  lemma ItemLineShowsTotal(item: Item)
    ensures Contains(ItemLine(item), " = " + FormatAmount(item.price * item.quantity) + " сум")
    ensures Contains(ItemLine(item), "(" + (if item.size == "" then DefaultSize else item.size) + ")")
  {
    var size := if item.size == "" then DefaultSize else item.size;
    var qty := IntToString(item.quantity);
    var amount := FormatAmount(item.price * item.quantity);
    assert ItemLine(item) == "  • " + item.name + " (" + size + ") × " + qty + " = " + amount + " сум";
    LineEndsWithTotal("  • " + item.name + " (" + size + ") × " + qty, amount);
    LineShowsSize("  • " + item.name, size, qty, amount);
  }

  lemma LineEndsWithTotal(head: string, amount: string)
    ensures Contains(head + " = " + amount + " сум", " = " + amount + " сум")
  {
    assert head + " = " + amount + " сум" == head + (" = " + amount + " сум") + "";
    ContainsMiddle(head, " = " + amount + " сум", "");
  }

  lemma LineShowsSize(head: string, size: string, qty: string, amount: string)
    ensures Contains(head + " (" + size + ") × " + qty + " = " + amount + " сум", "(" + size + ")")
  {
    var rest := " × " + qty + " = " + amount + " сум";
    assert head + " (" + size + ") × " + qty + " = " + amount + " сум" == (head + " ") + ("(" + size + ")") + rest;
    ContainsMiddle(head + " ", "(" + size + ")", rest);
  }

  function PaymentLabel(paymentMethod: string): string {
    if paymentMethod == "click" then "Click"
    else if paymentMethod == "payme" then "Payme"
    else if paymentMethod == "cash" then "Наличные"
    else paymentMethod
  }

  const Rule: string := "━━━━━━━━━━━━━━━━━━━━"

  /** The lines both operator messages share after the header and name. */
  function OrderBody(order: OrderView): seq<string> {
    [ "", "🛒 *Состав заказа:*", JoinWith(ItemLines(order.items), "\n"), "",
      "💰 *Итого:* " + FormatAmount(order.totalAmount) + " сум",
      "💳 *Оплата:* " + PaymentLabel(order.paymentMethod),
      Rule ]
  }

  function KindWord(order: OrderView): string {
    if IsPickup(order) then "САМОВЫВОЗ" else "ДОСТАВКА"
  }

  function OrderHead(order: OrderView, emoji: string, name: string): seq<string> {
    [ emoji + " *" + KindWord(order) + " #" + order.orderNumber + "*",
      Rule,
      "📦 *Тип:* " + (if IsPickup(order) then "Самовывоз" else "Доставка"),
      "👤 *Имя:* " + name,
      "📞 *Телефон:* " + order.phone,
      "📍 *" + (if IsPickup(order) then "Филиал" else "Адрес") + ":* " + order.deliveryAddress ]
  }

  /** `${a || ''} ${b || ''}`.trim() */
  function FullName(order: OrderView): string {
    Trim(order.firstName + " " + order.lastName)
  }

  // ---------------------------------------------------------------------
  // sendAdminNotification
  // ---------------------------------------------------------------------

  function NewOrderCustomerName(order: OrderView): string {
    if order.customerName != "" then order.customerName
    else if FullName(order) != "" then FullName(order)
    else "Не указано"
  }

  function MapLine(p: GeoPoint): string {
    "🌍 *Карта:* [Открыть](https://www.google.com/maps?q=" + p.latitude + "," + p.longitude + ")"
  }

  /** The operator's new-order message, as its list of lines. */
  function AdminNotificationLines(order: OrderView): seq<string> {
    OrderHead(order, "🆕", NewOrderCustomerName(order))
      + (if ShowsMap(order) then [MapLine(order.location.value)] else [])
      + OrderBody(order)
      + ["\n" + StatusLine(Accepted)]
  }

  /** `null` reply markup for a missing keyboard. */
  function MarkupOf(keyboard: Option<seq<seq<Button>>>): Markup {
    match keyboard
    case Some(rows) => InlineKeyboard(rows)
    case None => NoMarkup
  }

  /** `sendAdminNotification`: the new-order message with the first-step
      keyboard, then the location pin when the map is shown. */
  function SendAdminNotification(cfg: Config, order: OrderView): seq<ApiCall> {
    if !TokenUsable(cfg) then []
    else
      TgFetch(cfg, SendMessage(cfg.adminId, JoinWith(AdminNotificationLines(order), "\n"), true,
                               MarkupOf(BuildStatusKeyboard(order.id, Accepted))))
      + (if ShowsMap(order)
         then TgFetch(cfg, SendLocation(cfg.adminId, order.location.value.latitude, order.location.value.longitude))
         else [])
  }

  /** The new-order message goes to the operator with the two first-step
      buttons; the map link and the pin appear exactly for deliveries with
      both coordinates truthy. */
  lemma AdminNotificationShape(cfg: Config, order: OrderView)
    requires TokenUsable(cfg)
    ensures var calls := SendAdminNotification(cfg, order);
      && |calls| == (if ShowsMap(order) then 2 else 1)
      && calls[0].SendMessage? && calls[0].chatId == cfg.adminId
      && calls[0].markup == InlineKeyboard(Flow(order.id, Accepted))
      && (ShowsMap(order) ==>
            calls[1] == SendLocation(cfg.adminId, order.location.value.latitude, order.location.value.longitude))
    ensures var lines := AdminNotificationLines(order);
      && |lines| == |AdminNotificationLines(order.(location := None))| + (if ShowsMap(order) then 1 else 0)
      && (ShowsMap(order) ==> lines[6] == MapLine(order.location.value))
  {
  }

  // ---------------------------------------------------------------------
  // updateAdminMessage
  // ---------------------------------------------------------------------

  function HeaderEmoji(newStatus: string): string {
    if newStatus == Cancelled then "🚫" else if newStatus == Delivered then "✅" else "📦"
  }

  function EditCustomerName(order: OrderView): string {
    if FullName(order) != "" then FullName(order) else "Клиент"
  }

  /** The operator message after a status change, as its list of lines. */
  function AdminEditLines(order: OrderView, newStatus: string): seq<string> {
    OrderHead(order, HeaderEmoji(newStatus), EditCustomerName(order))
      + OrderBody(order)
      + ["\n" + StatusLine(newStatus)]
  }

  /** `updateAdminMessage`: nothing without a token, a chat or a message id;
      otherwise one edit whose keyboard is the next step, or an empty inline
      keyboard in place of a missing one. */
  function UpdateAdminMessage(cfg: Config, chatId: string, messageId: int, order: OrderView, newStatus: string): seq<ApiCall> {
    if cfg.token == "" || chatId == "" || messageId == 0 then []
    else
      var keyboard := BuildStatusKeyboard(order.id, newStatus);
      TgFetch(cfg, EditMessageText(chatId, messageId, JoinWith(AdminEditLines(order, newStatus), "\n"), true,
                                   InlineKeyboard(if keyboard.Some? then keyboard.value else [])))
  }

  /** The edit is made in place exactly when token, chat and message id are
      present, and a terminal or unknown status leaves no button. */
  lemma UpdateAdminMessageCalls(cfg: Config, chatId: string, messageId: int, order: OrderView, newStatus: string)
    ensures var calls := UpdateAdminMessage(cfg, chatId, messageId, order, newStatus);
      && (|calls| == 1 <==> TokenUsable(cfg) && chatId != "" && messageId != 0)
      && (|calls| != 1 ==> calls == [])
      && (|calls| == 1 ==>
            && calls[0].EditMessageText? && calls[0].chatId == chatId && calls[0].messageId == messageId
            && calls[0].text == JoinWith(AdminEditLines(order, newStatus), "\n")
            && calls[0].markup.InlineKeyboard?
            && (calls[0].markup.rows == [] <==> !(newStatus in Chain && !IsTerminal(newStatus))))
  {
    KeyboardFollowsChain(order.id, newStatus);
  }

  /** The edited text opens with 🚫, ✅ or 📦 for a cancelled, a delivered or
      any other order, and closes with the new status line. */
  lemma AdminEditLinesShape(order: OrderView, newStatus: string)
    ensures var lines := AdminEditLines(order, newStatus);
      && StartsWith(lines[0], if newStatus == Cancelled then "🚫" else if newStatus == Delivered then "✅" else "📦")
      && lines[|lines| - 1] == "\n" + StatusLine(newStatus)
  {
    var e := HeaderEmoji(newStatus);
    var head := OrderHead(order, e, EditCustomerName(order));
    HeadStartsWith(order, e, EditCustomerName(order));
    assert AdminEditLines(order, newStatus) == head + (OrderBody(order) + ["\n" + StatusLine(newStatus)]);
  }

  lemma HeadStartsWith(order: OrderView, emoji: string, name: string)
    ensures StartsWith(OrderHead(order, emoji, name)[0], emoji)
  {
    var rest := " *" + KindWord(order) + " #" + order.orderNumber + "*";
    assert OrderHead(order, emoji, name)[0] == emoji + rest;
    assert (emoji + rest)[..|emoji|] == emoji;
  }

  // ---------------------------------------------------------------------
  // sendOrderConfirmationToUser / sendStatusUpdateToUser
  // ---------------------------------------------------------------------

  function ConfirmationItemLine(item: Item): string {
    "• " + item.name + " × " + IntToString(item.quantity)
  }

  function ConfirmationLines(order: OrderView): seq<string> {
    [ "✅ *Ваш заказ принят!*",
      "С вами свяжутся в ближайшее время.",
      "",
      "📋 *Номер заказа:* `" + "#" + order.orderNumber + "`",
      "🛍️ *Заказано:*",
      JoinWith(seq(|order.items|, i requires 0 <= i < |order.items| => ConfirmationItemLine(order.items[i])), "\n"),
      "",
      "💰 *Итого:* " + FormatAmount(order.totalAmount) + " сум",
      "🏢 *" + (if IsPickup(order) then "Самовывоз" else "Адрес") + ":* " + order.deliveryAddress,
      "💳 *Оплата:* " + PaymentLabel(order.paymentMethod) ]
  }

  /** `sendOrderConfirmationToUser`: the `lang` argument is accepted but the
      text is always the Russian one. */
  function SendOrderConfirmationToUser(cfg: Config, chatId: string, order: OrderView, lang: string): seq<ApiCall> {
    if !TokenUsable(cfg) || chatId == "" then []
    else TgFetch(cfg, SendMessage(chatId, JoinWith(ConfirmationLines(order), "\n"), true, NoMarkup))
  }

  /** The confirmation is the same whatever language is asked for, and it
      names the order number and the address. */
  lemma ConfirmationIgnoresLanguage(cfg: Config, chatId: string, order: OrderView, lang1: string, lang2: string)
    ensures SendOrderConfirmationToUser(cfg, chatId, order, lang1) == SendOrderConfirmationToUser(cfg, chatId, order, lang2)
    ensures Contains(JoinWith(ConfirmationLines(order), "\n"), "#" + order.orderNumber)
    ensures Contains(JoinWith(ConfirmationLines(order), "\n"), order.deliveryAddress)
  {
    ConfirmationNamesOrder(order);
    ConfirmationNamesAddress(order);
  }

  /** A string built as `a + h + t + b` contains `h + t`. */
  lemma ContainsJoined(a: string, h: string, t: string, b: string)
    ensures Contains(a + h + t + b, h + t)
  {
    assert a + h + t + b == a + (h + t) + b;
    ContainsMiddle(a, h + t, b);
  }

  lemma ConfirmationNamesOrder(order: OrderView)
    ensures Contains(JoinWith(ConfirmationLines(order), "\n"), "#" + order.orderNumber)
  {
    ContainsJoined("📋 *Номер заказа:* `", "#", order.orderNumber, "`");
    JoinWithContains(ConfirmationLines(order), "\n", 3, "#" + order.orderNumber);
  }

  lemma ConfirmationNamesAddress(order: OrderView)
    ensures Contains(JoinWith(ConfirmationLines(order), "\n"), order.deliveryAddress)
  {
    var lines := ConfirmationLines(order);
    var place := "🏢 *" + (if IsPickup(order) then "Самовывоз" else "Адрес") + ":* ";
    ContainsMiddle(place, order.deliveryAddress, "");
    assert lines[8] == place + order.deliveryAddress + "";
    JoinWithContains(lines, "\n", 8, order.deliveryAddress);
  }

  /** `STATUS_TEXTS`: each customer notice is `<emoji> *Заказ #<n><tail>`;
      there is none for `accepted` or an unknown status. */
  function StatusNotice(newStatus: string): Option<(string, string)> {
    if newStatus == Preparing then
      Some(("👨‍🍳", " готовится!*\n\nНаши повара уже приступили. Скоро будет готово! ⏳"))
    else if newStatus == Cooking then
      Some(("🔥", " упаковывается!*\n\nОсталось совсем немного, уже почти готово!"))
    else if newStatus == OutForDelivery then
      Some(("🚗", " в пути!*\n\nКурьер уже едет к вам. Ожидайте! 📍"))
    else if newStatus == Delivered then
      Some(("✅", " доставлен!*\n\nПриятного аппетита! 😋\nСпасибо, что выбрали нас! 🙏"))
    else if newStatus == Cancelled then
      Some(("❌", " отменён.*\n\nЕсли возникли вопросы — свяжитесь с нами."))
    else None
  }

  function StatusUpdateText(orderNumber: string, newStatus: string): Option<string> {
    match StatusNotice(newStatus)
    case Some((emoji, tail)) => Some(emoji + " *" + "Заказ #" + orderNumber + tail)
    case None => None
  }

  /** `sendStatusUpdateToUser` */
  function SendStatusUpdateToUser(cfg: Config, chatId: string, orderNumber: string, newStatus: string): seq<ApiCall> {
    if !TokenUsable(cfg) || chatId == "" then []
    else match StatusUpdateText(orderNumber, newStatus)
      case None => []
      case Some(text) => TgFetch(cfg, SendMessage(chatId, text, true, NoMarkup))
  }

  /** A notice exists for the five statuses after `accepted`, and it names
      the order. */
  lemma StatusUpdateTextNamesOrder(orderNumber: string, newStatus: string)
    ensures var text := StatusUpdateText(orderNumber, newStatus);
      && (text.Some? <==> newStatus in ValidStatuses && newStatus != Accepted)
      && (text.Some? ==> Contains(text.value, "Заказ #" + orderNumber))
  {
    StatusNoticeDomain(newStatus);
    match StatusNotice(newStatus)
    case Some((emoji, tail)) => NoticeNamesOrder(emoji, orderNumber, tail);
    case None =>
  }

  /** Exactly the five statuses after `accepted` have a notice. */
  lemma StatusNoticeDomain(newStatus: string)
    ensures StatusNotice(newStatus).Some? <==> newStatus in ValidStatuses && newStatus != Accepted
  {
  }

  lemma NoticeNamesOrder(emoji: string, orderNumber: string, tail: string)
    ensures Contains(emoji + " *" + "Заказ #" + orderNumber + tail, "Заказ #" + orderNumber)
  {
    ContainsMiddle(emoji + " *", "Заказ #" + orderNumber, tail);
    assert emoji + " *" + "Заказ #" + orderNumber + tail == emoji + " *" + ("Заказ #" + orderNumber) + tail;
  }

  /** The customer hears nothing about `accepted` (the confirmation covered
      it) or about an unknown status, and for each of the five others gets
      one message that names the order. */
  lemma StatusUpdateToUserShape(cfg: Config, chatId: string, orderNumber: string, newStatus: string)
    ensures var calls := SendStatusUpdateToUser(cfg, chatId, orderNumber, newStatus);
      && (|calls| == 1 <==> TokenUsable(cfg) && chatId != "" && newStatus in ValidStatuses && newStatus != Accepted)
      && (|calls| != 1 ==> calls == [])
      && (|calls| == 1 ==> calls[0].SendMessage? && calls[0].chatId == chatId
                            && Contains(calls[0].text, "Заказ #" + orderNumber))
  {
    StatusUpdateTextNamesOrder(orderNumber, newStatus);
  }
}
