/** The order routes: the order number, the request checks of
    `POST /api/orders`, the creation of a new order in status `accepted` and
    the two status PATCH routes with their whitelist. */
module Orders {
  import opened Common
  import opened Channel
  import opened Telegram
  import opened Store
  import opened Helpers

  // ---------------------------------------------------------------------
  // generateOrderNumber
  // ---------------------------------------------------------------------

  /** `s.slice(-n)`: the last `n` characters, or all of a shorter string. */
  function LastChars(s: string, n: nat): (r: string)
    ensures |r| == if |s| <= n then |s| else n
  {
    if |s| <= n then s else s[|s| - n..]
  }

  /** `s.padStart(width, fill)` with a one-character fill. */
  function PadStart(s: string, width: nat, fill: char): (r: string)
    ensures |r| == if |s| >= width then |s| else width
  {
    if |s| >= width then s else seq(width - |s|, _ => fill) + s
  }

  /** `generateOrderNumber`, given the value of `Date.now()` and the drawn
      `Math.floor(Math.random() * 1000)`. */
  function GenerateOrderNumber(now: nat, draw: nat): string
    requires draw < 1000
  {
    "UZ" + LastChars(NatToString(now), 6) + PadStart(NatToString(draw), 3, '0')
  }

  lemma ModUnique(n: nat, d: nat, q: nat, r: nat)
    requires 0 <= r < d && n == d * q + r
    ensures n % d == r && n / d == q
  {
    var q2 := n / d;
    var r2 := n % d;
    assert d * q2 + r2 == d * q + r;
    assert d * (q2 - q) == r - r2;
    MulBounded(d, q2 - q);
  }

  /** A multiple of `d` strictly between `-d` and `d` is zero. */
  lemma MulBounded(d: nat, k: int)
    requires d > 0 && -(d as int) < d * k < d
    ensures k == 0
  {
  }

  /** The last `k` digits of `n` are worth `n` modulo 10^k. */
  lemma {:induction false} SuffixValue(n: nat, k: nat)
    requires k <= |NatToString(n)|
    ensures var s := NatToString(n); DecimalValue(s[|s| - k..]) == n % Pow10(k)
    decreases n
  {
    var s := NatToString(n);
    if k == 0 {
      assert s[|s|..] == [];
    } else if n < 10 {
      assert s[|s| - k..] == s;
      NatToStringValue(n);
    } else {
      assert s == NatToString(n / 10) + [DigitChar(n % 10)];
      SuffixValue(n / 10, k - 1);
      SuffixStep(n, k);
    }
  }

  /** One more digit on the right: the suffix's value grows by the last
      digit of `n` over ten times the shorter suffix of `n / 10`. */
  lemma SuffixStep(n: nat, k: nat)
    requires n >= 10 && 1 <= k <= |NatToString(n)|
    requires var t := NatToString(n / 10);
      k - 1 <= |t| && DecimalValue(t[|t| - (k - 1)..]) == (n / 10) % Pow10(k - 1)
    ensures var s := NatToString(n); DecimalValue(s[|s| - k..]) == n % Pow10(k)
  {
    var s := NatToString(n);
    var t := NatToString(n / 10);
    assert s == t + [DigitChar(n % 10)];
    var u := s[|s| - k..];
    assert u[..|u| - 1] == t[|t| - (k - 1)..];
    assert u[|u| - 1] == DigitChar(n % 10);
    var high := DecimalValue(u[..|u| - 1]);
    assert DigitValue(u[|u| - 1]) == n % 10;
    assert DecimalValue(u) == high * 10 + n % 10;
    ModStep(n, Pow10(k - 1));
    assert Pow10(k) == 10 * Pow10(k - 1);
  }

  /** Taking `n` modulo `10p` keeps its last digit and `n / 10` modulo `p`. */
  lemma ModStep(n: nat, p: nat)
    requires p > 0
    ensures n % (10 * p) == ((n / 10) % p) * 10 + n % 10
  {
    var q := (n / 10) / p;
    var b := (n / 10) % p;
    assert n / 10 == p * q + b;
    assert n == (10 * p) * q + (10 * b + n % 10);
    ModUnique(n, 10 * p, q, 10 * b + n % 10);
  }

  lemma {:induction false} NatToStringShort(n: nat, k: nat)
    requires k >= 1 && n < Pow10(k)
    ensures |NatToString(n)| <= k
  {
    if n >= 10 {
      NatToStringShort(n / 10, k - 1);
    }
  }

  lemma {:induction false} ZeroPaddingValue(zeros: nat, s: string)
    requires forall i :: 0 <= i < |s| ==> IsDigit(s[i])
    ensures var z := seq(zeros, _ => '0') + s;
      (forall i :: 0 <= i < |z| ==> IsDigit(z[i])) && DecimalValue(z) == DecimalValue(s)
    decreases |s|
  {
    var z := seq(zeros, _ => '0') + s;
    if s == [] {
      ZerosValue(zeros);
      assert z == seq(zeros, _ => '0');
    } else {
      ZeroPaddingValue(zeros, s[..|s| - 1]);
      assert z[..|z| - 1] == seq(zeros, _ => '0') + s[..|s| - 1];
    }
  }

  lemma {:induction false} ZerosValue(n: nat)
    ensures DecimalValue(seq(n, _ => '0')) == 0
  {
    if n > 0 {
      ZerosValue(n - 1);
      assert seq(n, _ => '0')[..n - 1] == seq(n - 1, _ => '0');
    }
  }

  /** From a timestamp of at least six digits the number is `UZ`, then the
      last six digits of the timestamp, then the draw on three digits: eleven
      characters, all digits after `UZ`, from which both parts read back. */
  lemma OrderNumberFormat(now: nat, draw: nat)
    requires now >= 100000 && draw < 1000
    ensures var r := GenerateOrderNumber(now, draw);
      && |r| == 11
      && r[..2] == "UZ"
      && (forall i :: 2 <= i < 11 ==> IsDigit(r[i]))
      && DecimalValue(r[2..8]) == now % 1000000
      && DecimalValue(r[8..]) == draw
  {
    var last := LastChars(NatToString(now), 6);
    var padded := PadStart(NatToString(draw), 3, '0');
    TimestampPart(now);
    DrawPart(draw);
    var r := GenerateOrderNumber(now, draw);
    assert r == "UZ" + last + padded;
    assert r[2..8] == last;
    assert r[8..] == padded;
  }

  /** The last six digits of a timestamp of at least six digits. */
  lemma TimestampPart(now: nat)
    requires now >= 100000
    ensures var last := LastChars(NatToString(now), 6);
      && |last| == 6
      && (forall i :: 0 <= i < 6 ==> IsDigit(last[i]))
      && DecimalValue(last) == now % 1000000
  {
    var ts := NatToString(now);
    NatToStringLength(now, 5);
    assert Pow10(5) == 100000;
    var last := LastChars(ts, 6);
    assert last == ts[|ts| - 6..];
    SuffixValue(now, 6);
    assert Pow10(6) == 1000000;
  }

  /** The draw padded to three digits. */
  lemma DrawPart(draw: nat)
    requires draw < 1000
    ensures var padded := PadStart(NatToString(draw), 3, '0');
      && |padded| == 3
      && (forall i :: 0 <= i < 3 ==> IsDigit(padded[i]))
      && DecimalValue(padded) == draw
  {
    var d := NatToString(draw);
    assert Pow10(3) == 1000;
    NatToStringShort(draw, 3);
    var padded := PadStart(d, 3, '0');
    NatToStringValue(draw);
    if |d| < 3 {
      ZeroPaddingValue(3 - |d|, d);
    }
    assert forall i :: 0 <= i < |padded| ==> IsDigit(padded[i]);
  }

  // ---------------------------------------------------------------------
  // POST /api/orders
  // ---------------------------------------------------------------------

  /** The server's phone rule, `/^\+998\d{9}$/`, written out on its own. */
  const ServerPhonePattern: seq<Atom> :=
    [Lit('+'), Lit('9'), Lit('9'), Lit('8'),
     AnyDigit, AnyDigit, AnyDigit, AnyDigit, AnyDigit, AnyDigit, AnyDigit, AnyDigit, AnyDigit]

  /** The server accepts exactly the phones the storefront accepts. */
  lemma SamePhoneRule(phone: string)
    ensures Matches(ServerPhonePattern, phone) <==> ValidatePhoneNumber(phone)
  {
    assert ServerPhonePattern == PhonePattern;
  }

  const PaymentMethods: seq<string> := ["click", "payme", "cash"]

  /** The body of a new-order request. Absent text fields are empty. */
  datatype CreateRequest = CreateRequest(
    items: seq<Item>,
    totalAmount: int,
    deliveryAddress: string,
    phone: string,
    paymentMethod: string,
    deliveryType: string,
    name: string,
    location: Option<GeoPoint>,
    lang: string)

  /** The fields the validation chain rejects, in its order. `items` only
      has to be an array: `notEmpty()` on an array value runs once per
      element, and an element (an object) never stringifies to the empty
      text, so an empty or non-empty list of items raises no error. */
  function ValidationErrors(req: CreateRequest): (errs: seq<string>)
    ensures |errs| <= 4
  {
    (if req.totalAmount < 1 then ["total_amount"] else [])
    + (if Trim(req.deliveryAddress) == "" then ["delivery_address"] else [])
    + (if !Matches(ServerPhonePattern, req.phone) then ["phone"] else [])
    + (if req.paymentMethod !in PaymentMethods then ["payment_method"] else [])
  }

  /** A request passes exactly when it has a positive total, an address
      that is not blank, a valid phone and a known payment method; the
      items, even none at all, never make it fail. */
  lemma ValidationIff(req: CreateRequest)
    ensures ValidationErrors(req) == [] <==>
      && req.totalAmount >= 1
      && Trim(req.deliveryAddress) != ""
      && ValidatePhoneNumber(req.phone)
      && req.paymentMethod in PaymentMethods
    ensures ValidationErrors(req.(items := [])) == ValidationErrors(req)
  {
    SamePhoneRule(req.phone);
  }

  /** The phone error is reported exactly for a phone the storefront would
      also reject. */
  lemma PhoneErrorIff(req: CreateRequest)
    ensures "phone" in ValidationErrors(req) <==> !ValidatePhoneNumber(req.phone)
  {
    SamePhoneRule(req.phone);
    var a := (if req.totalAmount < 1 then ["total_amount"] else [])
      + (if Trim(req.deliveryAddress) == "" then ["delivery_address"] else []);
    var b := if !Matches(ServerPhonePattern, req.phone) then ["phone"] else [];
    var c := if req.paymentMethod !in PaymentMethods then ["payment_method"] else [];
    assert ValidationErrors(req) == a + b + c;
    assert "phone" !in a && "phone" !in c;
  }

  /** `orderForNotification`: the stored row with the request's delivery
      type (`delivery` by default), location and customer name. */
  function NotificationView(row: OrderRow, items: seq<Item>, req: CreateRequest): (v: OrderView)
    ensures v.deliveryType != "" && v.location == req.location && v.id == row.id
  {
    OrderView(row.id, row.orderNumber, items,
              if req.deliveryType != "" then req.deliveryType else "delivery",
              if req.name != "" then req.name else Trim(row.firstName + " " + row.lastName),
              row.firstName, row.lastName, row.phone, row.deliveryAddress, row.totalAmount,
              row.paymentMethod, req.location)
  }

  /** `payment_status` in the reply. */
  function PaymentStatus(paymentMethod: string): string {
    if paymentMethod == "click" || paymentMethod == "payme" then "paid" else "pending"
  }

  /** `POST /api/orders` from a Telegram user whose row `customer` was found
      (or not). Returns the HTTP status, the requests sent to Telegram and
      the payment status of the reply. The validation chain's `trim()`
      rewrites the address in the request body, so the row and both notices
      carry the trimmed address. */
  method PostOrder(store: OrderStore, cfg: Config, req: CreateRequest, customer: Option<Customer>,
                   now: nat, draw: nat)
    returns (code: int, calls: seq<ApiCall>, paymentStatus: string)
    requires store.Valid() && draw < 1000
    modifies store
    ensures store.Valid()
    ensures code == 200 || code == 400 || code == 404 || code == 500
    ensures code == 400 <==> ValidationErrors(req) != []
    ensures code != 200 ==> store.orders == old(store.orders) && store.nextId == old(store.nextId) && calls == []
    ensures code == 404 <==> ValidationErrors(req) == [] && customer.None?
    ensures code == 500 <==>
      ValidationErrors(req) == [] && customer.Some? && OrderNumberUsed(old(store.orders), GenerateOrderNumber(now, draw))
    ensures code == 200 ==>
      var id := old(store.nextId);
      && customer.Some?
      && id !in old(store.orders)
      && store.nextId == id + 1
      && store.orders == old(store.orders)[id := OrderRow(
           id, GenerateOrderNumber(now, draw), Some(req.items), req.totalAmount, Trim(req.deliveryAddress), req.phone,
           req.paymentMethod, Accepted, customer.value.firstName, customer.value.lastName, customer.value.telegramId)]
      && paymentStatus == PaymentStatus(req.paymentMethod)
      && calls == SendAdminNotification(cfg, NotificationView(store.orders[id], req.items, req))
                  + SendOrderConfirmationToUser(cfg, customer.value.telegramId,
                                                NotificationView(store.orders[id], req.items, req),
                                                if req.lang != "" then req.lang else "ru")
  {
    calls := [];
    paymentStatus := "";
    if ValidationErrors(req) != [] {
      return 400, calls, paymentStatus;
    }
    if customer.None? {
      return 404, calls, paymentStatus;
    }
    paymentStatus := PaymentStatus(req.paymentMethod);
    var orderNumber := GenerateOrderNumber(now, draw);
    var id := store.Create(orderNumber, req.items, req.totalAmount, Trim(req.deliveryAddress), req.phone,
                           req.paymentMethod, Accepted, customer.value);
    if id.None? {
      return 500, calls, paymentStatus;
    }
    var order := store.FindById(id.value);
    var row := order.value;
    var view := NotificationView(row, row.items.value, req);
    calls := SendAdminNotification(cfg, view)
             + SendOrderConfirmationToUser(cfg, customer.value.telegramId, view,
                                           if req.lang != "" then req.lang else "ru");
    code := 200;
  }

  /** A new order is stored in `accepted` and announced to the operator with
      the first-step keyboard, as a delivery unless the request says
      otherwise. */
  lemma NewOrderAnnounced(cfg: Config, row: OrderRow, req: CreateRequest)
    requires TokenUsable(cfg) && row.status == Accepted && row.items.Some?
    ensures var view := NotificationView(row, row.items.value, req);
      var calls := SendAdminNotification(cfg, view);
      && |calls| >= 1
      && calls[0].SendMessage? && calls[0].chatId == cfg.adminId
      && calls[0].markup == InlineKeyboard(Flow(row.id, row.status))
      && (req.deliveryType == "" ==> !IsPickup(view))
  {
    AdminNotificationShape(cfg, NotificationView(row, row.items.value, req));
  }

  // ---------------------------------------------------------------------
  // PATCH /api/orders/:id/status and PATCH /api/orders/admin/:id/status
  // ---------------------------------------------------------------------

  /** The HTTP status, the orders afterwards and the row sent back. */
  datatype PatchResult = PatchResult(code: int, orders: map<int, OrderRow>, order: Option<OrderRow>)

  /** `verifyAdmin`: the `x-admin-password` header must be strictly equal
      to the `ADMIN_PASSWORD` setting; either may be absent, and two absent
      values are equal. */
  function VerifyAdmin(header: Option<string>, adminPassword: Option<string>): bool {
    header == adminPassword
  }

  /** `PATCH /:id/status`: the admin password check (401), then whitelist,
      write, read back; 404 when the row is missing. */
  function PatchStatus(orders: map<int, OrderRow>, header: Option<string>, adminPassword: Option<string>,
                       id: int, status: string): PatchResult {
    if !VerifyAdmin(header, adminPassword) then PatchResult(401, orders, None)
    else if status !in ValidStatuses then PatchResult(400, orders, None)
    else
      var written := WithStatus(orders, id, status);
      match Lookup(written, id)
      case None => PatchResult(404, written, None)
      case Some(row) => PatchResult(200, written, Some(row))
  }

  /** `PATCH /admin/:id/status`: the same, except that a missing row makes
      the reply throw, which answers 500. */
  function AdminPatchStatus(orders: map<int, OrderRow>, header: Option<string>, adminPassword: Option<string>,
                            id: int, status: string): PatchResult {
    if !VerifyAdmin(header, adminPassword) then PatchResult(401, orders, None)
    else if status !in ValidStatuses then PatchResult(400, orders, None)
    else
      var written := WithStatus(orders, id, status);
      match Lookup(written, id)
      case None => PatchResult(500, written, None)
      case Some(row) => PatchResult(200, written, Some(row))
  }

  /** Both routes answer 401 to a wrong or missing password before looking
      at the body; an authorised request with a status outside the six gets
      400 before writing; a failure never changes the store; success writes
      only that row's status, whatever it was, and returns the row. */
  lemma PatchWhitelist(orders: map<int, OrderRow>, header: Option<string>, adminPassword: Option<string>,
                       id: int, status: string)
    ensures var r := PatchStatus(orders, header, adminPassword, id, status);
      && (r.code == 401 <==> header != adminPassword)
      && (r.code == 400 <==> header == adminPassword && status !in ValidStatuses)
      && (r.code == 404 <==> header == adminPassword && status in ValidStatuses && id !in orders)
      && (r.code != 200 ==> r.orders == orders && r.order.None?)
      && (r.code == 200 ==> r.orders == orders[id := orders[id].(status := status)]
                             && r.order == Some(r.orders[id]) && r.order.value.status == status)
    ensures var a := AdminPatchStatus(orders, header, adminPassword, id, status);
      var r := PatchStatus(orders, header, adminPassword, id, status);
      && a.orders == r.orders && a.order == r.order
      && a.code == (if r.code == 404 then 500 else r.code)
  {
  }

  /** With no `ADMIN_PASSWORD` set, a request without the header passes the
      password check, and a request that sends any header is refused. */
  lemma UnsetPasswordAdmitsNoHeader(orders: map<int, OrderRow>, header: Option<string>, id: int, status: string)
    ensures PatchStatus(orders, header, None, id, status).code == 401 <==> header.Some?
  {
  }
}
