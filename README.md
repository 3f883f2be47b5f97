# Uzbek cuisine bot — a Dafny model

The system is a food-ordering service with three parts:

- **Storefront.** A Telegram web app where a customer browses the menu of four categories (plov, shashlik, bakery, soups), opens a dish, picks a size and toppings, and fills a cart. The checkout form then sends the order.
- **Order routes.** A server that validates the order request, stores it, and answers the administrative status changes.
- **Bot.** It announces each new order to the operator with buttons for the next step of its life (`accepted → preparing → cooking → out_for_delivery → delivered`, or `cancelled`). When a button is pressed, the bot writes the status, edits the operator's message in place and tells the customer. A long-polling loop feeds it the Telegram updates, and it also answers `/start` and the language buttons in three languages (ru, uz, en).

The model has one Dafny module per source file:

| module | file | what it models |
|---|---|---|
| `Common` | common.dfy | string helpers: JavaScript `trim`, `split`, `parseInt`, decimal rendering, lower-casing |
| `Channel` | channel.dfy | Bot API requests, recorded in an outbox; the token check of `tgFetch`/`tgSend` |
| `Telegram` | telegram.dfy | `backend/src/services/telegram.js`: the status keyboards, message texts and notifications |
| `Store` | store.dfy | the orders table of `backend/src/config/database.js`, as a map in a class |
| `Orders` | orders.dfy | `backend/src/routes/orders.js`: order numbers, request validation, creation, status PATCH |
| `BotHandler` | bot.dfy | `backend/src/services/botHandler.js`, as a class holding the chat languages, the outbox and the polling cursor |
| `Products` | products.dfy | `backend/src/config/products.js`: the catalog, lookups, `calculatePrice` |
| `Helpers` | helpers.dfy | `frontend/src/utils/helpers.js`: the phone pattern |
| `Branches` | branches.dfy | `frontend/src/data/branches.js` |
| `Language` | language.dfy | `frontend/src/contexts/LanguageContext.jsx`: the language state and `t` |
| `Cart` | cart.dfy | `frontend/src/hooks/useCart.jsx`: line keys, add, remove, update, total |
| `Home` | home.dfy | `frontend/src/pages/Home.jsx`: the category list and the search |
| `ProductDetail` | product_detail.dfy | `frontend/src/pages/ProductDetail.jsx`: the size, toppings and price of a dish |
| `Checkout` | checkout.dfy | `frontend/src/pages/Cart.jsx`: form validation, address and order request |

Code that updates state in place is modelled with classes:

- `BotHandler.Bot` holds the module state of the bot.
- `Store.OrderStore` holds the database rows.
- `Language.LanguageContext` holds the chosen language.

Each of their methods is proved equal to a pure specification function of the old state. The properties are lemmas about those functions. Loops of the source are methods with loop invariants:

- the polling loop and its batch;
- the search over categories;
- the price recomputation of the product page;
- `calculatePrice`.

Network requests are not made. Each request the code would send to Telegram is appended to an outbox, in order. A request without a usable token is dropped, as `tgFetch` drops it. The clock and the random draw of the order number are parameters. The translations table of the storefront is a parameter too; the file that defines it is not part of this model.

Some behaviour of the code is worth stating outright, because a reader of the keyboards or the function signatures would expect otherwise:

- The bot writes any of the six statuses a well-formed operator button names. It checks no transition, so a delivered order can be moved back to `preparing` (`BotHandler.NoTransitionGuard`, `BotHandler.DeliveredOrderReopened`). The keyboards themselves only ever offer the forward step and cancellation (`Telegram.ValidTransitionIff`).
- The order confirmation sent to the customer is always in Russian. The `lang` argument is accepted but not used (`Telegram.ConfirmationIgnoresLanguage`).
- The customer's status notices and the operator texts exist only in Russian.
- The row read back from the database has no delivery type. The operator message edited after a status change therefore always says "ДОСТАВКА", even for a pickup order (`BotHandler.StatusChangeOutbox` and `BotHandler.StatusChangeMessages`).

## Model

| member | source | states |
|---|---|---|
| Channel.TgFetch | backend/src/services/telegram.js:9-22 | (definition, no contract of its own) a request is made iff the token is usable, and a failed one changes nothing; every sender below is built on it |
| Telegram.BuildStatusKeyboard | backend/src/services/telegram.js:26-53 | (definition) the keyboard of a status, or `null` when it offers no step; stated by `Telegram.KeyboardFollowsChain` and `Telegram.KeyboardPayloadsWellFormed` |
| Telegram.IsValidTransition | backend/src/services/telegram.js:26-53 | (definition) some button of the keyboard of `from` leads to `to`; characterised by `Telegram.ValidTransitionIff` and `Telegram.TransitionsMoveForward` |
| Telegram.ChainIndex | backend/src/services/telegram.js:26-53 | the position found is a position of that status on the happy path; when none is found, the status is not on it |
| Telegram.KeyboardFollowsChain | backend/src/services/telegram.js:26-53 | a keyboard exists iff the status is on the chain and not terminal; it then has two one-button rows, the next step first and cancel second |
| Telegram.KeyboardPayloadsWellFormed | backend/src/services/telegram.js:26-53 | every button's payload is `setstatus:<id>:<target>` for one of the six known statuses |
| Telegram.CallbackDataInjective | backend/src/services/telegram.js:36-49 | two payloads for the same order are equal only for the same target |
| Telegram.ValidTransitionIff | backend/src/services/telegram.js:26-53 | a button from `from` to `to` exists iff `to` is the next step of a non-terminal `from`, or `to` is cancelled and `from` is a non-terminal step |
| Telegram.TransitionsMoveForward | backend/src/services/telegram.js:26-53 | an offered step leaves a non-terminal status for a different, known status, exactly one step up the chain unless it cancels |
| Telegram.NoLeavingDelivered | backend/src/services/telegram.js:26-53 | a delivered order gets no keyboard, so no transition leaves `delivered` |
| Telegram.StatusLineShape | backend/src/services/telegram.js:56-66 | every status line contains the status word; exactly the six statuses get a caption; an unknown status is shown as it is |
| Telegram.StatusLineInjective | backend/src/services/telegram.js:56-66 | different statuses give different status lines |
| Telegram.StatusLine | backend/src/services/telegram.js:56-66 | (definition) the emoji and caption of a known status, else the raw status; stated by `Telegram.StatusLineShape` and `Telegram.StatusLineInjective` |
| Telegram.ItemLine | backend/src/services/telegram.js:73-75 | (definition) `• name (size) × qty = total сум`; stated by `Telegram.ItemLineShowsTotal` |
| Telegram.ItemLines | backend/src/services/telegram.js:73-75 | one line per item, in order, each the line of that item |
| Telegram.ItemLineShowsTotal | backend/src/services/telegram.js:73-75 | an item line shows price × quantity as its total, and the size or the default `стд.` |
| Telegram.SendAdminNotification | backend/src/services/telegram.js:69-121 | (definition) the operator notice, then the location pin of a delivery with coordinates; stated by `Telegram.AdminNotificationShape` and `Orders.NewOrderAnnounced` |
| Telegram.UpdateAdminMessage | backend/src/services/telegram.js:124-160 | (definition) the edit of the operator message after a status change; stated by `Telegram.UpdateAdminMessageCalls` and `Telegram.AdminEditLinesShape` |
| Telegram.SendOrderConfirmationToUser | backend/src/services/telegram.js:163-185 | (definition) the Russian confirmation to the customer's chat; stated by `Telegram.ConfirmationIgnoresLanguage`, `Telegram.ConfirmationNamesOrder` and `Telegram.ConfirmationNamesAddress` |
| Telegram.SendStatusUpdateToUser | backend/src/services/telegram.js:188-204 | (definition) the customer notice of a status after `accepted`; stated by `Telegram.StatusUpdateToUserShape` and `Telegram.StatusNoticeDomain` |
| Telegram.AdminNotificationShape | backend/src/services/telegram.js:69-121 | with a token, the operator gets one message with the first-step keyboard, plus a location pin and a map line exactly for a delivery whose two coordinates are truthy |
| Telegram.UpdateAdminMessageCalls | backend/src/services/telegram.js:124-160 | the edit is made iff the token, chat and message id are present; it targets that message and has no buttons exactly for a terminal or unknown status |
| Telegram.AdminEditLinesShape | backend/src/services/telegram.js:124-160 | the edited message starts with 🚫, ✅ or 📦 by the new status and ends with its status line |
| Telegram.HeadStartsWith | backend/src/services/telegram.js:136-142 | the head line starts with the emoji it is given |
| Telegram.ConfirmationIgnoresLanguage | backend/src/services/telegram.js:163-185 | the confirmation is the same for every language asked, and it names the order number and the address |
| Telegram.ConfirmationNamesOrder | backend/src/services/telegram.js:163-185 | the joined confirmation contains `#<order number>` |
| Telegram.ConfirmationNamesAddress | backend/src/services/telegram.js:163-185 | the joined confirmation contains the delivery address |
| Telegram.StatusUpdateTextNamesOrder | backend/src/services/telegram.js:188-204 | a customer notice exists iff the status is one of the five after `accepted`, and it names `Заказ #<number>` |
| Telegram.StatusNoticeDomain | backend/src/services/telegram.js:188-204 | exactly the five statuses after `accepted` have a customer notice |
| Telegram.StatusUpdateToUserShape | backend/src/services/telegram.js:188-204 | one message is sent iff there are a token and a chat and the status has a notice; it goes to that chat and names the order |
| Store.WithStatus | backend/src/config/database.js:80 | the status write keeps the set of ids, changes only the status of that row, and ignores a missing id |
| Store.Lookup | backend/src/config/database.js:67-70 | `findById` finds a row iff the id is present, and returns that row |
| Store.WriteThenRead | backend/src/config/database.js:67-80 | reading after writing a status gives the status written and the row otherwise unchanged |
| Store.OrderStore.constructor | backend/src/config/database.js:1-88 | an empty table whose first id is 1 |
| Store.OrderStore.UpdateStatus | backend/src/config/database.js:80 | the new table is the old one with the status written; the next id is unchanged |
| Store.OrderStore.FindById | backend/src/config/database.js:67-70 | returns the lookup of the current table |
| Store.OrderStore.Create | backend/src/config/database.js:63-66 | a taken order number fails and changes nothing, the next id included; otherwise a new row under the next id, holding exactly the given values, and the next id moves up by one |
| Orders.GenerateOrderNumber | backend/src/routes/orders.js:9-13 | (definition) `UZ`, the clock's last six digits, the draw padded to three; stated by `Orders.OrderNumberFormat` |
| Orders.ValidationErrors | backend/src/routes/orders.js:17-23 | at most one error per rule, four in all (`items` only has to be an array, and `notEmpty()` runs per element, so no list of items fails); which ones is stated by `Orders.ValidationIff` and `Orders.PhoneErrorIff` |
| Orders.OrderNumberFormat | backend/src/routes/orders.js:9-13 | an order number is `UZ` and nine digits: the last six digits of the clock, then the draw padded to three |
| Orders.TimestampPart | backend/src/routes/orders.js:9-13 | the last six characters of a timestamp of at least six digits are digits worth the timestamp modulo 10^6 |
| Orders.DrawPart | backend/src/routes/orders.js:9-13 | a draw below 1000 padded with zeros is three digits worth the draw |
| Orders.SuffixValue | backend/src/routes/orders.js:10 | the last k decimal digits of n are n modulo 10^k |
| Orders.ModUnique | backend/src/routes/orders.js:10-11 | (helper) the quotient and remainder of a division are unique |
| Orders.SamePhoneRule | backend/src/routes/orders.js:21 | the server's phone pattern accepts exactly what the storefront's does |
| Orders.ValidationIff | backend/src/routes/orders.js:17-23 | a request passes iff it has a total of at least 1, a non-blank address, a valid phone and one of the three payment methods; emptying the item list never changes the errors |
| Orders.PhoneErrorIff | backend/src/routes/orders.js:21 | the phone is reported iff it fails the pattern |
| Orders.NotificationView | backend/src/routes/orders.js:51-58 | the notified order always has a delivery type, the request's location and the row's id |
| Orders.PostOrder | backend/src/routes/orders.js:15-77 | 400 iff validation fails; 404 iff the request is valid and the user is unknown; 500 iff the request is valid, the user is known and the generated order number is already taken; a failure stores nothing, leaves the next id alone and sends nothing; success stores one `accepted` row under the next id, which moves up by one, with the trimmed address, sends the operator notice and then the confirmation, and reports the payment as paid for click and payme; so a valid request from a known user with an unused number always gets 200 |
| Orders.NewOrderAnnounced | backend/src/routes/orders.js:48-60 | a new order reaches the operator first, with the two first-step buttons; without a delivery type it is shown as a delivery |
| Orders.VerifyAdmin | backend/src/middleware/auth.js:41-45 | (definition) the password header must equal the `ADMIN_PASSWORD` setting, two absent values counting as equal; stated by `Orders.PatchWhitelist` and `Orders.UnsetPasswordAdmitsNoHeader` |
| Orders.PatchStatus | backend/src/routes/orders.js:96-106 | (definition) 401 from `verifyAdmin`, then whitelist, write, read back, 404 for a missing row; stated by `Orders.PatchWhitelist` |
| Orders.AdminPatchStatus | backend/src/routes/orders.js:116-125 | (definition) the same, behind the same `verifyAdmin`, with 500 for a missing row; stated by `Orders.PatchWhitelist` |
| Orders.PatchWhitelist | backend/src/routes/orders.js:96-125 | both routes answer 401 iff the password header differs from the setting, before anything else; an authorised request answers 400 for a status outside the six before writing; 404 (500 on the admin route) for a missing row, with nothing changed; otherwise they write only that status, whatever it was, and return the row |
| Orders.UnsetPasswordAdmitsNoHeader | backend/src/middleware/auth.js:41-45 | with no `ADMIN_PASSWORD` set, a PATCH is refused with 401 exactly when it carries a password header, so one without the header gets through |
| BotHandler.GetLang | backend/src/services/botHandler.js:49 | (definition) the chat's stored language, else `ru`; stated by `BotHandler.GetTFollowsLanguage` |
| BotHandler.GetT | backend/src/services/botHandler.js:50 | (definition) the texts of that language, else the Russian ones; stated by `BotHandler.GetTFollowsLanguage` |
| BotHandler.MainKeyboard | backend/src/services/botHandler.js:52-59 | (definition) the menu and language buttons; stated by `BotHandler.MainKeyboardWebApp` |
| BotHandler.MainKeyboardWebApp | backend/src/services/botHandler.js:52-59 | a persistent, resized reply keyboard; a button opens the web app iff `WEBAPP_URL` is set, and it is the menu button opening exactly that URL |
| BotHandler.GetTFollowsLanguage | backend/src/services/botHandler.js:49-50 | an unknown chat is spoken to in Russian; a chat set to a known language gets that language's texts |
| BotHandler.LangInlineKeyboard | backend/src/services/botHandler.js:61-67 | one row per language in `LANGS` order, labelled with flag and name, with payload `set_lang_<code>` |
| BotHandler.TextReply | backend/src/services/botHandler.js:207-232 | a reply is always a plain message to the chat that wrote |
| BotHandler.SetLangSpec | backend/src/services/botHandler.js:93-105 | (definition) the `set_lang_` branch; stated by `BotHandler.SetLangOnlyKnown` and `BotHandler.LanguagePickerRoundTrip` |
| BotHandler.SetStatusSpec | backend/src/services/botHandler.js:108-133 | (definition) the `setstatus:` branch up to the write; stated by `BotHandler.NonAdminRejected`, `BotHandler.MalformedStatusIgnored` and `BotHandler.NoTransitionGuard` |
| BotHandler.ApplyStatus | backend/src/services/botHandler.js:135-186 | (definition) write the status, then send the replies for the row read back; stated by `BotHandler.ApplyStatusWrites`, `BotHandler.ApplyStatusFound` and `BotHandler.ApplyStatusFailures` |
| BotHandler.StatusReplies | backend/src/services/botHandler.js:138-186 | (definition) the replies for the row read back; stated by `BotHandler.RepliesForRow` and `BotHandler.StatusChangeMessages` |
| BotHandler.CallbackSpec | backend/src/services/botHandler.js:87-189 | (definition) dispatch on the payload prefix; stated by `BotHandler.PrefixesExclusive`, `BotHandler.StatusPayloadRoutes` and `BotHandler.CallbackExtends` |
| BotHandler.MessageSpec | backend/src/services/botHandler.js:200-233 | (definition) the reply to the trimmed text, if any; stated by `BotHandler.MessageFrame` and the text lemmas below |
| BotHandler.UpdateSpec | backend/src/services/botHandler.js:194-233 | (definition) a callback or a message; stated by `BotHandler.UpdateKeepsCursor` |
| BotHandler.BatchSpec | backend/src/services/botHandler.js:257-260 | (definition) the loop over one batch; stated by `BotHandler.BatchCursor` and `BotHandler.BatchStep` |
| BotHandler.RoundSpec | backend/src/services/botHandler.js:252-265 | (definition) one `getUpdates` round; stated by `BotHandler.RoundAsksFromCursor` |
| BotHandler.RoundsSpec | backend/src/services/botHandler.js:252-266 | (definition) the `while (pollingActive)` loop; stated by `BotHandler.StopEndsPolling` |
| BotHandler.PollSpec | backend/src/services/botHandler.js:243-267 | (definition) `pollUpdates`; stated by `BotHandler.PollStart` and `BotHandler.RoundsKeepOutbox` |
| BotHandler.Bot.constructor | backend/src/services/botHandler.js:10-17 | no chat languages, nothing sent, cursor 0, not polling |
| BotHandler.Bot.Send | backend/src/services/botHandler.js:69-82 | the request is appended to the outbox when the token is usable |
| BotHandler.Bot.HandleCallbackQuery | backend/src/services/botHandler.js:87-189 | the new state (languages, orders, outbox) is the callback specification applied to the old one; the store stays valid and its next id is unchanged |
| BotHandler.Bot.ChangeStatus | backend/src/services/botHandler.js:135-186 | the new state is the status write followed by exactly the replies the write specification lists; the store stays valid and its next id is unchanged |
| BotHandler.Bot.HandleMessage | backend/src/services/botHandler.js:200-233 | throws exactly for a message without a chat; the new state is the message specification of the old one |
| BotHandler.Bot.HandleUpdate | backend/src/services/botHandler.js:194-233 | throws exactly when the message has no chat; the new state is the update specification of the old one; the store's next id is unchanged |
| BotHandler.Bot.StopBotPolling | backend/src/services/botHandler.js:270 | only the loop flag is cleared |
| BotHandler.Bot.RunBatch | backend/src/services/botHandler.js:257-260 | the batch specification: the cursor moves past each update before it is handled; a throwing handler is skipped; the store's next id is unchanged |
| BotHandler.BatchStep | backend/src/services/botHandler.js:257-260 | (helper) the batch from position `j` handles update `j` with the cursor moved, then the rest |
| BotHandler.Bot.RunRound | backend/src/services/botHandler.js:252-265 | one round: ask for updates from the cursor, then run the batch of a successful, non-empty reply; the store's next id is unchanged |
| BotHandler.Bot.PollUpdates | backend/src/services/botHandler.js:243-267 | without a token nothing happens; otherwise the webhook is deleted and the rounds run until the flag is cleared; the store's next id is unchanged |
| BotHandler.PrefixesExclusive | backend/src/services/botHandler.js:93-108 | no payload is both a language and a status payload |
| BotHandler.SetLangOnlyKnown | backend/src/services/botHandler.js:93-105 | a known code is stored for the chat, then the press is acknowledged and the chat told in the new language; an unknown code changes nothing |
| BotHandler.LanguagePickerRoundTrip | backend/src/services/botHandler.js:61-104 | pressing a picker button switches the chat to that button's language |
| BotHandler.NonAdminRejected | backend/src/services/botHandler.js:110-117 | a status press from anyone but the operator gets the alert and changes nothing else |
| BotHandler.MalformedStatusIgnored | backend/src/services/botHandler.js:119-133 | fewer than three parts is ignored; a zero or unparsable id or an unknown status gets the alert; neither writes |
| BotHandler.StatusPayloadParses | backend/src/services/botHandler.js:119-124 | a keyboard payload splits back into prefix, id and target, and the id parses back to itself |
| BotHandler.IntToStringNoColon | backend/src/services/botHandler.js:119 | (helper) a decimal id holds no colon |
| BotHandler.StatusesHaveNoColon | backend/src/services/botHandler.js:15 | (helper) no known status holds a colon |
| BotHandler.NoTransitionGuard | backend/src/services/botHandler.js:135-137 | an operator press of a well-formed payload writes its target whatever the current status |
| BotHandler.StatusPayloadRoutes | backend/src/services/botHandler.js:93-133 | a status button's payload takes the status branch and not the language one, splits into `setstatus`, the id and the target, and the id parses back |
| BotHandler.ApplyStatusWrites | backend/src/services/botHandler.js:137 | the status is written whatever is sent afterwards |
| BotHandler.ApplyStatusFound | backend/src/services/botHandler.js:137-138 | for a stored order the row read back carries the new status, and the replies are those for that row |
| BotHandler.DeliveredOrderReopened | backend/src/services/botHandler.js:135-137 | a delivered order pressed to `preparing` is reopened although that step is not a valid transition |
| BotHandler.ApplyStatusFailures | backend/src/services/botHandler.js:137-186 | a missing order is reported and nothing changes; unparsable items keep the new status and answer the press twice, the second time with the failure alert |
| BotHandler.StatusChangeOutbox | backend/src/services/botHandler.js:137-175 | a successful write stores the new status, then appends the acknowledgement, the operator edit and the customer notice, in that order |
| BotHandler.StatusChangeMessages | backend/src/services/botHandler.js:137-175 | in an outbox extended by those replies: the acknowledgement comes first, then the edit, which shows the order as a delivery, then a notice naming the order iff the row has a Telegram id and the status is not `accepted` |
| BotHandler.RepliesForRow | backend/src/services/botHandler.js:158-175 | with a usable token the replies are the acknowledgement, then the operator edit, then the customer notice |
| BotHandler.CustomerNoticeShape | backend/src/services/botHandler.js:172-175 | the customer gets one message to the row's Telegram id naming the order iff the id is set and the status is not `accepted`; otherwise nothing |
| BotHandler.RowViewIsDelivery | backend/src/services/botHandler.js:166-170 | a row read back is always rendered as a delivery |
| BotHandler.StartGetsWelcome | backend/src/services/botHandler.js:207-214 | `/start` gets the welcome with the sender's name in the chat's language and the main keyboard |
| BotHandler.LangButtonGetsPicker | backend/src/services/botHandler.js:216-224 | the language button of any language gets the picker |
| BotHandler.MenuButtonWarns | backend/src/services/botHandler.js:226-232 | a menu button gets the warning iff no web-app URL is set |
| BotHandler.ButtonsDistinct | backend/src/services/botHandler.js:207-227 | a language button is never `/start`; a menu button is neither `/start` nor a language button |
| BotHandler.OtherTextIgnored | backend/src/services/botHandler.js:207-233 | any other text changes nothing |
| BotHandler.ExtendsTrans | backend/src/services/botHandler.js:87-233 | (helper) the "only appends" relation is transitive |
| BotHandler.AppendExtends | backend/src/services/botHandler.js:87-233 | (helper) appending requests keeps the cursor and the flag |
| BotHandler.ApplyStatusExtends | backend/src/services/botHandler.js:135-186 | a status write only appends to the outbox and keeps the cursor |
| BotHandler.CallbackExtends | backend/src/services/botHandler.js:87-189 | a callback only appends to the outbox and keeps the cursor |
| BotHandler.MessageFrame | backend/src/services/botHandler.js:200-233 | a message changes no languages or orders and sends at most one reply, to its own chat |
| BotHandler.UpdateKeepsCursor | backend/src/services/botHandler.js:194-233 | a handler never moves the cursor; one that throws changes nothing |
| BotHandler.BatchCursor | backend/src/services/botHandler.js:257-260 | after a batch the cursor is one past the last update's id, and nothing sent earlier is lost |
| BotHandler.ThrowingHandlerSkipped | backend/src/services/botHandler.js:257-260 | (worked example of BatchCursor) updates 5, 6, 7 where 6 throws leave the cursor at 8 |
| BotHandler.RoundAsksFromCursor | backend/src/services/botHandler.js:252-265 | each round first asks for updates from the current cursor; a stop request clears the flag |
| BotHandler.StopEndsPolling | backend/src/services/botHandler.js:252 | a stop requested during the first round ends the loop after it |
| BotHandler.RoundsKeepOutbox | backend/src/services/botHandler.js:252-266 | however many rounds run, the `while` loop only appends to the outbox, keeping every earlier request in place |
| BotHandler.PollStart | backend/src/services/botHandler.js:243-251 | without a usable token nothing happens; with one, for every sequence of rounds, the outbox starts with the old requests then `deleteWebhook`, ahead of any `getUpdates`, and the result is the loop run from the flag set |
| Common.ParseInt | backend/src/config/products.js:176 | (definition) `parseInt`: leading space, a sign, the longest digit run, hexadecimal after `0x`, NaN when there is no digit; stated by `Common.ParseIntOfIntToString` |
| Common.ParseIntOfIntToString | backend/src/services/botHandler.js:123 | `parseInt` reads back every decimal integer it is given |
| Common.Trim | backend/src/routes/orders.js:20 | (definition) `trim()`: JavaScript white space removed at both ends; stated by `Common.TrimEmptyIff` |
| Common.TrimEmptyIff | frontend/src/pages/Cart.jsx:47 | a text trims to nothing iff it is all white space |
| Common.ToLower | frontend/src/pages/Home.jsx:68 | `toLowerCase()` on the modelled letters: same length, each character lowered |
| Common.SplitJoin | backend/src/services/botHandler.js:119 | joining the pieces of `split(c)` with `c` gives the string back, so the split loses nothing |
| Products.CatalogIds | backend/src/config/products.js:2-162 | fourteen dishes with ids 1 to 14 in order |
| Products.FindProduct | backend/src/config/products.js:175-177 | nothing is found iff no dish has the id; a found dish has the id |
| Products.GetProductById | backend/src/config/products.js:175-177 | nothing is found iff `parseInt` reads no number or one outside 1..14; a text it reads as 1..14 (also `"01"`, `" 7"`, `"3abc"`) finds that dish; a dish found is a catalog dish whose id the text parses to |
| Products.FindUnique | backend/src/config/products.js:175-177 | with distinct ids, each dish is found by its own id |
| Products.GetProductByIdCatalog | backend/src/config/products.js:175-177 | ids 1 to 14 find their dish; every other number finds none |
| Products.FindInCatalog | backend/src/config/products.js:175-177 | the search by number finds the dish at position `n - 1` for 1 to 14, and nothing otherwise |
| Products.GetProductsByCategory | backend/src/config/products.js:180-182 | (definition) the catalog filtered by category; stated by `Products.InCategory` and `Products.InCategoryAppend` |
| Products.InCategory | backend/src/config/products.js:180-182 | the dishes kept are exactly those of the category |
| Products.InCategoryAppend | backend/src/config/products.js:180-182 | the filter keeps catalog order |
| Products.Round | backend/src/config/products.js:203 | `Math.round`: the nearest integer, halves rounded up |
| Products.SizeMultiplier | backend/src/config/products.js:191-193 | no multiplier iff the product offers no such size |
| Products.PriceSpec | backend/src/config/products.js:185-204 | (definition) what `calculatePrice` returns; `Products.CalculatePrice` computes it and the price lemmas below state it |
| Products.CalculatePrice | backend/src/config/products.js:185-204 | the loop computes the price specification of the id, size and toppings |
| Products.PriceOf | backend/src/config/products.js:189-203 | the loop computes the rounded sized price plus the known toppings |
| Products.ToppingSumAppend | backend/src/config/products.js:195-201 | the topping sum distributes over concatenation |
| Products.UnknownToppingSkipped | backend/src/config/products.js:197 | an unknown topping adds nothing |
| Products.UnknownProductFree | backend/src/config/products.js:186-187 | an unknown product costs 0 |
| Products.PlainPrice | backend/src/config/products.js:189-193 | with no size or an unknown size and no toppings, the price is the base price |
| Products.KnownToppingAdds | backend/src/config/products.js:195-203 | adding a known topping raises the price by exactly its price |
| Products.RoundShift | backend/src/config/products.js:203 | rounding commutes with adding an integer |
| Products.PlovExample | backend/src/config/products.js:4-20 | (worked example of KnownToppingAdds) two portions of Tashkent plov with extra meat cost 96000 |
| Products.TashkentPlovLookup | backend/src/config/products.js:175-177 | (worked example of GetProductByIdCatalog) id "1" finds the Tashkent plov |
| Products.TashkentPlovTwoPortions | backend/src/config/products.js:4-20 | (worked example of CalculatePrice) the two-portion Tashkent plov is 81000 before toppings |
| Products.ExtraMeatOnly | backend/src/config/products.js:165-172 | (worked example of KnownToppingAdds) extra meat alone adds 15000 |
| Helpers.ValidatePhoneNumber | frontend/src/utils/helpers.js:5-7 | (definition) the anchored pattern `^\+998\d{9}$`; stated by `Helpers.PhoneAccepted` |
| Helpers.MatchesIff | frontend/src/utils/helpers.js:5-7 | an anchored pattern of one-character atoms matches exactly the strings of its length matching atom by atom |
| Helpers.PhoneAccepted | frontend/src/utils/helpers.js:5-7 | a phone is valid iff it is `+998` followed by exactly nine digits |
| Helpers.PhoneRejections | frontend/src/utils/helpers.js:5-7 | `+998` alone and a ten-digit number are rejected; `+998901234567` is accepted |
| Helpers.Repeat | frontend/src/utils/helpers.js:6 | (helper) `\d{9}` is nine digit atoms |
| Branches.FindBranch | frontend/src/data/branches.js:16-18 | nothing is found iff no branch has the id; a found branch is in the table with that id |
| Branches.GetBranchById | frontend/src/data/branches.js:16-18 | (definition) the lookup in the table; stated by `Branches.BranchTableFacts` |
| Branches.FindBranchFirst | frontend/src/data/branches.js:16-18 | the first branch with the id is the one found |
| Branches.BranchTableFacts | frontend/src/data/branches.js:1-18 | exactly `main` and `mirzo`, each with an address; the lookup finds each and nothing else |
| Language.TSpec | frontend/src/contexts/LanguageContext.jsx:16-24 | (definition) what `t(key)` returns; `Language.LanguageContext.T` computes it and `Language.PlainKey`, `Language.DottedKey`, `Language.NeverEmpty` state it |
| Language.Get | frontend/src/contexts/LanguageContext.jsx:20 | a property is found iff it is present |
| Language.LanguageContext.constructor | frontend/src/contexts/LanguageContext.jsx:7-9 | the stored non-empty choice, else `ru` |
| Language.LanguageContext.ChangeLanguage | frontend/src/contexts/LanguageContext.jsx:11-14 | the language becomes the one chosen |
| Language.LanguageContext.T | frontend/src/contexts/LanguageContext.jsx:16-24 | the loop computes the translation specification for the current language |
| Language.WalkAppend | frontend/src/contexts/LanguageContext.jsx:19-22 | walking a key path is walking its prefix and then the rest |
| Language.PlainKey | frontend/src/contexts/LanguageContext.jsx:16-24 | a key without a dot gives the non-empty entry of the language, or the key itself |
| Language.DottedKey | frontend/src/contexts/LanguageContext.jsx:16-24 | `a.b` gives the nested non-empty entry, and the key itself when `a` is a string |
| Language.NeverEmpty | frontend/src/contexts/LanguageContext.jsx:16-24 | a non-empty key never translates to an empty text |
| Language.UnknownLanguage | frontend/src/contexts/LanguageContext.jsx:18-24 | an unknown language returns every key as it is |
| Cart.AddToCart | frontend/src/hooks/useCart.jsx:17-23 | (definition) raise the line with the key or append a new one; stated by `Cart.AddExisting`, `Cart.AddNew`, `Cart.AddKeepsWellFormed` and `Cart.AddTotals` |
| Cart.UpdateQuantity | frontend/src/hooks/useCart.jsx:30-33 | (definition) remove at 0 or less, else set; stated by `Cart.UpdateQuantityCases` |
| Cart.Total | frontend/src/hooks/useCart.jsx:37 | (definition) the sum of price × quantity; stated by `Cart.TotalAppend`, `Cart.BumpTotals` and `Cart.AddTotals` |
| Cart.ItemCount | frontend/src/hooks/useCart.jsx:38 | (definition) the sum of quantities; stated by the same lemmas |
| Cart.Bump | frontend/src/hooks/useCart.jsx:21 | every line whose key matches gains one unit; the others are unchanged |
| Cart.RemoveFromCart | frontend/src/hooks/useCart.jsx:26-28 | the lines kept are exactly those with another id |
| Cart.SetQuantity | frontend/src/hooks/useCart.jsx:32 | only the line with that id gets the new quantity |
| Cart.ClearCart | frontend/src/hooks/useCart.jsx:35 | an empty cart with total and count 0 |
| Cart.AddExisting | frontend/src/hooks/useCart.jsx:17-23 | adding an item already in the cart raises that line by one and leaves the rest |
| Cart.AddNew | frontend/src/hooks/useCart.jsx:17-23 | a new item is appended under its key with quantity 1 and its product id |
| Cart.NewLineKey | frontend/src/hooks/useCart.jsx:19-22 | a new line's key recomputes to its own id when its product id is truthy |
| Cart.FalsyIdNeverMerges | frontend/src/hooks/useCart.jsx:19-22 | an item without a truthy id, added twice, gives two lines of quantity 1 |
| Cart.SameKey | frontend/src/hooks/useCart.jsx:20 | (helper) lines equal in id, product id and size have the same key |
| Cart.AddKeepsWellFormed | frontend/src/hooks/useCart.jsx:17-23 | adding keeps every line's key equal to its id and the ids distinct |
| Cart.AppendKeepsWellFormed | frontend/src/hooks/useCart.jsx:17-23 | appending a new line for a key not in the cart keeps the cart well formed |
| Cart.BumpKeepsWellFormed | frontend/src/hooks/useCart.jsx:17-23 | raising a quantity keeps the cart well formed |
| Cart.ToppingsDoNotSplitLines | frontend/src/hooks/useCart.jsx:19-22 | adding the same product and size twice with other toppings gives one line of quantity 2 |
| Cart.RemoveAppend | frontend/src/hooks/useCart.jsx:27 | removal distributes over concatenation |
| Cart.UpdateQuantityCases | frontend/src/hooks/useCart.jsx:30-33 | a quantity of 0 or less removes the line; a positive one sets it and changes nothing else |
| Cart.TotalAppend | frontend/src/hooks/useCart.jsx:37-38 | total and item count distribute over concatenation |
| Cart.MulSucc | frontend/src/hooks/useCart.jsx:37 | (helper) price × (q + 1) = price × q + price |
| Cart.BumpTotals | frontend/src/hooks/useCart.jsx:21-38 | raising one line raises the total by its price and the count by one |
| Cart.KeyNamesOneLine | frontend/src/hooks/useCart.jsx:20 | in a well-formed cart each key names one line |
| Cart.AddTotals | frontend/src/hooks/useCart.jsx:17-38 | adding raises the count by one and the total by the line's price |
| Home.FilteredSpec | frontend/src/pages/Home.jsx:60-86 | (definition) every category when the term is empty, else the search sections; `Home.FilteredCategories` computes it |
| Home.SearchSections | frontend/src/pages/Home.jsx:68-85 | (definition) the categories with a match, each with its matches; stated by `Home.SearchSectionsMatch`, `Home.SearchSectionsInOrder` and `Home.CategoryShownIff` |
| Home.FilteredCategories | frontend/src/pages/Home.jsx:60-86 | the result is the filtered-category specification |
| Home.SearchLoop | frontend/src/pages/Home.jsx:68-85 | the loop collects the categories with a match, in order, each with its matches |
| Home.SearchSectionsStep | frontend/src/pages/Home.jsx:71-84 | one loop step keeps the invariant: the sections so far plus those of the remaining categories are the whole result |
| Home.FilterProducts | frontend/src/pages/Home.jsx:73-76 | the filter never grows the list |
| Home.AllSections | frontend/src/pages/Home.jsx:61-65 | every category, in order, with its products or none |
| Home.ResultCountText | frontend/src/pages/Home.jsx:134-136 | the count text is empty iff nothing was found |
| Home.EmptyTermShowsAll | frontend/src/pages/Home.jsx:61-65 | an empty search term shows every category with all its products |
| Home.FilterKeepsMatches | frontend/src/pages/Home.jsx:73-76 | a product is kept iff it is in the list and its name or description contains the term |
| Home.FilterIsSubsequence | frontend/src/pages/Home.jsx:73-76 | the kept products keep their order |
| Home.SkipFront | frontend/src/pages/Home.jsx:73-76 | (helper) a subsequence may skip the first element |
| Home.SubsequenceTail | frontend/src/pages/Home.jsx:73-76 | (helper) the tail of a subsequence is a subsequence |
| Home.SearchSectionsMatch | frontend/src/pages/Home.jsx:71-84 | each section shown is non-empty and holds exactly the matching products of its category |
| Home.SearchSectionsInOrder | frontend/src/pages/Home.jsx:71-84 | the categories shown keep the category order |
| Home.CategoryShownIff | frontend/src/pages/Home.jsx:71-84 | a category is shown iff one of its products matches |
| Home.NotShown | frontend/src/pages/Home.jsx:78 | (helper) a category not in the searched list is never shown |
| Home.FoundCountZeroIff | frontend/src/pages/Home.jsx:134 | the count is 0 iff no product of any category matches |
| Home.CategoriesDistinct | frontend/src/pages/Home.jsx:12-17 | the four categories have pairwise distinct ids, so the entries differ |
| ProductDetail.Loaded | frontend/src/pages/ProductDetail.jsx:27-41 | on load no topping is chosen, the base price is shown, and the first size is chosen when there is one |
| ProductDetail.RemoveAll | frontend/src/pages/ProductDetail.jsx:58 | the keys kept are exactly the others |
| ProductDetail.ToggleTopping | frontend/src/pages/ProductDetail.jsx:57-60 | a chosen topping is removed everywhere; another one is appended |
| ProductDetail.RecomputePrice | frontend/src/pages/ProductDetail.jsx:49-55 | the loop computes the rounded sized price plus the known toppings |
| ProductDetail.AdditionOf | frontend/src/pages/ProductDetail.jsx:62-70 | the cart addition carries the product id, the shown price, the size and the toppings |
| ProductDetail.RemoveAbsent | frontend/src/pages/ProductDetail.jsx:58 | removing a key that is not there changes nothing |
| ProductDetail.RemoveAppend | frontend/src/pages/ProductDetail.jsx:58 | removal distributes over concatenation |
| ProductDetail.ToggleTwiceFromAbsent | frontend/src/pages/ProductDetail.jsx:57-60 | toggling a topping on and off restores the choice |
| ProductDetail.ToggleTwiceFromPresent | frontend/src/pages/ProductDetail.jsx:57-60 | toggling a chosen topping off and on moves it, once, to the end |
| ProductDetail.EmptyTableAddsNothing | frontend/src/pages/ProductDetail.jsx:36-53 | without a topping table every topping is free |
| ProductDetail.ToggleOnPrice | frontend/src/pages/ProductDetail.jsx:53-58 | toggling on a known topping raises the price by its price; an unknown one leaves it |
| ProductDetail.SameAsServer | frontend/src/pages/ProductDetail.jsx:49-55 | with the server's topping table the page shows what `calculatePrice` charges |
| ProductDetail.LoadedPriceStable | frontend/src/pages/ProductDetail.jsx:37-55 | for every catalog dish the recomputed price at load is the base price |
| ProductDetail.CatalogSizes | backend/src/config/products.js:2-162 | the three plov dishes have the plov sizes and the others none |
| ProductDetail.AddTwiceOneLine | frontend/src/pages/ProductDetail.jsx:62-70 | the line key is id and size, so adding the same dish and size twice gives one line of quantity 2 |
| Checkout.FormValid | frontend/src/pages/Cart.jsx:42-58 | (definition) no error set by `validate`; stated by `Checkout.Validate` and `Checkout.ValidateAgrees` |
| Checkout.DeliveryAddress | frontend/src/pages/Cart.jsx:60-66 | (definition) `getDeliveryAddress`; stated by `Checkout.DeliveryAddressCases` and `Checkout.AddressNotBlank` |
| Checkout.BuildOrderData | frontend/src/pages/Cart.jsx:82-93 | (definition) the order data sent; stated by `Checkout.OrderDataShape` and `Checkout.RequestCarriesForm` |
| Checkout.Validate | frontend/src/pages/Cart.jsx:42-58 | each field's error is set iff its condition holds, with its translated message; success iff the form is valid |
| Checkout.ValidateAgrees | frontend/src/pages/Cart.jsx:42-58 | the form is valid iff the branch and address rules hold, the phone is `+998` and nine digits, and a payment is chosen |
| Checkout.InitialFormRejected | frontend/src/pages/Cart.jsx:19-27 | the form as it opens is rejected: blank address and a phone with only the country code |
| Checkout.DeliveryAddressCases | frontend/src/pages/Cart.jsx:60-66 | a known branch gives `name — address`, an unknown one nothing, a delivery what was typed |
| Checkout.OrderDataShape | frontend/src/pages/Cart.jsx:82-93 | a location only for delivery, a branch only for pickup, the cart and its total, and a language that is never empty |
| Checkout.ItemsOf | frontend/src/pages/Cart.jsx:83 | one item per cart line |
| Checkout.ClientCheckImpliesServerCheck | frontend/src/pages/Cart.jsx:42-93 | a valid form with a cart of positive total, a known payment method and a known branch passes the server's validation |
| Checkout.FormPassesServerChecks | frontend/src/pages/Cart.jsx:42-66 | a valid delivery form, or a valid pickup form naming a known branch, has a non-blank address and a phone the server accepts |
| Checkout.RequestCarriesForm | frontend/src/pages/Cart.jsx:82-93 | the request carries the cart's lines and total, the composed address, and the form's phone and payment method |
| Checkout.AddressNotBlank | frontend/src/pages/Cart.jsx:60-66 | the address of a delivery with a typed address, or of a pickup at a known branch, is not blank |
| Checkout.PickupNotBlank | frontend/src/pages/Cart.jsx:61-63 | (helper) a known branch gives a non-blank address |
| Checkout.NotBlank | frontend/src/pages/Cart.jsx:63 | (helper) a string holding `—` does not trim to nothing |

## Left out

- Network: requests to Telegram are recorded in an outbox, not sent. Transport failures, which the source catches and logs, change nothing and are not modelled. The `getUpdates` reply of each polling round is an input.
- Concurrency: `await` and unawaited promises are modelled as running in program order. The five-second pause after a polling error is not modelled.
- Logging (`console.*`) is not modelled.
- The SQLite database is a map of order rows. The users table, timestamps, the other queries, and SQLite type affinity (an id sent as text matches an integer id) are not modelled. The status write takes an integer id.
- Orders.PostOrder: the Telegram init-data check (HMAC) is not modelled. The user is found or not (an input). Creating a missing user in development mode is not modelled; that path always answers 404. The one-second payment delay is not modelled.
- `Date.now` and `Math.random` are parameters of `Orders.GenerateOrderNumber`.
- The track, my-orders, admin list and statistics routes are not part of the core and are not modelled.
- `toLocaleString('ru-RU')` is stood in for by plain decimal text.
- `formatPrice`, `hapticFeedback` and `initTelegramWebApp` are display or platform calls and are not modelled.
- Floating-point prices: size multipliers are exact reals, and `Math.round` is applied to an exact value. Binary floating-point error is not modelled.
- Product images and branch coordinates play no part in the logic and are left out of the data. Size captions are kept in the catalog data but no operation reads them.
- The translations table is a parameter. Its file is not part of this model, so no statement depends on its contents.
- Checkout.BuildOrderData: a `lang_code` entry that is a nested object, not a string, is sent as its text form `[object Object]`; `JSON.stringify` would send the object itself. Translation values are read as text only.
- Object lookups (`LANGS[lang]`, `translations[language]`, `toppingsData[tk]`) are own-property lookups. Inherited names such as `constructor` are not modelled.
- Language.LanguageContext: `localStorage` is the constructor's input, and the write in `changeLanguage` is not modelled.
- Cart: the `localStorage` load and save are not modelled, and the cart starts from a given sequence.
- Home: the loading of the categories, the user greeting and the rendering are not modelled. The products of each category are an input map.
- Home.FilteredCategories: the search term is used as typed, not trimmed, as in the source. Lower-casing covers ASCII and basic Cyrillic only.
- ProductDetail.Loaded: a product's sizes are a sequence, so `sizes: {}` (truthy but empty) and `sizes: null` both give no size. The source would set the size to `undefined` for `{}`; the catalog has no such product.
- Checkout.Validate: the error state, the scrolling to the first error and the haptic feedback are not modelled.
- Checkout: the submission itself, the success screen and the map picker are not modelled. `frontend/src/pages/Checkout.jsx` is not routed and is not part of this model.
