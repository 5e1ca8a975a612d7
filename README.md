# Ticket mini-program: page rules in Dafny

This project models the rules inside four pages of a WeChat ticket-buying mini-program and proves properties about them.

- **Order confirmation** (`order-confirm`):
  - Validation of ID documents: the ID-card pattern, and a length table keyed by document label.
  - The error message that mirrors that validation.
  - The attendee list. Remove keeps a floor of one attendee; the add form opens only below the purchase limit. `ticketCount` and `totalPrice` are kept in step with the list.
  - The form checks of the "add attendee" modal: name, ID number, phone pattern, ID format, then the real-name reply.
  - The guards of `confirmPurchase` and its `isPurchasing` debounce flag.
  - The mapping from attendees to the purchase payload.
- **Ticket selection** (`ticket-select`):
  - Filtering SKUs (seat areas) to sale tickets and classifying them by stock.
  - The default area and session.
  - Exclusive selection of an area (sold-out areas refused) or a session.
  - The price in yuan and the "buy now" guard.
  - The sale-start countdown, split into days, hours, minutes and seconds.
- **Order detail** (`order-detail`):
  - The `MM:SS` payment countdown over the 15-minute window, with its start, tick and stop state.
  - The payment-status poll, bounded to 11 queries.
  - The `confirmPay` flag.
  - Normalising a single ticket into a one-element list.
- **Login** (`login`): the ordered guard chain of `onLogin`, the ID-card pattern, and the ID-type picker.

Files:
- `wrappers.dfy` holds `Option` and `OrString`, JavaScript's `s || fallback` on an optional string.
- `strings.dfy` holds the JavaScript string behaviour the pages rely on: `trim` over the ECMAScript whitespace set, `toString` of a non-negative integer, `padStart(2, "0")`, and division that truncates toward zero.
- `id_card.dfy` holds the ID-card pattern that two pages share.
- Areas and sessions are distinct record types, so the `selected` map and the first-selected search are written once for each (`SelectArea`/`SelectSession`, `FirstSelectedIndex`/`FirstSelectedSessionIndex`).
- There is one module per page. A page whose handlers update `data` is a class whose fields are that page's data. Handlers are methods with `modifies` frames on exactly the fields they write. Pure helpers are functions, and the properties are lemmas about them.

Clock readings, timer handles, server replies and payment callbacks are method parameters. Two awaited replies are handled by a separate method that runs after the request: the purchase (`ConfirmPurchase`, then `OnPurchaseReply`) and the real-name check of the add form (`ConfirmAddAttendee`, then `OnRealNameReply`). Other awaited replies are parameters of a single method.

Behaviour of the code worth knowing:
- The payment poll makes at most 11 queries: the counter is compared with `> 10` before it is incremented.
- On the sale path of `confirmPurchase`, a `payInfo` that does not parse is caught and swallowed. The page stays, `isPurchasing` stays `true`, and every later tap is turned away as busy (`OrderConfirm.UnreadablePayInfoBlocksRetry`). After a successful sale the flag also stays `true`, but the page is relaunched.
- Of the files modelled, only the login page writes the `userInfo` record (login.ts:118-123), and it stores `name`, `idType` and `idNumber`. The order-confirm page reads `idNo` and `mobile` from it. So after a successful login the buyer's own attendee starts with an empty ID number and a label (not a code) as its type, and `confirmPurchase` refuses the list until that entry is replaced (`OrderConfirm.LoggedInBuyerIncomplete`).
- The add form's real-name check has no busy flag, and the modal stays open while it is pending. A second tap on confirm sends the same form again, and two verified replies append it twice, even when that takes the list one past the purchase limit (`OrderConfirm.SecondAddTapPassesLimit`).
- The order-confirm page stores the type codes `ID_CARD`/`PASSPORT`/`GAT_TXZ`, but the validator only knows Chinese labels. So in the modal the format check reduces to "non-blank after trim" (`OrderConfirm.CodesNeverRejectFormat`).

## Model

| member | source | states |
|---|---|---|
| Strings.Trim | miniprogram/pages/order-confirm/order-confirm.ts:600 | `trim` yields a string no longer than its input. It is empty exactly when the input is all whitespace, and it neither starts nor ends with whitespace. |
| Strings.TrimIsWindow | miniprogram/pages/order-confirm/order-confirm.ts:600 | The result of `trim` is a contiguous part of the input, and everything cut off on either side is whitespace. |
| Strings.TrimIdempotent | miniprogram/pages/order-confirm/order-confirm.ts:617-628 | Trimming an already trimmed value changes nothing. |
| Strings.DecimalRoundTrip | miniprogram/pages/ticket-select/ticket-select.ts:153 | The decimal text used in `区域{k}` and in the countdown reads back as the same number. |
| Strings.PaddedRoundTrip | miniprogram/pages/order-detail/index.ts:203-205 | `padStart(2, "0")` of a number's text is all digits and still denotes the same number. |
| Strings.TruncDiv | miniprogram/pages/order-detail/index.ts:160-161 | Division rounds toward zero, as `dayjs().diff(..., "seconds")` does, for negative differences too. |
| IdCard.ValidateIdCard | miniprogram/pages/order-confirm/order-confirm.ts:571-575 | An accepted number is 15 or 18 characters long and starts with a digit. |
| IdCard.IdCardExactly | miniprogram/pages/order-confirm/order-confirm.ts:571-575 | The ID-card pattern accepts exactly 15 digits, 18 digits, or 17 digits followed by `X`/`x`. |
| IdCard.EighteenDigitsRedundant | miniprogram/pages/login/login.ts:136-139 | The 18-digit alternative of the pattern adds nothing beyond "17 digits and a check character". |
| IdCard.AcceptedIsTrimmed | miniprogram/pages/order-confirm/order-confirm.ts:571-575 | Every accepted ID card is already trimmed. |
| OrderConfirm.ValidateOtherIdNumber | miniprogram/pages/order-confirm/order-confirm.ts:578-596 | A type outside the length table always passes. A passing type in the table has a trimmed length between 6 and 20, the widest bounds in the table. |
| OrderConfirm.ValidateIdNumber | miniprogram/pages/order-confirm/order-confirm.ts:599-613 | A passing number is never blank. A passing ID card has 15 or 18 characters once trimmed. |
| OrderConfirm.ValidateIdNumberCases | miniprogram/pages/order-confirm/order-confirm.ts:578-613 | By case: a blank number fails. For 身份证 the result is the pattern on the trimmed text. For a label in the table, the trimmed length must lie within [min, max]. Any other type passes. |
| OrderConfirm.IdNumberErrorMessage | miniprogram/pages/order-confirm/order-confirm.ts:616-643 | A blank number gets "请输入证件号". A non-blank ID card gets "请输入正确的身份证号" exactly when the pattern rejects the trimmed number, and "" otherwise. A non-blank number of a table type gets that type's length message exactly when its trimmed length is outside the rule, and "" otherwise. Any other type gets "". |
| OrderConfirm.ErrorMessageMirrorsValidation | miniprogram/pages/order-confirm/order-confirm.ts:599-643 | Validation fails exactly when the error message is non-empty. |
| OrderConfirm.CodesOnlyNeedNonBlank | miniprogram/pages/order-confirm/order-confirm.ts:582-592 | For the codes the page stores, validation holds exactly when the number is non-blank. |
| OrderConfirm.BuyerEntry | miniprogram/pages/order-confirm/order-confirm.ts:95-101 | The buyer's entry built from the stored record is sent with `mySelf` true. Missing keys become "", and a missing type becomes `ID_CARD`. |
| OrderConfirm.LoggedInBuyerIncomplete | miniprogram/pages/order-confirm/order-confirm.ts:95-101 | For a record written by a successful login, the buyer's entry has the login name and type but an empty ID number, so it fails the completeness check of `confirmPurchase`. |
| OrderConfirm.PurchasePayload | miniprogram/pages/order-confirm/order-confirm.ts:327-335 | One entry per attendee, in order. Defaults: `idType` "ID_CARD", `mobile` "", `mySelf` false. An empty string also falls back to its default. |
| OrderConfirm.PayloadAppend | miniprogram/pages/order-confirm/order-confirm.ts:327-335 | The payload of a concatenated list is the concatenation of the payloads. |
| OrderConfirm.RemoveAt | miniprogram/pages/order-confirm/order-confirm.ts:202-212 | `splice(index, 1)` on a copy. At most one entry goes. An in-range index drops exactly that entry, keeps the others in order, and loses one element of the multiset. An index past the end changes nothing. A negative index counts from the end, and one below `-length` removes the first entry. |
| OrderConfirm.FormError | miniprogram/pages/order-confirm/order-confirm.ts:450-501 | A reported error is never `Added`, and an ID-format error carries a non-empty message. A form without error has a name, an ID number and a well-formed phone. |
| OrderConfirm.FormErrorOrder | miniprogram/pages/order-confirm/order-confirm.ts:450-501 | The modal checks run in this order, and each failure is reported exactly when the earlier checks passed: name, ID number, phone present, phone pattern `^1[3-9]\d{9}$`, ID format. |
| OrderConfirm.CodesNeverRejectFormat | miniprogram/pages/order-confirm/order-confirm.ts:486-501 | When the stored type is a code, the ID-format check never fires. |
| OrderConfirm.OrderConfirmPage.constructor | miniprogram/pages/order-confirm/order-confirm.ts:37-118 | Initial data. Also `onLoad` with the price and the gift flag (`type`) from the URL, and a successful `loadMatchInfo` that supplies the limit (`match.buyLimit`) and the number of parsed agreements. When a stored user exists, the one attendee is the buyer's entry, marked `containsMySelf`, with the stored type or `ID_CARD`. |
| OrderConfirm.OrderConfirmPage.RemoveAttendee | miniprogram/pages/order-confirm/order-confirm.ts:200-218 | With at most one attendee nothing changes. Otherwise the entry at the index is spliced out, and `ticketCount`/`totalPrice` follow the list. |
| OrderConfirm.OrderConfirmPage.AddAttendee | miniprogram/pages/order-confirm/order-confirm.ts:222-234 | The modal opens exactly when the list is below the purchase limit. |
| OrderConfirm.OrderConfirmPage.AddAttendeeToList | miniprogram/pages/order-confirm/order-confirm.ts:547-562 | Appends at the end and keeps count and total consistent. Closes the modal and clears the form except `idType`. |
| OrderConfirm.OrderConfirmPage.CloseModal | miniprogram/pages/order-confirm/order-confirm.ts:410-415 | Hides the modal and keeps the form. |
| OrderConfirm.OrderConfirmPage.OnNoticeRadioChange | miniprogram/pages/order-confirm/order-confirm.ts:679-683 | Toggles the "notices read" flag. |
| OrderConfirm.OrderConfirmPage.OnIdTypeChange | miniprogram/pages/order-confirm/order-confirm.ts:433-444 | Stores the picked index and that option's code. An index outside the options stores `ID_CARD`. |
| OrderConfirm.OrderConfirmPage.ConfirmAddAttendee | miniprogram/pages/order-confirm/order-confirm.ts:447-518 | A form error is reported and nothing changes. Otherwise an ID card is sent to the real-name service and the page waits, unchanged, with that form pending; any other type is appended directly, which closes the modal and clears the form except `idType`. |
| OrderConfirm.OrderConfirmPage.OnRealNameReply | miniprogram/pages/order-confirm/order-confirm.ts:518-544 | A verified reply appends the attendee that was sent, closes the modal and clears the form except `idType`. A refusal or a service error changes nothing. |
| OrderConfirm.SecondAddTapPassesLimit | miniprogram/pages/order-confirm/order-confirm.ts:447-562 | With the list one below the limit and a valid ID-card form, two taps followed by two verified replies append the form twice and leave the list one above the limit. |
| OrderConfirm.OrderConfirmPage.ConfirmPurchase | miniprogram/pages/order-confirm/order-confirm.ts:238-335 | A tap while busy does nothing. Otherwise these checks run in order: notices read (or no agreements), a non-empty list, every attendee with name and number. Each failure is an exact iff. Only a passing tap sets `isPurchasing`, and a sale submits the payload of the list. |
| OrderConfirm.OrderConfirmPage.OnPurchaseReply | miniprogram/pages/order-confirm/order-confirm.ts:280-397 | Maps the reply to its outcome (gift done or failed; payment requested, unreadable payInfo, purchased, or failed). `isPurchasing` stays set exactly on the payment sheet, the sale relaunch and the swallowed parse error. |
| OrderConfirm.UnreadablePayInfoBlocksRetry | miniprogram/pages/order-confirm/order-confirm.ts:345-365 | After a sale reply whose payInfo does not parse, the next tap returns busy. |
| OrderConfirm.DoubleTapIsDebounced | miniprogram/pages/order-confirm/order-confirm.ts:240-243 | A second tap while the first submission is pending is turned away as busy. |
| TicketSelect.SaleSkus | miniprogram/pages/ticket-select/ticket-select.ts:136-137 | The filter keeps only sale tickets and never lengthens the list. |
| TicketSelect.SaleSkusMembers | miniprogram/pages/ticket-select/ticket-select.ts:136-137 | A SKU survives the filter exactly when it was in the input and is a sale ticket. |
| TicketSelect.SaleSkusAppend | miniprogram/pages/ticket-select/ticket-select.ts:136-137 | The filter preserves order: filtering a concatenation concatenates the filtered parts. |
| TicketSelect.StockStatus | miniprogram/pages/ticket-select/ticket-select.ts:140-149 | Stock 0 is sold out; stock below 10 and not 0 is out of stock; otherwise available. "full" is never produced. |
| TicketSelect.ProcessSkuData | miniprogram/pages/ticket-select/ticket-select.ts:131-158 | One area per sale SKU, in order. Each area carries that SKU's id, price, stock status and name. An area is preselected exactly when it is at position 0 and available. |
| TicketSelect.AreaNameFallback | miniprogram/pages/ticket-select/ticket-select.ts:153 | The name falls back from `skuName`, to `area`, to `区域` followed by the 1-based position. |
| TicketSelect.FirstAvailableIndex | miniprogram/pages/ticket-select/ticket-select.ts:69-70 | `find` of the first available area: every earlier area is unavailable. |
| TicketSelect.SelectArea | miniprogram/pages/ticket-select/ticket-select.ts:177-180 | The list keeps its length and order, and each area's `selected` becomes "its id is the tapped id". |
| TicketSelect.SelectSession | miniprogram/pages/ticket-select/ticket-select.ts:163-166 | The list keeps its length and order, and each session's `selected` becomes "its id is the tapped id". |
| TicketSelect.ExclusiveAreaSelection | miniprogram/pages/ticket-select/ticket-select.ts:175-196 | With unique ids, tapping an area leaves exactly that area selected, and it becomes the selected area. |
| TicketSelect.UnknownAreaSelectsNothing | miniprogram/pages/ticket-select/ticket-select.ts:177-181 | Tapping an id that is not in the list clears every selection. |
| TicketSelect.ExclusiveSessionSelection | miniprogram/pages/ticket-select/ticket-select.ts:161-173 | With unique ids, tapping a session leaves exactly that session selected. |
| TicketSelect.DefaultSelectionBuyable | miniprogram/pages/ticket-select/ticket-select.ts:67-81 | After loading, "buy now" is possible exactly when the first area is available. A default area found further down is not marked selected, so it is refused. |
| TicketSelect.SplitCountdown | miniprogram/pages/ticket-select/ticket-select.ts:283-289 | For a positive difference: hours < 24, minutes < 60, seconds < 60, and the parts rebuild the difference to within one second below it. |
| TicketSelect.CountdownUnique | miniprogram/pages/ticket-select/ticket-select.ts:283-289 | Any two splits within those bounds that both lie within a second of the difference are equal. |
| TicketSelect.CountdownAfterStart | miniprogram/pages/ticket-select/ticket-select.ts:222-249 | Before the sale start the countdown is active, holds `SplitCountdown` of the time left, and keeps the new timer. After it the countdown is inactive. Without a start time nothing changes. |
| TicketSelect.TicketSelectPage.constructor | miniprogram/pages/ticket-select/ticket-select.ts:21-40 | Initial data: loading, empty lists, nothing selected, zero countdown. |
| TicketSelect.TicketSelectPage.LoadMatchData | miniprogram/pages/ticket-select/ticket-select.ts:49-84 | Areas from `processSkuData`, first session, first available area, its price in yuan, then the countdown. |
| TicketSelect.TicketSelectPage.LoadMatchDataFailed | miniprogram/pages/ticket-select/ticket-select.ts:85-103 | A failed load only clears `loading`. |
| TicketSelect.TicketSelectPage.OnSessionSelect | miniprogram/pages/ticket-select/ticket-select.ts:161-173 | Every session's `selected` becomes "id matches", and the selected session is the first match. |
| TicketSelect.TicketSelectPage.OnAreaSelect | miniprogram/pages/ticket-select/ticket-select.ts:175-196 | A sold-out tap changes nothing. Otherwise selection is by id, and the total is the price / 100, or 0 with no match. |
| TicketSelect.TicketSelectPage.OnBuyNow | miniprogram/pages/ticket-select/ticket-select.ts:198-219 | Proceeds exactly when an area is held, marked selected and not sold out, and passes its id and the total. Otherwise it reports which guard failed. |
| TicketSelect.TicketSelectPage.StartCountdown | miniprogram/pages/ticket-select/ticket-select.ts:222-249 | The new countdown state is `CountdownAfterStart` of the old state. |
| TicketSelect.TicketSelectPage.UpdateCountdown | miniprogram/pages/ticket-select/ticket-select.ts:252-299 | A positive difference shows its split. Otherwise the countdown is zeroed, made inactive, and the timer is cleared. |
| OrderDetail.FormatMMSS | miniprogram/pages/order-detail/index.ts:200-210 | The text has the shape digits ":" two digits. Below 100 minutes it is exactly 5 characters. |
| OrderDetail.FormatRoundTrip | miniprogram/pages/order-detail/index.ts:200-210 | Reading the text back gives minutes·60 + seconds, the original number, and the seconds part is below 60. |
| OrderDetail.ZeroText | miniprogram/pages/order-detail/index.ts:18 | Zero seconds is shown as "00:00". |
| OrderDetail.RemainingSeconds | miniprogram/pages/order-detail/index.ts:158-161 | The seconds left until order time + 15 minutes, truncated. They are positive exactly when at least one second remains. |
| OrderDetail.RemainingBounded | miniprogram/pages/order-detail/index.ts:156-180 | For an order placed no later than now, and while time remains, at most 900 seconds remain and the text is 5 characters long. |
| OrderDetail.PollQueries | miniprogram/pages/order-detail/index.ts:86-103 | Between 1 and 11 queries. None before the last one saw payment, and fewer than 11 only when the last one saw it. |
| OrderDetail.PollQueriesUnique | miniprogram/pages/order-detail/index.ts:86-103 | Those properties fix the query count. |
| OrderDetail.LoopPayResult | miniprogram/pages/order-detail/index.ts:82-106 | The interval loop makes exactly `PollQueries` queries. Including the final tick that gives up, it makes one more tick when no query saw payment. |
| OrderDetail.OnPaymentSuccess | miniprogram/pages/order-detail/index.ts:60-68 | Polling happens exactly when the sheet reports `requestPayment:ok`, and then makes `PollQueries` queries, at most 11. |
| OrderDetail.NormaliseTicketDetail | miniprogram/pages/order-detail/index.ts:144-152 | A single ticket becomes a one-element `ticketList`; an array leaves the data unchanged. |
| OrderDetail.NormaliseIdempotent | miniprogram/pages/order-detail/index.ts:144-152 | Normalising twice is normalising once. |
| OrderDetail.OrderDetailPage.constructor | miniprogram/pages/order-detail/index.ts:5-21 | Initial data: not purchasing, countdown 0, "00:00", inactive, no timer. |
| OrderDetail.OrderDetailPage.UpdateCountdownDisplay | miniprogram/pages/order-detail/index.ts:200-210 | The displayed text is `FormatMMSS` of the seconds. |
| OrderDetail.OrderDetailPage.StartCountdown | miniprogram/pages/order-detail/index.ts:156-182 | When time remains, the countdown is active with the remaining seconds and the new timer. Otherwise it shows "00:00" and is inactive. |
| OrderDetail.OrderDetailPage.CountdownTick | miniprogram/pages/order-detail/index.ts:183-196 | A tick shows the new remaining time, or stops the countdown when it is used up. |
| OrderDetail.OrderDetailPage.StopCountdown | miniprogram/pages/order-detail/index.ts:213-223 | With a timer it resets to no timer, inactive, 0 and "00:00". Without one nothing changes. |
| OrderDetail.OrderDetailPage.ConfirmPay | miniprogram/pages/order-detail/index.ts:45-80 | The payment sheet opens and `isPurchasing` stays set exactly when payInfo parses. A parse error clears the flag. |
| OrderDetail.OrderDetailPage.OnPaymentComplete | miniprogram/pages/order-detail/index.ts:69-73 | The sheet's `complete` callback clears `isPurchasing`. |
| Login.LoginCheck | miniprogram/pages/login/login.ts:59-98 | A successful login has a non-blank name, a chosen type and a non-blank number. An ID card that logs in has no surrounding whitespace. |
| Login.LoginOrder | miniprogram/pages/login/login.ts:59-133 | The checks run in this order: trimmed name, chosen type, trimmed number, ID-card pattern (for 身份证 only). Each failure is an exact iff, and success stores the form's name, type and number. |
| Login.SurroundingSpaceRejected | miniprogram/pages/login/login.ts:81-98 | An ID-card number with a leading or trailing space passes the non-blank check but fails the pattern. |
| Login.LeadingSpaceRejected | miniprogram/pages/login/login.ts:81-98 | A valid ID card with a space in front is valid once trimmed, yet login rejects it. |
| Login.CheckCharAlternative | miniprogram/pages/login/login.ts:136-139 | Any 17 digits followed by `X` or `x` is accepted. |
| Login.OtherTypesNeedOnlyNonBlank | miniprogram/pages/login/login.ts:90-98 | For any type other than 身份证, login succeeds exactly when the number is non-blank. |
| Login.OptionValuesAreLabels | miniprogram/pages/login/login.ts:9-15 | Every option's value equals its label. |
| Login.LoginPage.constructor | miniprogram/pages/login/login.ts:4-8 | The form starts empty. |
| Login.LoginPage.OnNameInput | miniprogram/pages/login/login.ts:25-30 | Only the name changes. |
| Login.LoginPage.OnIdNumberInput | miniprogram/pages/login/login.ts:51-56 | Only the number changes. |
| Login.LoginPage.OnIdTypeSelect | miniprogram/pages/login/login.ts:33-48 | A tap stores the chosen option's value, which is its label. A cancelled sheet changes nothing. |
| Login.LoginPage.OnLogin | miniprogram/pages/login/login.ts:59-133 | The outcome is `LoginCheck` of the form. On success the stored user carries the form's name and number. |

## Left out

- Network requests, `wx` storage, toasts, modals, loading indicators, navigation, `wx.requestPayment`, maps and the clipboard. Server replies and callbacks are parameters; toasts become outcome values.
- Timers and the clock. `Date.now`/`dayjs()` readings and `setInterval` handles are parameters. Scheduling, and the order in which asynchronous `.then` callbacks run, are not modelled.
- OrderDetail.LoopPayResult: assumes each query's reply arrives before the next tick. A late reply that would stop the interval afterwards is not modelled.
- `JSON.parse` of `payInfo`: only whether it succeeds is modelled, as a boolean. The agreement data is taken as already parsed: the constructor receives its length. A `loadMatchInfo` that fails, including a parse error caught at order-confirm.ts:167, leaves `matchInfo` and `agreementInfo` null; that path is not modelled, except that no agreements (`agreements` = 0) behaves like the null `agreementInfo`.
- `generateUUID` (random), `formatMatchTime` and `processSessionData` (host time zone), and the network part of `loadMatchInfo`: not modelled. Sessions are taken as given.
- Prices. Yuan prices are `real`, and `price / 100` is exact division. JavaScript floating-point rounding, `NaN` from a missing price, and `Number(...)` of URL parameters are not modelled. In order-confirm the URL price is stored as the raw string (`price || 0`, order-confirm.ts:77,79), so `ticketPrice` and the initial `totalPrice` are text until `*` coerces them; the model takes the price as a number from the start.
- The length table lookup `lengthRules[idType]`. Keys inherited from `Object.prototype` (such as `toString`) are not modelled; only the four labels are in the table.
- Missing data: `undefined` fields beyond the optional attendee, SKU and stored-user fields are not modelled. This covers a missing `matchInfo` in `addAttendee`, a missing `ticket` in `getTicketDetail`, and a missing order time in `startCountdown`; the SKU stock is taken to be a number.
- `onInputChange` (a generic field setter), `preventClose` (empty) and the notice-opening handlers (navigation only) are not modelled.
- OrderConfirm.OrderConfirmPage.OnRealNameReply: appends the form as it was when sent. The source appends a copy of the `newAttendee` object it read before the `await`; edits made to that object while the check is pending are not modelled.
- `onShow` (order-confirm) reloads the buyer's entry as the whole attendee list (`ticketCount` copies) when the page was opened with `from=add-attendee`. This hook is not modelled.
- `onUnload` (ticket-select) clears the sale countdown's interval. Clearing the interval is not modelled, since timers are not.
- `onUnload`/`onHide` (order-detail) call `stopCountdown`. The hooks themselves are not modelled; their effect is `OrderDetail.OrderDetailPage.StopCountdown`.
- The purchase payload's `skuId`/`requestNo` fields (one comes from the URL, the other from `generateUUID`) and the gift request's `ticketBid` are not part of the payload model.
- The `loginTime` written to storage on login comes from the clock and is not modelled.
- Lengths of ID numbers are counted in code points (Dafny characters), whereas JavaScript's `length` counts UTF-16 code units. They differ only for characters beyond U+FFFF, where a source length is one larger per such character.
- `Strings.Trim` (through `IsWhitespace`) uses the whitespace set of ECMAScript `trim` as a fixed list of code points; Unicode version differences are not modelled.
