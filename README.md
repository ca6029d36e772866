# amvenit.ro in Dafny

amvenit.ro is a Romanian marketplace where clients post delivery orders and
approved couriers accept them. This project models the logic under its pages
and API routes, and proves properties of that model:

- **Three Romanian phone normalisers that disagree.**
  - The strict `normalizeRoMobile` of the courier application. It accepts only `07` plus eight digits, also written with `40`, `0040` or `+40`, and stores `+407…`.
  - The lenient `normalizePhone` of the order and registration forms. It rewrites the prefix and asks only for ten digits.
  - The never-failing `normalizePhone` behind the `tel:`, `wa.me` and `sms:` links.
- **The order lifecycle over the `orders` table.**
  - The order form creates an `active` order.
  - The home page accepts it with a courier PIN, guarded on the status.
  - The couriers' board accepts it without a guard.
  - "My orders" cancels it or marks it delivered, guarded on the owner and the status.
  - The lists filter and sort the orders.
- **Admin moderation.**
  - A shared admin key protects every admin route.
  - An approval creates a courier with a fresh six-digit PIN, upserted by phone.
  - A rejection flips the request's status.
  - Two list routes show the requests and the pending orders.
  - Two routes delete an order.
- **The two form chains (registration and order).** Their first failing check decides the message.

The store (the hosted database) is a class `Tables.Database` with one map per table. Each store call is one atomic method: it either applies completely or reports the store's error (a `fault` parameter) and changes nothing. A filtered `UPDATE … WHERE` is `Tables.UpdateWhere`: it changes the row only when the guard holds and reports whether it matched. The pages are classes whose fields are the page's state. Each event handler is a method that states the page's new state and the store's new state.

Modules:
- `Wrappers`, `Text`, `Tables` and `Listing` are the shared helpers.
- There is one module per source file:
  - `CourierRequestRoute`
  - `BecomeCourierPage`
  - `OrderRequestPage`
  - `RegistrationPage`
  - `HomePage`
  - `OrdersBoard`
  - `MyOrdersPage`
  - `AdminApproveRoute`
  - `AdminRejectRoute`
  - `AdminRequestListRoute`
  - `AdminOrderListRoute`
  - `AdminOrderRejectRoute`
  - `AdminOrderRejectLinkRoute`
- `Lifecycle` relates the writes of the different pages to each other.

Each copy of a normaliser or link builder that the source duplicates is transcribed where it appears. A lemma then proves that the copy agrees with the first one.

Some of what the proofs show about the code as written:
- The strict and lenient normalisers disagree. `"0812345678"` is refused by the first and accepted unchanged by the second (`CourierRequestRoute.Rejections`, `OrderRequestPage.NotMobileAccepted`).
- The board's accept overwrites a cancelled order as `completed` (`OrdersBoard.AcceptsDiverge`, `Lifecycle.BoardRevivesCancelled`).
- No write in the core ever sets the status `accepted` or `accepted_by_id` (`Lifecycle.NoWriteAccepts`). So an order accepted on the home page can neither be cancelled nor marked delivered from "my orders" (`Lifecycle.AcceptedOnHome`).
- "My orders" checks the status case-insensitively, but its write compares it exactly (`MyOrdersPage.DeliverCaseMismatch`).
- The order routes compare the key with `ADMIN_KEY` directly. When the setting is the empty string, the empty key passes there, while `mustAdmin` refuses it (`AdminOrderListRoute.KeyChecksDiffer`).

## Model

| member | source | states |
|---|---|---|
| `CourierRequestRoute.NormalizeRoMobile` | app/api/courier-request/route.ts:6-21 | an accepted number is `+407` followed by exactly eight digits (twelve characters); a refused one has `normalized == ""` |
| `CourierRequestRoute.IsNationalMobile` | app/api/courier-request/route.ts:16 | `/^07\d{8}$/`; `AcceptsExactly` states the numbers that pass |
| `CourierRequestRoute.AtMostOneRewrite` | app/api/courier-request/route.ts:9-13 | the `0040` and `40` rewrites never both apply: the first one's result starts with `0` |
| `CourierRequestRoute.ToNational` | app/api/courier-request/route.ts:9-13 | the two prefix rewrites; `AtMostOneRewrite` and `ToNationalAccepts` state them |
| `CourierRequestRoute.ToNationalAccepts` | app/api/courier-request/route.ts:10-16 | on digits, the rewrites give `07` and eight digits exactly for `07…`, `407…` and `00407…` of the right lengths, keeping the last eight digits |
| `CourierRequestRoute.AcceptsExactly` | app/api/courier-request/route.ts:7-19 | a number is accepted iff its digits are `07`+8, `407`+8 or `00407`+8 digits, and then it normalises to `+407` and its last eight digits |
| `CourierRequestRoute.OnlyDigitsMatter` | app/api/courier-request/route.ts:7 | two inputs with the same digits get the same result: spaces, dashes, `+` and brackets never matter |
| `CourierRequestRoute.SeparatorsIgnored` | app/api/courier-request/route.ts:7 | inserting any non-digit character anywhere leaves the result unchanged |
| `CourierRequestRoute.Canonical` | app/api/courier-request/route.ts:7-20 | a number already in `+407…` form is accepted and returned unchanged |
| `CourierRequestRoute.Idempotent` | app/api/courier-request/route.ts:7-20 | re-normalising an accepted result succeeds and gives the same result |
| `CourierRequestRoute.National` | app/api/courier-request/route.ts:16-20 | `07` plus eight digits is accepted as `+4` followed by it |
| `CourierRequestRoute.ReducesTo` | app/api/courier-request/route.ts:7-20 | any input whose digits reduce to a national mobile number normalises to its `+4…` form |
| `CourierRequestRoute.AllSpellings` | app/api/courier-request/route.ts:7-20 | a national number written with `4`, `004` or `+4` in front normalises as the national form does |
| `CourierRequestRoute.CountryCode` | app/api/courier-request/route.ts:13 | `40` followed by the national number's digits after `0` normalises to `+40…` |
| `CourierRequestRoute.InternationalPrefix` | app/api/courier-request/route.ts:10 | `0040` followed by the national number's digits after `0` normalises to `+40…` |
| `CourierRequestRoute.FourSpellings` | app/api/courier-request/route.ts:7-20 | `0740123456`, `+40740123456`, `0040740123456` and `40740123456` all give `+40740123456` |
| `CourierRequestRoute.Rejections` | app/api/courier-request/route.ts:16 | `123` and `0812345678` are refused with an empty result |
| `CourierRequestRoute.CheckApplicant` | app/api/courier-request/route.ts:29-55 | a blank trimmed name or phone is refused first, then an invalid phone; success exactly when both pass, with the trimmed name and area and the canonical phone |
| `CourierRequestRoute.EmailOutcome` | app/api/courier-request/route.ts:81-125 | `emailSent` iff no error: both settings present and the send did not throw; each missing setting gives its own message, and an error text is never empty |
| `CourierRequestRoute.Post` | app/api/courier-request/route.ts:23-135 | an unreadable body gives 500, a failed check 400, a store error 500, none of them storing anything; success iff the checks pass and the insert does, storing a `pending` row with the canonical phone and answering `ok` whatever the e-mail outcome |
| `BecomeCourierPage.SameAsRoute` | app/devino-livrator/page.tsx:12-21 | the page's `normalizeRoMobile` equals the route's on every input |
| `BecomeCourierPage.NormalizeRoMobile` | app/devino-livrator/page.tsx:12-22 | the page's copy of the strict validator; `SameAsRoute` proves it equal to the route's |
| `BecomeCourierPage.CheckForm` | app/devino-livrator/page.tsx:30-43 | a blank name or phone is refused first, then an invalid phone; otherwise the body carries the trimmed name, the trimmed raw phone (not the normalised one) and the trimmed area |
| `BecomeCourierPage.RouteAcceptsWhatFormAccepts` | app/devino-livrator/page.tsx:39-50 | whatever the form sends passes the route's checks and is stored with the canonical phone |
| `BecomeCourierPage.Form.constructor` | app/devino-livrator/page.tsx:24-27 | the form starts empty and not busy |
| `BecomeCourierPage.Form.Submit` | app/devino-livrator/page.tsx:29-69 | a failed check alerts its message and sends nothing; otherwise the body is sent, the fields are cleared only on an ok answer, each kind of failure alerts its message, and `busy` ends false |
| `BecomeCourierPage.Form.Settle` | app/devino-livrator/page.tsx:53-68 | the fields are cleared only on an ok answer and kept otherwise; network and error answers alert their message or the default; `busy` ends false |
| `OrderRequestPage.Rewrite` | app/cerere/page.tsx:13-15 | the sequential rewrites equal a choice of at most one: `07…` to `+407…`, `0040…` to `+40…`, `40…` to `+40…` |
| `OrderRequestPage.NormalizePhone` | app/cerere/page.tsx:9-20 | a non-null result has at least ten characters |
| `OrderRequestPage.NormalizedForm` | app/cerere/page.tsx:10-19 | a non-null result holds only digits and `+`, and at least ten digits |
| `OrderRequestPage.NullExactly` | app/cerere/page.tsx:17-18 | the result is `null` exactly when fewer than ten digits remain after the rewrites; the `07` prefix is not checked |
| `OrderRequestPage.RewriteKeepsClass` | app/cerere/page.tsx:13-15 | the rewrites keep a string made of digits and `+` so |
| `OrderRequestPage.DigitsOfRewrite` | app/cerere/page.tsx:13-17 | the rewrites add one digit to `07…` numbers, drop two from `0040…` and keep the count otherwise |
| `OrderRequestPage.RewriteFixed` | app/cerere/page.tsx:13-15 | rewriting a rewritten value changes nothing |
| `OrderRequestPage.Idempotent` | app/cerere/page.tsx:10-19 | every non-null result normalises to itself |
| `OrderRequestPage.Spelling` | app/cerere/page.tsx:10-19 | on digits and `+` without white space, the result is the rewrite when it has ten digits and `null` otherwise |
| `OrderRequestPage.NationalSpelling` | app/cerere/page.tsx:13 | `07` and at least seven more digits becomes `+407…` |
| `OrderRequestPage.ZeroZeroSpelling` | app/cerere/page.tsx:14 | `0040` and eight or more digits becomes `+40…` |
| `OrderRequestPage.FortySpelling` | app/cerere/page.tsx:15 | `40` and eight or more digits becomes `+40…` |
| `OrderRequestPage.PlusSpelling` | app/cerere/page.tsx:10-19 | `+40` and eight or more digits is kept as it is |
| `OrderRequestPage.OtherDigits` | app/cerere/page.tsx:17-19 | ten or more digits without a recognised prefix are accepted unchanged |
| `OrderRequestPage.Spellings` | app/cerere/page.tsx:10-19 | `0740123456`, `0040740123456`, `40740123456` and `+40740123456` all give `+40740123456` |
| `OrderRequestPage.NotMobileAccepted` | app/cerere/page.tsx:17-19 | `0812345678` is accepted unchanged |
| `OrderRequestPage.Effective` | app/cerere/page.tsx:81-82 | a non-blank profile value wins, trimmed; otherwise the trimmed typed value |
| `OrderRequestPage.ProfileName` | app/cerere/page.tsx:81 | `profile?.full_name`; `Prepare` states the name it yields |
| `OrderRequestPage.ProfilePhone` | app/cerere/page.tsx:82 | `profile?.phone`; `Prepare` states the phone it yields |
| `OrderRequestPage.Prepare` | app/cerere/page.tsx:75-93 | without a signed-in user the sign-in message; then a blank name or phone, then an invalid phone; success exactly when all pass, with the user's id, the effective name and the normalised effective phone |
| `OrderRequestPage.ProfileIncomplete` | app/cerere/page.tsx:53-60 | a profile lacking a non-blank name or phone; `OrderForm.Record` states the update it triggers |
| `OrderRequestPage.NewOrder` | app/cerere/page.tsx:108-119 | the inserted order is `active`, belongs to the signed-in client, carries the typed `what` and `urgent`, the normalised phone and `name • address` as `who_where` (none of them null), and has no courier, cancel or verification yet |
| `OrderRequestPage.OrderForm.constructor` | app/cerere/page.tsx:26-36 | the form starts empty, not loading, without error or confirmation |
| `OrderRequestPage.OrderForm.Submit` | app/cerere/page.tsx:62-135 | a blank trimmed `what` or address shows its error and writes nothing; otherwise the outcome of `Send` for the checks' result; name and phone are never reset |
| `OrderRequestPage.OrderForm.Send` | app/cerere/page.tsx:73-134 | a failed check shows its message and writes nothing; otherwise an incomplete profile of a signed-in session gets name and phone, the order is inserted, and only on success are `what`, address and `urgent` reset and the confirmation shown |
| `OrderRequestPage.OrderForm.Record` | app/cerere/page.tsx:95-121 | the profile update happens only for a signed-in session whose profile lacks name or phone; the insert's error is the message; the order table gains exactly the new order on success |
| `RegistrationPage.SameAsOrderForm` | app/inregistrare/InregistrareClient.tsx:10-19 | the page's `normalizePhone` equals the order form's on every input |
| `RegistrationPage.TrimBeforeIrrelevant` | app/inregistrare/InregistrareClient.tsx:63-64 | trimming the phone before normalising changes nothing |
| `RegistrationPage.FirstFailing` | app/inregistrare/InregistrareClient.tsx:70-80 | `None` iff every check passes; otherwise the message of a failing check with every earlier check passing |
| `RegistrationPage.Checks` | app/inregistrare/InregistrareClient.tsx:62-80 | the six checks with their messages, in the order of the chain; `FirstFailureDecides` proves the chain is their first failure |
| `RegistrationPage.NormalizePhone` | app/inregistrare/InregistrareClient.tsx:10-19 | the page's copy of the lenient normaliser; `SameAsOrderForm` proves it equal to the order form's |
| `RegistrationPage.Validate` | app/inregistrare/InregistrareClient.tsx:59-80 | on success the trimmed non-empty name and e-mail, the normalised phone, equal trimmed passwords of six or more UTF-16 code units, and a plate of three or more code units for a courier only |
| `RegistrationPage.FirstFailureDecides` | app/inregistrare/InregistrareClient.tsx:70-80 | the chain fails iff one of the six checks fails, with the message of the first one that does |
| `RegistrationPage.FirstOfSix` | app/inregistrare/InregistrareClient.tsx:70-80 | on six checks, the first failing one's message, spelled out in order |
| `RegistrationPage.PlateOnlyForCouriers` | app/inregistrare/InregistrareClient.tsx:73-76 | for a client the plate field has no effect at all |
| `RegistrationPage.PasswordsJudgedTrimmed` | app/inregistrare/InregistrareClient.tsx:67-68 | white space around the passwords never changes the outcome |
| `RegistrationPage.CourierNeedsPlate` | app/inregistrare/InregistrareClient.tsx:73-76 | a courier whose trimmed plate is under three UTF-16 code units is refused once name and phone pass |
| `RegistrationPage.AstralLengthsCount` | app/inregistrare/InregistrareClient.tsx:73-79 | a password of three emoji (six code units) and a plate of two emoji (four) pass the length checks, so such a courier is registered |
| `RegistrationPage.ProfileRow` | app/inregistrare/InregistrareClient.tsx:94-103 | the profile row carries the user's id, the role, the name, the normalised phone and the plate |
| `RegistrationPage.StoredProfile` | app/inregistrare/InregistrareClient.tsx:94-103 | the stored phone is the normalised one; a client stores no plate, a courier the trimmed plate |
| `RegistrationPage.RegistrationForm.constructor` | app/inregistrare/InregistrareClient.tsx:29-40 | the form starts as an empty client form |
| `RegistrationPage.RegistrationForm.Register` | app/inregistrare/InregistrareClient.tsx:59-112 | a failed check shows the first failing message and makes no sign-up call; otherwise the trimmed e-mail and password are signed up and the outcome is `Enrolled` |
| `RegistrationPage.RegistrationForm.Enroll` | app/inregistrare/InregistrareClient.tsx:82-111 | a sign-up error or a missing user shows its message and writes nothing; a created user gets the profile row, and the page moves on only when the upsert succeeds |
| `HomePage.LenientIsLinkNumberChecked` | app/page.tsx:39-45 | the link normaliser applies the order form's rewrites, and the order form's normaliser is it plus the ten-digit check |
| `HomePage.LinkNumberForm` | app/page.tsx:39-45 | the link number holds only digits and `+` |
| `HomePage.LinkNumberIdempotent` | app/page.tsx:39-45 | normalising a link number again changes nothing |
| `HomePage.RemoveOnlyPlus` | app/page.tsx:48 | removing the first `+` of digits with at most one `+` leaves the digits |
| `HomePage.WhatsAppCarriesDigits` | app/page.tsx:47-49 | with at most one `+`, the WhatsApp link is `https://wa.me/`, the digits, `?text=` and the encoded text |
| `HomePage.LinksForCanonical` | app/page.tsx:47-53 | for `+40…` the WhatsApp link carries `40…` and the SMS link `+40…` |
| `HomePage.CanonicalKept` | app/page.tsx:39-45 | a canonical `+40…` number is its own link number |
| `HomePage.LinkNumber` | app/page.tsx:39-45 | the never-failing normaliser; `LinkNumberForm`, `LinkNumberIdempotent` and `LenientIsLinkNumberChecked` state it |
| `HomePage.WhatsAppLink` | app/page.tsx:47-49 | `buildWhatsAppLink`; `WhatsAppCarriesDigits` and `LinksForCanonical` state what it carries |
| `HomePage.SmsLink` | app/page.tsx:51-53 | `buildSmsLink`; `LinksForCanonical` states it for a canonical number |
| `HomePage.StillOpen` | app/page.tsx:155 | the accept's status filter; `ActiveMeansAcceptable` and `SecondAcceptMatchesNothing` state it |
| `HomePage.AcceptPatch` | app/page.tsx:147-152 | the columns the accept writes; `Lifecycle.NoWriteAccepts` and `Lifecycle.AcceptedOnHome` state them |
| `HomePage.ErrorText` | app/page.tsx:171 | the accept's error text is never empty, and is the thrown message whenever that has one |
| `HomePage.SecondAcceptMatchesNothing` | app/page.tsx:146-165 | after an accept, a second accept of the same order matches nothing and changes nothing |
| `HomePage.ListsByStatus` | app/page.tsx:176-177 | a missing status is listed active, `completed` only completed, any other status in neither, and no order in both |
| `HomePage.ListedActive` | app/page.tsx:176 | the active list's filter; `ListsByStatus` and `ActiveMeansAcceptable` state it |
| `HomePage.ListedCompleted` | app/page.tsx:177 | the completed list's filter; `ListsByStatus` states it |
| `HomePage.ActiveList` | app/page.tsx:176 | the active list; `ListsByStatus` and `ListsNewestFirst` state its rows and order |
| `HomePage.CompletedList` | app/page.tsx:177 | the completed list; `ListsByStatus` and `ListsNewestFirst` state its rows and order |
| `HomePage.ActiveMeansAcceptable` | app/page.tsx:155-176 | the orders listed active are exactly those the guarded accept may write |
| `HomePage.ListsNewestFirst` | app/page.tsx:78-84 | both lists keep the store's newest-first order |
| `HomePage.AcceptModal.constructor` | app/page.tsx:72-76 | the modal starts closed and empty |
| `HomePage.AcceptModal.OpenAccept` | app/page.tsx:101-106 | opens the modal for that order with an empty PIN and no error |
| `HomePage.AcceptModal.CloseAccept` | app/page.tsx:108-114 | closes the modal and clears order, PIN, error and busy |
| `HomePage.AcceptModal.ConfirmAccept` | app/page.tsx:116-174 | without a selected order nothing happens; a blank PIN shows its error with no lookup and no write; otherwise the outcome of `Settle` for the active-courier lookup of the trimmed PIN |
| `HomePage.AcceptModal.Settle` | app/page.tsx:136-173 | a lookup error or no courier shows its message and writes nothing; with a courier the order is written only while its status is null or `active`, with `completed`, the time and the courier's name and phone; an order already taken shows "already accepted" |
| `OrdersBoard.SameAsHome` | app/comenzi/page.tsx:29-45 | the board's normaliser and link builders equal the home page's |
| `OrdersBoard.LinkNumber` | app/comenzi/page.tsx:29-35 | the board's copy of the link normaliser; `SameAsHome` proves it equal to the home page's |
| `OrdersBoard.WhatsAppLink` | app/comenzi/page.tsx:37-41 | the board's copy of `buildWhatsAppLink`; equal to the home page's by `SameAsHome` |
| `OrdersBoard.SmsLink` | app/comenzi/page.tsx:43-45 | the board's copy of `buildSmsLink`; equal to the home page's by `SameAsHome` |
| `OrdersBoard.TelLink` | app/comenzi/page.tsx:272 | `tel:` followed by digits and `+` only, namely the home page's link number of the phone |
| `OrdersBoard.Greeting` | app/comenzi/page.tsx:172-174 | the chat's opening text quoting the order; `Board.OpenChat` states where it goes |
| `OrdersBoard.GreetingInjective` | app/comenzi/page.tsx:172-174 | two greetings are equal exactly when the texts they quote are |
| `OrdersBoard.NullWhatGreeting` | app/comenzi/page.tsx:172-174 | a null `what` is written as the text `null`, so it greets exactly as an order whose `what` is `null` |
| `OrdersBoard.ListedActive` | app/comenzi/page.tsx:119 | the board's active filter; `SameListsAsHome` proves it the home page's |
| `OrdersBoard.ListedCompleted` | app/comenzi/page.tsx:120 | the board's completed filter; `SameListsAsHome` proves it the home page's |
| `OrdersBoard.AnyStatus` | app/comenzi/page.tsx:158-161 | the board's accept filters by id alone; `AcceptOverwrites` and `AcceptsDiverge` state what that lets it overwrite |
| `OrdersBoard.PinValid` | app/comenzi/page.tsx:88-100 | the answer of `validatePin`; `PinValidExactly` characterises it |
| `OrdersBoard.CompletePatch` | app/comenzi/page.tsx:160 | the columns the board's accept writes; `AcceptOverwrites` states what it keeps |
| `OrdersBoard.PinValidExactly` | app/comenzi/page.tsx:88-100 | a store error makes every PIN invalid; otherwise a PIN is valid iff it is not blank when trimmed and exactly one active courier has it |
| `OrdersBoard.ValidatePin` | app/comenzi/page.tsx:88-100 | answers `PinValid`; a valid PIN belongs to an active courier |
| `OrdersBoard.AcceptOverwrites` | app/comenzi/page.tsx:157-161 | the board's accept always matches an existing order, writing `completed` and the time and keeping the earlier courier columns |
| `OrdersBoard.AcceptsDiverge` | app/comenzi/page.tsx:157-161 | a cancelled order is left alone by the home page's accept and overwritten as `completed` by the board's |
| `OrdersBoard.SameListsAsHome` | app/comenzi/page.tsx:119-120 | the board's active and completed filters equal the home page's |
| `OrdersBoard.Board.constructor` | app/comenzi/page.tsx:60-75 | the board starts without a PIN and with every modal closed |
| `OrdersBoard.Board.OpenChat` | app/comenzi/page.tsx:168-176 | an order without a phone opens nothing; otherwise the chat opens with its phone, `who_where` as title (empty when null) and the greeting quoting `what` (the text `null` when null) |
| `OrdersBoard.Board.OpenAccept` | app/comenzi/page.tsx:144-155 | both branches select the order, clear the error and open the modal |
| `OrdersBoard.Board.ChatPressed` | app/comenzi/page.tsx:254-259 | with a valid PIN the accept modal is untouched and the chat opens as `openChat` does: with the order's phone, `who_where` as title (empty when null) and the greeting, or not at all for an order without a phone; without a valid PIN only the PIN modal opens, for that order |
| `OrdersBoard.Board.CallLink` | app/comenzi/page.tsx:270-284 | a link exactly when the PIN is valid, and then `tel:` followed by the link number of the order's phone (the empty string when it has none) |
| `OrdersBoard.Board.RequirePin` | app/comenzi/page.tsx:122-128 | with a valid PIN nothing changes; otherwise the PIN modal opens empty, for no order |
| `OrdersBoard.Board.Dismiss` | app/comenzi/page.tsx:343-347 | closes the modal and forgets the order |
| `OrdersBoard.Board.AcceptOrder` | app/comenzi/page.tsx:157-166 | writes `completed` and the time on the order whatever its status (a store error writes nothing and is not reported), and closes the modal |
| `OrdersBoard.Board.Confirm` | app/comenzi/page.tsx:353-371 | an invalid PIN shows its error and writes nothing; a valid one is kept, the error is left as it was, and then the selected order is accepted, or else the modal just closes |
| `MyOrdersPage.LabelByTable` | app/comenzile-mele/page.tsx:26-33 | a known status in any letter case gets its label, an empty or missing one `-`, any other is shown as written |
| `MyOrdersPage.LabelIgnoresCase` | app/comenzile-mele/page.tsx:27 | spellings of a known status that differ in letter case get the same label |
| `MyOrdersPage.LabelExamples` | app/comenzile-mele/page.tsx:26-33 | `ACTIVE` is labelled active, a missing status `-`, and `pending` stays `pending` |
| `MyOrdersPage.InSorted` | app/comenzile-mele/page.tsx:99 | sorting keeps exactly the rows it was given |
| `MyOrdersPage.Buckets` | app/comenzile-mele/page.tsx:97-113 | each list holds exactly the rows of its lowered status, each as often as it occurs, newest first; the lists are pairwise disjoint, and a row of any other status is in none |
| `MyOrdersPage.CanCancelExactly` | app/comenzile-mele/page.tsx:234-240 | the card offers cancelling exactly to the accepting courier of an order whose lowered status is `accepted`; that user then cancels as courier, whose write guard matches exactly when the status is `accepted` as written, so a status `Accepted` is offered and matched by nothing; a client who is not the courier never gets the offer |
| `MyOrdersPage.CancellerOf` | app/comenzile-mele/page.tsx:125-128 | the accepting courier cancels as courier, even when also the client; the client otherwise; anybody else is refused |
| `MyOrdersPage.CancelWrites` | app/comenzile-mele/page.tsx:143-157 | a cancel writes only a row passing its guard (courier: accepted by the user and `accepted`; client: the user's and `active`), with `cancelled`, the time, the reason and the courier's trimmed note or none; all other rows are unchanged |
| `MyOrdersPage.CourierBranchWins` | app/comenzile-mele/page.tsx:125-157 | a user who is both client and courier of an `active` order cancels as courier, and that write matches nothing |
| `MyOrdersPage.DeliverWrites` | app/comenzile-mele/page.tsx:194-199 | the delivered write matches iff the user accepted the order and it is `accepted`, and then changes only the status, to `completed` |
| `MyOrdersPage.DeliverCaseMismatch` | app/comenzile-mele/page.tsx:179-199 | an order whose status reads `Accepted` passes the page's check, but the write matches nothing |
| `MyOrdersPage.NoteLengthInCodeUnits` | app/comenzile-mele/page.tsx:134 | a note of two emoji (four code units) is long enough, while ` ok ` trims to two units and is not |
| `MyOrdersPage.StatusLabel` | app/comenzile-mele/page.tsx:26-33 | the card's status label; `LabelByTable` states it by the label table |
| `MyOrdersPage.CanCancel` | app/comenzile-mele/page.tsx:237-240 | the card's cancel offer; `CanCancelExactly` states who gets it |
| `MyOrdersPage.CancelGuard` | app/comenzile-mele/page.tsx:153-157 | the cancel's further filters by who cancels; `CancelWrites` states the rows they let through |
| `MyOrdersPage.CancelPatch` | app/comenzile-mele/page.tsx:145-151 | the columns the cancel writes; `CancelWrites` and `Lifecycle.NoWriteAccepts` state them |
| `MyOrdersPage.DeliverGuard` | app/comenzile-mele/page.tsx:197-199 | the delivered write's filters; `DeliverWrites` states when it matches |
| `MyOrdersPage.DeliverPatch` | app/comenzile-mele/page.tsx:196 | the delivered write's only column; `DeliverWrites` states that nothing else changes |
| `MyOrdersPage.AcceptedRows` | app/comenzile-mele/page.tsx:97-101 | the accepted list; `Buckets` states its contents and order |
| `MyOrdersPage.CompletedRows` | app/comenzile-mele/page.tsx:103-107 | the completed list; `Buckets` states its contents and order |
| `MyOrdersPage.CancelledRows` | app/comenzile-mele/page.tsx:109-113 | the cancelled list; `Buckets` states its contents and order |
| `MyOrdersPage.Lowered` | app/comenzile-mele/page.tsx:27 | `(status || "").toLowerCase()`; `LabelIgnoresCase` and `DeliverCaseMismatch` state what the lowering admits |
| `MyOrdersPage.IsAccepted` | app/comenzile-mele/page.tsx:98 | the accepted list's filter; `Buckets` states the rows it keeps |
| `MyOrdersPage.IsCompleted` | app/comenzile-mele/page.tsx:104 | the completed list's filter; `Buckets` states the rows it keeps |
| `MyOrdersPage.IsCancelled` | app/comenzile-mele/page.tsx:110 | the cancelled list's filter; `Buckets` states the rows it keeps |
| `MyOrdersPage.MyOrders.constructor` | app/comenzile-mele/page.tsx:41-55 | the page starts with no error, dialog or selection |
| `MyOrdersPage.MyOrders.StartCancel` | app/comenzile-mele/page.tsx:115-120 | selects the order, clears the note and the error, and opens the dialog |
| `MyOrdersPage.MyOrders.DoCancel` | app/comenzile-mele/page.tsx:122-174 | nothing without a user or a selection; a stranger is refused and the dialog closes; a courier whose trimmed note is under three UTF-16 code units is asked for one; otherwise the guarded write, as `Cancelled` states |
| `MyOrdersPage.MyOrders.Cancel` | app/comenzile-mele/page.tsx:139-173 | the guarded write; a store error keeps the dialog with its message, success closes it and unfolds the cancelled list |
| `MyOrdersPage.MyOrders.MarkDelivered` | app/comenzile-mele/page.tsx:176-211 | nothing without a user; a user who is not the accepting courier of an `accepted` order gets the error and no write; a declined confirmation does nothing; otherwise the guarded write, and on success the completed list unfolds |
| `AdminApproveRoute.MustAdminExactly` | app/api/admin/couriers/approve/route.ts:6-8 | the key passes iff it is non-empty and equal to a present `ADMIN_KEY`; an absent key, an unset or empty setting never passes |
| `AdminApproveRoute.MustAdmin` | app/api/admin/couriers/approve/route.ts:6-8 | `mustAdmin`; `MustAdminExactly` characterises it |
| `AdminApproveRoute.ErrorText` | app/api/admin/couriers/approve/route.ts:65 | the 500 answer's error is never empty, and is the store's message whenever that has one |
| `AdminApproveRoute.GenPin` | app/api/admin/couriers/approve/route.ts:10-13 | six decimal digits, no leading zero, of value `100000 + draw`, so between 100000 and 999999 |
| `AdminApproveRoute.CourierFor` | app/api/admin/couriers/approve/route.ts:49 | the courier row has the request's name and phone, the PIN and `active` |
| `AdminApproveRoute.Approve` | app/api/admin/couriers/approve/route.ts:15-67 | an unreadable body gives 500, a bad key 401 before a missing id 400, none of them writing; otherwise the store steps as `Granted` states |
| `AdminApproveRoute.Grant` | app/api/admin/couriers/approve/route.ts:33-63 | a missing request or a store error writes nothing; otherwise the courier is upserted by phone and then the request is marked `approved` whatever its status, and the answer is the PIN stored |
| `AdminApproveRoute.ApprovedCourier` | app/api/admin/couriers/approve/route.ts:43-51 | after an approval there is exactly one courier row for the phone, with the request's name, the PIN and `active`; an existing row is overwritten, not duplicated |
| `AdminRejectRoute.Reject` | app/api/admin/couriers/reject/route.ts:10-39 | the couriers are never touched; bad key 401 before missing id 400; otherwise only that request's status becomes `rejected`, and the answer is ok even when no row matched |
| `AdminRejectRoute.RejectOnlyThatRow` | app/api/admin/couriers/reject/route.ts:28-31 | only the status of that request changes; an unknown id changes nothing |
| `AdminRequestListRoute.ListRequests` | app/api/admin/couriers/route.ts:10-34 | a bad or absent key gives 401, a store error 500; otherwise every request of every status, newest first, each as often as keys hold it, and nothing else |
| `AdminRequestListRoute.EveryStatusListed` | app/api/admin/couriers/route.ts:13-26 | with a good key every request is listed; without a key the answer is 401 |
| `AdminRequestListRoute.RequestListedOnce` | app/api/admin/couriers/route.ts:23-26 | with the requests keyed by id and a good key, each request is listed exactly once |
| `AdminOrderListRoute.KeyChecksDiffer` | app/api/admin/orders/route.ts:6-9 | with `ADMIN_KEY` unset every key is refused; a non-empty key passes exactly as with `mustAdmin`; the empty key passes an empty setting, unlike `mustAdmin` |
| `AdminOrderListRoute.KeyMatches` | app/api/admin/orders/route.ts:6-7 | the plain key comparison; `KeyChecksDiffer` relates it to `mustAdmin` |
| `AdminOrderListRoute.Pending` | app/api/admin/orders/route.ts:19-20 | the list's filter; `ListPending` and `OnlyPendingListed` state it |
| `AdminOrderListRoute.ListPending` | app/api/admin/orders/route.ts:4-25 | a key unequal to `ADMIN_KEY` gives 401, a store error 500; otherwise exactly the `active` orders with an unverified phone, newest first, each as often as keys hold it |
| `AdminOrderListRoute.OnlyPendingListed` | app/api/admin/orders/route.ts:19-20 | a verified or non-active order is never listed |
| `AdminOrderListRoute.PendingListedOnce` | app/api/admin/orders/route.ts:16-21 | with the orders keyed by id and a matching key, each pending order is listed exactly once |
| `AdminOrderRejectRoute.RejectOrder` | app/api/admin/orders/reject/route.ts:4-26 | a key mismatch gives 401 before a missing id gives 400, neither deleting; otherwise that order is deleted whatever its status, a store error giving 500 |
| `AdminOrderRejectRoute.BodyKey` | app/api/admin/orders/reject/route.ts:5-6 | `String(body?.key || "")`; `UnreadableDeletesNothing` states it for an unreadable body |
| `AdminOrderRejectRoute.BodyId` | app/api/admin/orders/reject/route.ts:5-7 | `String(body?.id || "")`; `UnreadableDeletesNothing` and `DeleteOnlyThatRow` state the delete it drives |
| `AdminOrderRejectRoute.UnreadableDeletesNothing` | app/api/admin/orders/reject/route.ts:5-7 | an unreadable body counts as `{}`: empty key and id, so it passes the key check only for an empty setting and then lacks an id |
| `AdminOrderRejectRoute.DeleteOnlyThatRow` | app/api/admin/orders/reject/route.ts:22 | only the order with that id goes; an absent id changes nothing |
| `AdminOrderRejectLinkRoute.RejectLink` | app/api/admin/orders/reject-link/route.ts:4-28 | missing parameters count as empty; a key mismatch gives 401 before a missing id 400; otherwise that order is deleted and the answer redirects to `/`, a store error giving 500 and no redirect |
| `Tables.UpdateWhere` | app/comenzile-mele/page.tsx:143-159 | matched iff the row exists and passes the guard; then only that row is patched, and the table keeps its keys |
| `Tables.DeleteById` | app/api/admin/orders/reject/route.ts:22 | the row with that id is gone and every other stays as it was |
| `Tables.UpsertByPhone` | app/api/admin/couriers/approve/route.ts:46-51 | exactly one row for the phone, holding the new courier; other rows untouched; one more row only when the phone was new |
| `Tables.WithContact` | app/cerere/page.tsx:97-103 | only that profile's name and phone change; an unknown id changes nothing |
| `Tables.WithStatus` | app/api/admin/couriers/approve/route.ts:56-59 | only that request's status changes; an unknown id changes nothing |
| `Tables.ActiveWithPin` | app/page.tsx:129-134 | the phones of exactly the active couriers with that PIN |
| `Tables.PinLookup` | app/page.tsx:129-137 | a store error is an error; no courier is no row; several are an error; exactly one is that courier, active and with that PIN |
| `Tables.Database.InsertOrder` | app/cerere/page.tsx:110-121 | inserts the row, unless the store fails or the id exists |
| `Tables.Database.UpdateOrder` | app/comenzile-mele/page.tsx:143-159 | the guarded update, reporting whether it matched; a store error writes nothing |
| `Tables.Database.DeleteOrder` | app/api/admin/orders/reject-link/route.ts:21 | deletes by id; a store error deletes nothing |
| `Tables.Database.FindActiveByPin` | app/comenzi/page.tsx:92-97 | yields `PinLookup` |
| `Tables.Database.InsertRequest` | app/api/courier-request/route.ts:65-69 | inserts the request, unless the store fails or the id exists |
| `Tables.Database.SelectRequest` | app/api/admin/couriers/approve/route.ts:34-38 | the row by id; a missing row is an error |
| `Tables.Database.UpdateRequestStatus` | app/api/admin/couriers/reject/route.ts:28-31 | sets that request's status; a store error writes nothing |
| `Tables.Database.UpsertCourier` | app/api/admin/couriers/approve/route.ts:46-53 | upserts by phone; a store error writes nothing |
| `Tables.Database.UpdateProfile` | app/cerere/page.tsx:97-105 | sets name and phone of that profile; a store error writes nothing |
| `Tables.Database.UpsertProfile` | app/inregistrare/InregistrareClient.tsx:94-104 | writes the profile keyed by id; a store error writes nothing |
| `Listing.Filter` | app/page.tsx:176-177 | exactly the rows passing the predicate, each as often as before |
| `Listing.SortNewestFirst` | app/comenzile-mele/page.tsx:97-100 | newest first, and a permutation of its input; `SortIsStable` states that ties keep their order |
| `Listing.SelectNewestFirst` | app/api/admin/couriers/route.ts:23-26 | exactly the table's rows passing the filter, newest first, each once per key holding it |
| `Listing.RowsOf` | app/api/admin/couriers/route.ts:23-25 | every row of the table and only those, each once per key holding it |
| `Listing.HoldingSplit` | app/api/admin/couriers/route.ts:23-25 | taking one key out of a table takes it out of the keys holding its row, and of no others |
| `Listing.KeyedSelectOnce` | app/api/admin/couriers/route.ts:23-26 | in a table keyed by its rows' ids a select lists every row it lists exactly once |
| `Listing.FilterKeepsNewestFirst` | app/page.tsx:176-177 | filtering a newest-first list keeps it newest first |
| `Listing.FiltersDisjoint` | app/comenzile-mele/page.tsx:97-113 | exclusive filters give lists with no common row |
| `Listing.Ties` | app/comenzile-mele/page.tsx:99 | the rows of one creation time, in list order; `SortIsStable` is stated on it |
| `Listing.InsertKeepsTies` | app/comenzile-mele/page.tsx:99 | inserting a row keeps every time's rows in order, the new row ahead of those of its own time |
| `Listing.SortIsStable` | app/comenzile-mele/page.tsx:99 | the sort is stable: for every time, the rows of that time come out in the order they went in |
| `Text.Truthy` | app/comenzi/page.tsx:169 | a nullable string JavaScript treats as true: present and non-empty |
| `Text.Interpolated` | app/comenzi/page.tsx:172-174 | `${v}` in a template literal; `OrdersBoard.NullWhatGreeting` states its null case |
| `Text.IsSpace` | app/cerere/page.tsx:10 | the ECMAScript white space and line terminators that `.trim()` removes |
| `Text.TrimStart` | app/cerere/page.tsx:10 | the leading half of `.trim()`; `TrimStartDrops` states what it drops |
| `Text.TrimEnd` | app/cerere/page.tsx:10 | the trailing half of `.trim()`; `TrimEndDrops` states what it drops |
| `Text.Trim` | app/cerere/page.tsx:10 | `.trim()`; `TrimDrops`, `TrimTrim` and `TrimNoSpace` state it |
| `Text.TrimStartDrops` | app/cerere/page.tsx:10 | the result is a suffix, everything dropped is white space, and it does not start with white space |
| `Text.TrimEndDrops` | app/cerere/page.tsx:10 | the result is a prefix, everything dropped is white space, and it does not end with white space |
| `Text.TrimDrops` | app/cerere/page.tsx:10 | `.trim()` returns the middle of its input with only white space dropped on either side, and neither end of the result is white space |
| `Text.TrimTrim` | app/cerere/page.tsx:10 | trimming twice is trimming once |
| `Text.TrimNoSpace` | app/cerere/page.tsx:10 | a string without white space is its own trim |
| `Text.Keep` | app/cerere/page.tsx:10 | `replace(/[^…]/g, "")`; `KeepPasses`, `KeepMembers` and `KeepConcat` state it |
| `Text.Digits` | app/api/courier-request/route.ts:7 | `replace(/[^\d]/g, "")`; the `Keep` lemmas state it |
| `Text.DigitsAndPlus` | app/cerere/page.tsx:10 | `replace(/[^\d+]/g, "")`; the `Keep` lemmas state it |
| `Text.KeepPasses` | app/cerere/page.tsx:10 | every character kept belongs to the class |
| `Text.KeepMembers` | app/cerere/page.tsx:10 | a character is in the result exactly when it is in the input and in the class |
| `Text.KeepConcat` | app/cerere/page.tsx:10 | the strip of a concatenation is the concatenation of the strips |
| `Text.KeepSkips` | app/api/courier-request/route.ts:7 | a character outside the class, wherever it stands, does not change the result |
| `Text.KeepAll` | app/cerere/page.tsx:10 | a string wholly of the class is kept as it is |
| `Text.KeepIgnoresTrim` | app/api/courier-request/route.ts:7 | trimming first does not change the strip, the class holding no white space |
| `Text.DigitsIgnoresTrim` | app/api/courier-request/route.ts:7 | `trim()` before the digit strip makes no difference |
| `Text.DigitsAfterPlus` | app/page.tsx:48 | the digits of `+` followed by digits are those digits |
| `Text.ToLower` | app/comenzile-mele/page.tsx:27 | `.toLowerCase()`, keeping the length, on ASCII letters |
| `Text.RemoveFirstPlus` | app/page.tsx:48 | `replace("+", "")`: only the first plus goes, every other character stays |
| `Text.Decimal` | app/api/admin/couriers/approve/route.ts:12 | `String(n)`: decimal digits with no leading zero; `DecimalRoundTrip` and `DecimalLength` state it |
| `Text.DecimalRoundTrip` | app/api/admin/couriers/approve/route.ts:12 | reading the written number back gives the number |
| `Text.DecimalLength` | app/api/admin/couriers/approve/route.ts:12 | a number of `k` digits is written with `k` characters |
| `Text.Utf16Length` | app/inregistrare/InregistrareClient.tsx:75-79 | `.length` in UTF-16 code units: at least the number of characters and at most twice it |
| `Text.Utf16LengthBmp` | app/comenzile-mele/page.tsx:134 | without characters outside the Basic Multilingual Plane, `.length` is the number of characters |
| `Text.Utf16LengthAppend` | app/comenzile-mele/page.tsx:134 | `.length` of a concatenation is the sum of the lengths |
| `Text.Utf16Examples` | app/comenzile-mele/page.tsx:134 | two emoji have length four, `abc` length three |
| `Lifecycle.NoWriteAccepts` | app/comenzile-mele/page.tsx:143-199 | the order insert, both accepts, the cancel and the delivered write never produce the status `accepted` nor change `accepted_by_id` |
| `Lifecycle.FreshOrder` | app/cerere/page.tsx:110-119 | a new order is listed active and can be accepted; only its client may cancel it, and the client's cancel matches |
| `Lifecycle.AcceptedOnHome` | app/page.tsx:146-157 | an order accepted on the home page is listed completed, offers no cancel, and no cancel or delivered write matches it any more |
| `Lifecycle.BoardRevivesCancelled` | app/comenzi/page.tsx:157-161 | the board's accept turns a cancelled order into a completed one, keeping its cancel columns |

## Left out

- Session handling (`AuthProvider`, the redirects of pages without a session, `refreshProfile`) is asynchronous glue. The signed-in user, the auth user and the loaded profile are parameters.
- The order form's effect that pre-fills name and phone from the profile is left out. The submit's own precedence of the profile's values is modelled.
- Loading and polling of the order lists (`load`, `loadOrders` and the `.or(client_id…, accepted_by_id…)` row fetch of "my orders") are left out. The lists take the rows as a parameter.
- The board's `localStorage` PIN cache, and the check of a saved PIN when the page starts, are browser storage.
- `confirmPinOnly` on the board is never called by the page, so it is not modelled.
- `window.confirm` is a parameter. Each `alert` is a field holding the last text shown.
- `encodeURIComponent` is a function parameter. The random number of `genPin` is a whole-number parameter below 900000. Timestamps, and the ids and `created_at` the store assigns, are parameters.
- `CourierRequestRoute.EmailOutcome`: the e-mail is reduced to its outcome (settings present, send error). The admin link and the HTML body are left out.
- The approval route's `if (!reqRow)` branch cannot be reached after `.single()`, and neither can the courier request route's `"Eroare necunoscută."` fallback. Neither is modelled.
- Request bodies whose `key`, `id`, `name`, `phone` or `area` are JSON values other than strings or null are left out. `String(x ?? "")` and `String(x || "")` agree on strings only.
- `.in("status", [null, "active"])` is read as "status is null or `active`". The SQL treatment of NULL inside `IN` is not modelled.
- The store has no concurrency. The error texts for a duplicate key, several rows or no row are placeholders for the store's messages.
- A null `data` from a list query (`data || []`) cannot occur in the model, whose store always yields a list.
- `created_at` is a number, so the page's `new Date(…).getTime()` parse is left out. The column `verify_code` is not modelled. `phone_verified` of a new order is taken to default to false.
- `Text.ToLower` lowers ASCII letters only. This makes no difference for the four known statuses.
- Strings are sequences of Unicode scalar values. `.length` is counted in UTF-16 code units by `Text.Utf16Length`, but a JavaScript string holding an unpaired surrogate cannot be represented.
- The home page's `openChat`, the accordion toggling of "my orders" (`toggle`, `goActive`), date formatting and all rendering are presentation.
- The `console.log` and `console.error` calls of the courier request route (app/api/courier-request/route.ts:24-129) only write to the server log, so they are not modelled.
- The e-mail routes, the admin pages and the shared UI components are not part of this model.
