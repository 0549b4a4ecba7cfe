# Healthcare web assistant — a Dafny model of its core

The healthcare web assistant is a small web site with an Express and MongoDB
back end. Its browser script offers a rule-based chatbot, a consultation
form and an appointment form, and a medicine store with a cart and checkout.
The server stores consultations, appointments, medicines and payments, and
keeps an administrator account store. Administrators sign in with JSON Web
Tokens. Every form in the browser falls back to local storage when the API
cannot be reached.

This project models that core as pure functions over immutable data:

- **Common**: JavaScript truthiness of body fields, the `Result` of a
  handler, and the HTTP statuses the handlers answer with.
- **Text**: ASCII lower-casing, substring search, and decimal rendering of
  a number.
- **Seqs**: `Array.prototype.find` and `Array.prototype.filter`.
- **Store**: the entities and the database: users, consultations,
  appointments, medicines and payments.
- **Cart**: "Add to Cart", the "+"/"−" buttons, removal, the badge count,
  the total, and the checkout lines.
- **Catalog**: the twelve default medicines (seeded by the server, and the
  page's fallback), the page's load rule, and the search box.
- **Chatbot**: the keyword rules of the local chatbot.
- **ApiBase**: how the page finds the API. It uses the cached base, or else
  probes ports 3000, 3001 and 3002 in order.
- **Offline**: the local-storage appends made when a post fails.
- **Auth**: the bearer-token middleware and the administrator check.
- **Accounts**: administrator signup, login (including the built-in demo
  administrator), `/api/auth/me`, and the administrator list.
- **Records**: creating and listing consultations and appointments.
- **Inventory**: the administrator's create, update and delete of medicines.
- **Payments**: payment creation and the payments list. Creation covers
  card masking, CVV redaction, the status rule and the stock decrement.
- **Startup**: the server's port retry.

The following are parameters of the model rather than computed by it:

- **Clock and identifiers**: the clock, generated identifiers and
  transaction ids.
- **Chatbot reply choice**: the `Math.random` choice of reply, a natural
  number taken modulo the number of replies.
- **Password hashing**: the bcrypt hash produced at signup, and a
  `matches` relation for the comparison at login.
- **Token verification**: the JWT verification, a function from token to
  principal.
- **API health check**: the health probe of each port.
- **Listen outcome**: the outcome of each listen attempt at start-up.

Prices and amounts are integer cents. Text constants are kept character
for character as the program's files hold them. This includes the medicine
pictures and the degree signs in the fever reply, which are UTF-8 bytes
read back as Windows-1252 (four characters per emoji, "Â°" per degree sign).

## Model

| member | source | states |
|---|---|---|
| Seqs.FirstWhere | js/script.js:461 | `find` as an index: none exactly when no element passes; otherwise the element passes and no earlier one does |
| Seqs.Filter | js/script.js:569 | `filter`: keeps order (a subsequence), keeps exactly the elements that pass, and keeps everything when all pass |
| Seqs.FilterMultiplicity | js/script.js:569 | a kept value keeps all of its occurrences, a dropped value keeps none |
| Seqs.FilterDropsOne | backend/server.js:350-355 | when only the element at k fails, filtering is the same as cutting out index k |
| Store.StatusFor | backend/server.js:371-384 | a payment is pending exactly when the method is cash on delivery, and is never failed |
| Store.IndexOfMedicine | backend/server.js:390 | `findOne({ id })` over the catalogue: the first entry with that id, none exactly when there is no such entry |
| Store.MedicineById | js/script.js:461 | the page's lookup returns an entry with that id that belongs to the catalogue, none exactly when none exists |
| Cart.IndexOfItem | js/script.js:472 | the cart line with the medicine's id, the first one, none exactly when the cart has no such line |
| Cart.AddToCart | js/script.js:460-481 | unknown id, stock exactly 0, or a line already at stock each leave the cart unchanged with their own notice; otherwise the existing line gains one unit or a one-unit line goes at the end; one line per id is kept |
| Cart.AddCountsOne | js/script.js:495-501 | a successful add raises the badge count by exactly one |
| Cart.TotalQuantity | js/script.js:498 | the badge count of an empty cart is 0, and is at least the number of lines when every line holds a unit |
| Cart.TotalQuantityReplace | js/script.js:498 | changing one line's quantity moves the badge count by the difference |
| Cart.TotalPrice | js/script.js:503-505 | the total of an empty cart is 0; its other properties are the two lemmas below |
| Cart.TotalPriceNonNegative | js/script.js:503-505 | the total is never negative when no price or quantity is (and is 0 for an empty cart) |
| Cart.TotalPriceReplace | js/script.js:503-505 | changing one line's quantity moves the total by that line's price times the difference |
| Cart.AddChargesOneUnit | js/script.js:503-505 | a successful add raises the total by one unit at the line's copied price, or at the catalogue price for a new line |
| Cart.AddKeepsWithinStock | js/script.js:467-480 | with no negative stock, adding never takes a line above its medicine's stock |
| Cart.RemoveFromCart | js/script.js:568-569 | no line with the id remains; every other line remains, in order, and nothing is added |
| Cart.RemoveKeepsMultiplicity | js/script.js:569 | every copy of a line with another id is kept, and no copy of a line with this id |
| Cart.RemoveKeepsUnique | js/script.js:569 | removal keeps one line per id |
| Cart.RemoveDropsOneLine | js/script.js:569 | with one line per id, removal shortens the cart by one exactly when the id was in it |
| Cart.UpdateCartQuantity | js/script.js:546-566 | no line or no catalogue entry: nothing changes; a new quantity ≤ 0 removes the line; above stock it is clamped to stock; otherwise the quantity moves by `change` and only that line changes |
| Cart.UpdateKeepsUnique | js/script.js:546-566 | the buttons keep one line per id |
| Cart.UpdateKeepsWithinStock | js/script.js:553-560 | when every entry has stock ≥ 1, the buttons keep each line between 1 and its stock |
| Cart.ClampCanLeaveZero | js/script.js:557-560 | a line whose medicine's stock fell to 0 is clamped to quantity 0, not removed |
| Cart.CheckoutLines | js/script.js:591-596 | one checkout line per cart line, in order, with the same id, name, price and quantity |
| Cart.CheckoutTotalMatches | js/script.js:591-597 | the payload's `totalAmount` (the cart total) is what its `items` add up to |
| Catalog.DefaultsWellFormed | backend/server.js:44-57 | the seed list has twelve entries with ids 1 to 12 and stock at least 1 |
| Catalog.InitializeMedicines | backend/server.js:40-62 | an empty collection is seeded (then unique ids, all in stock); a non-empty one is left alone; the result is never empty |
| Catalog.LoadMedicines | js/script.js:279-316 | the server's list when it is fetched and non-empty, the page's own fallback list otherwise; never empty |
| Catalog.PageMatchesServer | js/script.js:279-316 | the page shows what a freshly started server lists: the served list as it is, and otherwise a fallback equal to the server's seed list |
| Catalog.Search | js/script.js:352-359 | the shown entries are, in catalogue order, exactly those whose lower-cased name or category contains the lower-cased query, each as often as in the catalogue |
| Catalog.SearchEmptyShowsAll | js/script.js:354-358 | an empty query shows the whole catalogue |
| Catalog.SearchIgnoresCase | js/script.js:354 | the query's letter case does not change the result |
| Catalog.SearchFindsByName | js/script.js:355-357 | searching for an entry's own name finds it |
| Chatbot.Replies | js/script.js:26-34 | every topic has at least one reply, and more than one exactly for greeting, help and unknown messages |
| Chatbot.Classify | js/script.js:48-66 | the topic is the one of the first keyword rule that fires on the lower-cased message; unknown exactly when none fires |
| Chatbot.GetBotResponse | js/script.js:48-66 | the reply is one of the topic's replies, and the first one for the four single-reply topics |
| Chatbot.EveryReplyReachable | js/script.js:51-65 | for greeting, help and unknown messages, every reply can be chosen |
| Chatbot.ChillsIsGreeting | js/script.js:51-52 | "hi" matches inside "chills", so a symptom message gets a greeting |
| Chatbot.HighFeverIsGreeting | js/script.js:51-56 | the greeting rule wins over the fever rule when both fire |
| Chatbot.FeverAlone | js/script.js:55-56 | "Fever" gets the fixed fever reply |
| Text.NatToString | js/script.js:138 | the rendering is decimal digits only, with a leading '0' exactly for the number 0 |
| Text.DecimalRoundTrip | js/script.js:138 | the rendered digits read back as the number itself |
| ApiBase.BaseUrl | js/script.js:138 | the base is "http://localhost:" followed by digits only, which read back as the port and carry no leading zero |
| ApiBase.ResolveApiBase | js/script.js:127-145 | a cached base is used unprobed; otherwise the first healthy port wins, after the unhealthy ones before it, and is cached; with no healthy port all three are probed, nothing is cached and no base is found |
| Offline.Load | js/script.js:167-169 | the stored list when it is present and readable, the empty list otherwise |
| Offline.Enqueue | js/script.js:167-170 | the stored list (empty when absent or unreadable) with the record appended at the end |
| Offline.SaveConsult | js/script.js:188-191 | the offline consultation is appended with its timestamp and earlier entries are kept |
| Offline.SaveAppointment | js/script.js:224-227 | the offline appointment is appended with its timestamp and earlier entries are kept |
| Offline.SavePayment | js/script.js:640-650 | the offline payment is appended; it is pending exactly for cash on delivery, never failed, and its id starts with "TXN" |
| Offline.UnreadableListIsReplaced | js/script.js:167-168 | an unreadable stored list is replaced by the single new record |
| Offline.OfflinePaymentKeepsCardData | js/script.js:640-650 | the offline payment keeps the CVV and card number as typed, where the server would store "***" and a masked number |
| Auth.BearerToken | backend/server.js:78-79 | a token is read exactly when the header starts with "Bearer " and has more after it, and the header is the prefix plus the token |
| Auth.BearerRoundTrip | backend/server.js:78-79 | "Bearer " plus a non-empty token reads back that token |
| Auth.PrefixIsCaseSensitive | backend/server.js:79 | a lower-case "bearer " prefix yields no token |
| Auth.Authenticate | backend/server.js:77-88 | success exactly when a token is present and verifies, with the verified principal; every failure is 401 |
| Auth.EffectiveRole | backend/server.js:92 | a present role is kept; a missing role reads as a non-empty default that is not "admin" |
| Auth.RequireAdmin | backend/server.js:91-95 | passes exactly the principals whose role is "admin"; others get 403 |
| Auth.AdminGate | backend/server.js:77-95 | 401 exactly when authentication fails, 403 exactly when an authenticated principal is not admin, otherwise the admin principal |
| Auth.Guarded | backend/server.js:257-260 | a protected list answers the collection exactly when the gate passes, the gate's status otherwise |
| Auth.NoHeaderNoAccess | backend/server.js:78-80 | without an Authorization header the gate answers 401 |
| Accounts.IndexOfClash | backend/server.js:137-142 | none exactly when no stored user has that username or that e-mail, ignoring case |
| Accounts.IndexOfUsername | backend/server.js:171 | the first user whose username equals the given one ignoring case; none exactly when there is none |
| Accounts.Signup | backend/server.js:122-153 | 400, 503, 401, 409 each exactly under its condition, checked in that order; on 201 exactly one admin user, with the e-mail lower-cased, is appended; nothing is written otherwise |
| Accounts.SignupKeepsAccountsUnique | backend/server.js:137-143 | signup keeps usernames and e-mails unique ignoring case |
| Accounts.SignedRole | backend/server.js:177 | a stored role is kept; a user without a role signs in as an admin |
| Accounts.Login | backend/server.js:160-188 | 400 exactly when a credential is missing; the demo pair always succeeds; otherwise 401 exactly when no user matches the name or the password does not match |
| Accounts.DemoLoginIndependentOfStore | backend/server.js:165-169 | the demo administrator signs in the same way whatever is stored, as an admin |
| Accounts.LoginSuccessIsStoredUser | backend/server.js:171-179 | a non-demo login succeeds only for a stored user whose password matches, as that user |
| Accounts.SignupThenLogin | backend/server.js:144-153 | after a successful signup the same credentials sign in as the new admin |
| Accounts.Me | backend/server.js:195-212 | 401 without a valid token; the demo principal gets the fixed demo profile; 500 exactly when another principal's id is not 24 hexadecimal digits (the failed cast reaches the `catch`); 404 exactly when no stored id names the same ObjectId (hexadecimal digits compare without case); otherwise 200 with the profile of a stored user whose id matches |
| Accounts.LoginThenMe | backend/server.js:171-208 | with well-formed, distinct stored ids, the token a non-demo login issues brings back the profile of the user who signed in |
| Accounts.UpperCaseIdFindsUser | backend/server.js:200-208 | an ObjectId typed in capitals finds the user stored in lower case |
| Accounts.NumericIdIsServerError | backend/server.js:200-211 | a verified token carrying the id "42" is answered 500, whatever the store holds |
| Accounts.AdminRows | backend/server.js:218-225 | one row per stored user whose role is "admin", in store order, and no other row |
| Accounts.ListAdmins | backend/server.js:216-234 | behind the gate: the demo row first, then one row per stored admin user, in store order, and nothing else |
| Records.CreateConsult | backend/server.js:242-250 | 201 exactly when all five fields are non-empty; the consultation is appended with those fields; 400 with nothing written otherwise |
| Records.EmptySymptomsRefused | backend/server.js:245-247 | an empty symptoms field alone is refused |
| Records.CreateAppointment | backend/server.js:268-276 | 201 exactly when all six fields are non-empty; the appointment is appended with those fields; 400 with nothing written otherwise |
| Records.ListConsults | backend/server.js:257-260 | behind the gate, every stored consultation and nothing else; the gate's own status when it refuses |
| Records.ListAppointments | backend/server.js:283-286 | behind the gate, every stored appointment and nothing else; the gate's own status when it refuses |
| Records.CreatedConsultIsListed | backend/server.js:242-260 | behind a passing gate, an accepted consultation appears in the next listing, which grows by exactly that record; a refused one leaves the listing as it was |
| Records.CreatedAppointmentIsListed | backend/server.js:268-286 | the same for appointments |
| Inventory.MaxId | backend/server.js:311-312 | at least every id present, taken from an entry when there is one, 0 for an empty catalogue |
| Inventory.CreateMedicine | backend/server.js:305-322 | gate first; 400 exactly when name, price, category or stock is missing, 201 otherwise; the new entry's id is the largest stored id plus one, so above every existing id (1 when empty); the default picture when none is given; ids stay unique |
| Inventory.Merge | backend/server.js:335-339 | each field is replaced exactly when the body supplies it (non-empty text, or a present number); the id never changes |
| Inventory.MergeNothing | backend/server.js:335-339 | an empty body changes nothing |
| Inventory.MergeIdempotent | backend/server.js:335-339 | applying the same update twice is the same as once |
| Inventory.UpdateMedicine | backend/server.js:329-347 | gate first; an id that does not parse answers 500 (the failed cast reaches the `catch`); 404 exactly when no entry carries the parsed id; otherwise 200, only the first entry with that id changes, to the merge, and it is returned |
| Inventory.DeleteMedicine | backend/server.js:350-360 | gate first; an id that does not parse answers 500 (the failed cast reaches the `catch`); 404 exactly when no entry carries the parsed id; otherwise 200 and exactly the first entry with that id is removed |
| Inventory.DeleteRemovesExactlyThatId | backend/server.js:350-355 | with unique ids, a delete equals filtering out that id, and the id is gone |
| Inventory.FilterSplit | backend/server.js:350-355 | with unique ids, filtering out an id cuts out the one entry carrying it |
| Payments.MaskCard | backend/server.js:381 | length is kept; a character becomes '*' exactly when it is a digit followed by four digits (or was '*'); all else, and the last four characters, are kept |
| Payments.MaskIdempotent | backend/server.js:381 | masking a masked number changes nothing |
| Payments.DigitsMaskedButLastFour | backend/server.js:381 | an all-digit number shows only its last four digits |
| Payments.TestCardMasked | backend/server.js:381 | "4111111111111111" is stored as twelve stars and "1111" |
| Payments.GroupedCardNotMasked | backend/server.js:381 | a number typed in groups of four with spaces is stored unmasked |
| Payments.RedactCvv | backend/server.js:383 | a CVV is stored as "***" exactly when one was given, as null otherwise |
| Payments.OrNull | backend/server.js:382 | the expiry date is kept when non-empty and is null otherwise |
| Payments.ApplyLine | backend/server.js:390-394 | an order line lowers the first matching entry's stock by its quantity when that stock suffices, and otherwise changes nothing; no other entry changes |
| Payments.DecrementStock | backend/server.js:389-395 | the loop changes only stock, and never touches an entry that no line names |
| Payments.DecrementKeepsStockNonNegative | backend/server.js:391 | no stock that was non-negative becomes negative |
| Payments.DecrementNeverRaises | backend/server.js:389-395 | with non-negative quantities, no stock goes up |
| Payments.DecrementKeepsIds | backend/server.js:389-395 | ids, and so their uniqueness, survive the loop |
| Payments.SingleLineOrder | backend/server.js:391-392 | for a single line, the stock drops by exactly the quantity when it suffices and is untouched otherwise |
| Payments.NegativeQuantityRaisesStock | backend/server.js:391-392 | a negative quantity passes the stock test and raises the stock |
| Payments.CreatePayment | backend/server.js:363-397 | 201 exactly when the customer fields and method are non-empty and items and total are present; the stored payment carries the given customer fields, method, items and total, the masked card, the CVV as "***" or null, the expiry or null, and the status from the method, and the stock loop runs; 400 with nothing written otherwise |
| Payments.StoredCardDataRedacted | backend/server.js:381-383 | a stored CVV never equals the typed one (unless that was "***"), and a stored card number keeps its last four characters |
| Payments.ListPayments | backend/server.js:404-407 | behind the gate, every stored payment and nothing else; the gate's own status when it refuses |
| Startup.BasePort | backend/server.js:454 | an unset, non-numeric or zero port falls back to 3000; any other number is used |
| Startup.CandidatePorts | backend/server.js:455 | three consecutive ports starting at the base |
| Startup.StartOnIndex | backend/server.js:457-475 | the attempts cover consecutive ports from idx; every attempt but the last met "address in use"; listening means the last port bound; exit means every port was in use or the last error was another one |
| Startup.Start | backend/server.js:454-477 | at most three attempts, and the server listens only on one of the three candidate ports |
| Startup.FirstFreePortWins | backend/server.js:463-470 | the first free port after ports in use is where the server listens |
| Startup.AllInUseExits | backend/server.js:458-460 | with all three ports in use the process exits after three attempts |
| Startup.OtherErrorStopsAtOnce | backend/server.js:471-473 | any error other than "address in use" ends start-up at the first port |

## Left out

- MongoDB I/O, connection handling, the `mongoose` schemas' defaults and
  the seeding race are not modelled. Of the `try/catch` 500 answers, the
  ones for a medicine route id that does not parse and for a `/api/auth/me`
  token id that is not an ObjectId are modelled. The others come from
  database failures, and from numeric body fields that do not parse, which
  are not modelled (see below). The database is a value, and each handler
  returns the new value.
- bcrypt and JSON Web Tokens are abstracted. Signup receives the produced
  hash, login receives a `matches` relation, and the token check is a
  function from token to principal. Token signing, expiry and the secret are
  not modelled.
- `fetch`, timeouts, `AbortController` and the promise chains are left
  out. The health check and listen outcomes are parameters. A failed post is
  modelled by calling the offline append directly.
- The `/api/ai/chat` proxy to OpenAI, and the page's use of an AI reply
  before the local rules, are foreign calls and are left out. Only the local
  rules are modelled.
- Static file serving, `/api`, `/api/health`, `/favicon.ico`, the DOM,
  rendering, alerts, animations and the date input's minimum are
  presentation and are not modelled.
- `Math.random` and `Date.now` are parameters. This includes the random
  suffix of the server's transaction id.
- Prices and amounts are integer cents. Floating-point arithmetic,
  `toFixed`, and `parseFloat`/`parseInt` with their NaN results are not
  modelled. A numeric field is present or absent. A route id is a parsed
  number, or absent when `parseInt` gives NaN.
- The sort orders of `GET /api/medicines` (by id) and of the consultation,
  appointment and payment lists (newest first) are not modelled.
- Records.ListConsults states only that the same multiset of consultations
  is returned, not the newest-first order.
- Records.ListAppointments states only that the same multiset of
  appointments is returned, not the newest-first order.
- Payments.ListPayments states only that the same multiset of payments is
  returned, not the newest-first order.
- Accounts.Me treats exactly the 24-hexadecimal-digit ids as castable to an
  ObjectId. Some MongoDB driver versions also accept any 12-character string
  as raw bytes; the model answers 500 for those.
- Mongoose `RegExp` lookups are modelled as ASCII case-insensitive
  equality. Usernames or e-mails containing regular-expression
  metacharacters are out of scope. Unicode case folding is out of scope
  too: lower-casing maps only A–Z.
- The cart's persistence in local storage (`medicine_cart`), and clearing
  the cart after checkout, are not modelled. The cart is a value passed in
  and returned.
- The page's `trim` of form values is not modelled. Drafts carry the values
  as submitted.
- Accounts.Login returns the signed-in principal, not the token and the
  profile object sent with it.
- Payments.MaskCard models the JavaScript regular expression `\d(?=\d{4})`
  with ASCII digits only.
- Startup.StartOnIndex models each listen attempt's outcome as given. The
  asynchronous `error` event and logging are left out.
