# ADS-ABN Digital Store: account, session and order-history model

The storefront keeps everything in the browser's local storage. It uses three keys:

- the account directory, which maps an e-mail to `{name, email, password, history}`;
- the logged-in e-mail;
- the last selected service.

Its event handlers do the following:

- register an account under the trimmed, lower-cased e-mail, never overwriting an existing one;
- log a user in by exact comparison of the trimmed password;
- log out;
- remember a chosen service;
- accept a checkout only from a live session, and only when the form's e-mail is the session's. The order is appended to that account's history and an order bill is produced;
- show the history newest first.

This project models that state machine in Dafny.

- `text.dfy` (module `Text`): `trim` over the ECMAScript whitespace and line-terminator set, `toLowerCase`, e-mail normalisation, and splitting/joining text at line feeds.
- `ledger.dfy` (module `Ledger`): `Order`, `Account` and the `Directory` map. It also holds the history append, the reversal used by the history page, and the append-only relation `Extends`.
- `receipt.dfy` (module `Receipt`): the bill template, as its eleven lines joined by line feeds.
- `accounts.dfy` (module `Accounts`): each handler as a pure function of the stored state, returning the new directory and the outcome. The outcomes are the source's branches: `AlreadyRegistered`, `EmailNotFound`, `WrongPassword`, `NotLoggedIn`, `EmailMismatch`. This module also holds the lemmas relating the handlers to each other.
- `store.dfy` (module `Storefront`): class `Store`. Its fields are `users`, `logged` and `selectedService`, and it has one method per handler. The methods that write update the fields in place. `Register` and `Checkout` equate the new directory and the outcome with the `Accounts` function of the old state. `Login` equates the outcome with `Accounts.Login` and sets the session from it. `Logout` and `SelectService` give the new field directly. `GuardRedirects`, `OrderNamePrefill` and `History` only read. Each method that writes keeps the invariant `Valid()`: keys are normalised e-mails, names and passwords are trimmed, and every account holds only its own orders.

Inputs the model takes as parameters:

- the checkout timestamp (`new Date().toLocaleString()`) is the string `now`;
- the amount formatter (`formatLKR`) is the function parameter `formatAmount: string -> string`;
- the stored state the page starts from is the constructor's arguments. A fresh profile is `map[]`, `None`, `None`: an absent directory key reads as `{}`.

Behaviour of the code worth noting:

- A session e-mail that is the empty string counts as no session, since JavaScript treats `""` as false (`!loggedEmail`, script.js:127). Checkout then stops at its first check and reports "not logged in"; the e-mail comparison is never reached.
- The login password is trimmed before the exact, case-sensitive comparison.
- The guard on protected pages checks only that a session e-mail is present. Checkout and the history page also require the account to exist. `StaleSessionPassesGuard` shows a session that passes the guard but cannot check out.
- The confirmation password typed at checkout is stored in the order, but it is never compared with the account's password. It never appears in the bill either.
- A stored account may lack `history`; it then reads as empty (`|| []`). Checkout writes the history back explicitly.

## Model

| member | source | states |
|---|---|---|
| `Text.TrimStartSpec` | script.js:55 | `trim` removes exactly the leading run of whitespace: the result is a suffix of the input, all removed characters are whitespace, and the result is empty or starts with a non-space |
| `Text.TrimEndSpec` | script.js:55 | the same for the trailing run: the result is a prefix, everything removed is whitespace, and the result is empty or ends with a non-space |
| `Text.TrimSpec` | script.js:55-57 | `trim` keeps one contiguous slice of its input and removes only whitespace, from the front and from the back |
| `Text.Trim` | script.js:55-57 | the trimmed value is no longer than the input and is empty or neither starts nor ends with whitespace |
| `Text.TrimIdempotent` | script.js:55-57 | trimming a trimmed value changes nothing |
| `Text.TrimKeepsUnpadded` | script.js:55 | a value that neither starts nor ends with whitespace is its own trimming |
| `Text.Lower` | script.js:56 | lower-casing keeps the length |
| `Text.LowerSpec` | script.js:56 | lower-casing acts character by character, in place |
| `Text.LowerIdempotent` | script.js:56 | lower-casing twice equals lower-casing once |
| `Text.TrimLowerCommute` | script.js:56 | trimming and lower-casing commute |
| `Text.Normalize` | script.js:56 | the directory key of a typed e-mail is no longer than it, and is already trimmed and already lower-case |
| `Text.NormalizeIdempotent` | script.js:56 | a directory key normalises to itself, so a stored key can be typed and found again |
| `Text.LinesOfJoin` | script.js:157-168 | splitting a multi-line text at line feeds gives back its lines, for lines without a line feed of their own |
| `Ledger.WriteBackInvisible` | script.js:152 | writing the read-back history (`[]` when absent) into the record changes nothing the history page reads at script.js:194 |
| `Ledger.AppendOrder` | script.js:152-153 | a checkout append adds the order at the end of that account's history (an absent history counts as empty). The account's name, e-mail and password stay as they were, and every other account is unchanged, as is the key set |
| `Ledger.Reverse` | script.js:200 | the history view lists entry `i` of the result as entry `n-1-i` of the stored list |
| `Ledger.ReverseOfAppend` | script.js:200 | after an append, the reversed history starts with the new order, followed by the previous reversed history |
| `Ledger.AppendOrderExtends` | script.js:152-153 | an append only extends the ledger: no account disappears, no credentials change, and every old history is a prefix of the new one |
| `Ledger.ExtendsTransitive` | script.js:152-154 | "only extends" composes over any run of writes |
| `Receipt.Bill` | script.js:157-168 | when no field holds a line feed, the bill text splits at line feeds into exactly the template's lines |
| `Receipt.BillReadsBack` | script.js:157-168 | read line by line, the bill is the title, a rule, then name, e-mail, FF ID, order name, phone, formatted amount and date behind their labels, then a rule and "Thank you!", eleven lines in all |
| `Receipt.BillDeterminesFields` | script.js:157-168 | two equal bills show the same customer name, e-mail, FF ID, order name, phone, formatted amount and date |
| `Receipt.BillOmitsPassword` | script.js:157-168 | the checkout password does not affect the bill |
| `Accounts.Register` | script.js:55-66 | the result is "already registered" exactly when the normalised e-mail is a key, and the directory is then unchanged. Otherwise one account is added under that key, with trimmed name, trimmed password and empty history. No existing account is changed either way |
| `Accounts.Login` | script.js:78-91 | "not found" exactly when the normalised e-mail is not a key. "Wrong password" exactly when it is a key and the stored password differs from the trimmed input. Success names that key, whose password matches |
| `Accounts.MakeOrder` | script.js:134-143 | the order's date is the clock value, its e-mail is the normalised form e-mail, and every other field is its trimmed form field; every stored field is already trimmed and the e-mail already normalised |
| `Accounts.Checkout` | script.js:125-154 | "not logged in" exactly when the session is absent, empty or not a key. "Email mismatch" exactly when the session is live and the normalised form e-mail differs from it; the directory is unchanged in both. On success the order is the trimmed form with the clock value as date and the session's e-mail. The session account's history gains exactly that order at the end, and all other accounts are unchanged. The bill is that order's |
| `Accounts.ViewOf` | script.js:188-200 | the history page asks for a login exactly when there is no live session. Otherwise it lists the stored history newest first |
| `Accounts.RegisterPreservesWellFormed` | script.js:55-66 | registration keeps every key a normalised e-mail equal to its account's e-mail, with trimmed name and password and only the account's own orders |
| `Accounts.CheckoutPreservesWellFormed` | script.js:146-153 | checkout never writes an order into an account other than the one its e-mail names |
| `Accounts.RegisterExtends` | script.js:59-66 | registration only extends the ledger |
| `Accounts.CheckoutExtends` | script.js:146-154 | checkout only extends the ledger |
| `Accounts.RegisterTwice` | script.js:59-64 | a second registration under the same normalised e-mail is refused and changes nothing |
| `Accounts.RegisterThenLogin` | script.js:78-91 | a fresh account logs in, under any spelling of its e-mail that normalises the same, exactly with a password that trims to its own, and reports "wrong password" otherwise |
| `Accounts.LoginWithStoredKey` | script.js:78 | logging in with the stored key gives the same outcome as with the e-mail it came from |
| `Accounts.LoginOpensGuard` | script.js:21-24 | after a successful login the guard lets the visitor through exactly when the key is not the empty string |
| `Accounts.LivePassesGuard` | script.js:127 | every session checkout accepts (present, non-empty, naming an account) also passes the guard of script.js:23 |
| `Accounts.StaleSessionPassesGuard` | script.js:21-24 | any non-empty session e-mail that names no account passes the guard, but checkout from it reports "not logged in" |
| `Accounts.CheckoutThenView` | script.js:194-200 | after a successful checkout the history page shows the new order first, then the orders it showed before |
| `Accounts.RefusedCheckoutKeepsView` | script.js:127-149 | a refused checkout leaves the history page as it was |
| `Accounts.RegisterKeepsLiveView` | script.js:60-65 | registration never changes what a live session's history page shows |
| `Accounts.DaveKeyIsNormal` | script.js:78 | `dave@mail.com` is its own key |
| `Accounts.DaveKey` | script.js:56 | `Dave@Mail.com` is stored under `dave@mail.com` |
| `Accounts.DaveRegistersAndLogsIn` | script.js:55-91 | registering `("Dave", "Dave@Mail.com", "pw1")` stores one account under `dave@mail.com`. Login with `pw1` succeeds and with `wrong` gives "wrong password" |
| `Accounts.DaveOrderAsTyped` | script.js:134-143 | Dave's checkout form, already trimmed and carrying his key, becomes the order exactly as typed |
| `Accounts.DaveOrders` | script.js:125-154 | logged in as `dave@mail.com`, ordering "100 Gems" for "500" stores the amount as typed, and the history then lists exactly that one order |
| `Storefront.Store.constructor` | script.js:15-17 | the store starts from whatever the three storage keys hold; a fresh profile (empty directory, no session) satisfies `Valid()` |
| `Storefront.Store.Register` | script.js:55-68 | new directory and outcome as in `Accounts.Register`. Session and selected service are unchanged, and `Valid()` is kept |
| `Storefront.Store.Login` | script.js:78-92 | outcome as in `Accounts.Login`. The session becomes the key on success and is unchanged otherwise. The directory is never changed, and `Valid()` is kept |
| `Storefront.Store.Logout` | script.js:19 | the session is cleared and nothing else changes |
| `Storefront.Store.GuardRedirects` | script.js:21-24 | a guarded page redirects exactly when no non-empty session e-mail is stored |
| `Storefront.Store.SelectService` | script.js:100-101 | the remembered service becomes the chosen name and nothing else changes |
| `Storefront.Store.OrderNamePrefill` | script.js:120-121 | returns the stored service, or "" when none is stored (the `""` default of script.js:120); the page writes it into the field only when it is non-empty |
| `Storefront.Store.Checkout` | script.js:125-154 | new directory and outcome as in `Accounts.Checkout`. Session and selected service are unchanged, and `Valid()` is kept. From a valid state, "not logged in" is reported exactly when no non-empty session e-mail is stored |
| `Storefront.Store.History` | script.js:188-200 | returns `Accounts.ViewOf` of the current state; in a valid state it asks for a login exactly when no non-empty session e-mail is stored. The method has no `modifies` clause, so two reads with no write in between return the same view |

## Left out

- Page wiring: element lookup, alerts, redirect targets and timers, the password eye toggle (script.js:37-47) and the alert box (script.js:215-223). These are presentation only; the model returns outcomes instead.
- The message link: `encodeMsg`/`encodeURIComponent`, the wa.me URL and `window.open` (script.js:26-29, 170-180). These are a foreign call plus outbound messaging. The model stops at the bill text.
- `formatLKR` (script.js:31-35): number parsing and locale grouping are floating point and locale dependent. The formatter is a function parameter.
- The clock: `new Date().toLocaleString()` (script.js:142) is the parameter `now`.
- JSON serialisation and local storage itself (script.js:15-18): the three keys are fields. Concurrent tabs racing on the same key (last write wins) are outside a sequential model.
- The e-mail pre-fill and read-only flag on the checkout form (script.js:113-119). These are presentation; the form e-mail is a checkout input.
- The markup of the history cards (script.js:201-211). The view carries the orders each card would show.
- Lookups by inherited object property: `users[email]` on a plain JavaScript object also sees names such as `constructor`. The model treats the directory as a map of own keys only.
- Strings in the model are sequences of Unicode scalar values, while JavaScript strings are UTF-16 code units, so a form field holding a lone surrogate cannot be represented.
- Text.Lower: maps only `A`-`Z`; JavaScript's `toLowerCase` also lower-cases non-ASCII letters, whose Unicode case tables are not modelled.
