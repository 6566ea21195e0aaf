/**
 * The account directory, the session and checkout intake as functions of the
 * stored state: each handler's effect on the directory and the outcome it
 * reports. The `Store` class performs these steps in place.
 */
module Accounts {
  import opened Wrappers
  import opened Text
  import opened Ledger
  import opened Receipt

  /** The directory after a handler ran, and what the handler reported. */
  datatype Step<O> = Step(users: Directory, outcome: O)

  datatype RegisterOutcome = Registered(key: string) | AlreadyRegistered

  datatype LoginOutcome = LoggedIn(key: string) | EmailNotFound | WrongPassword

  /** The raw values of the checkout form's inputs. */
  datatype CheckoutForm = CheckoutForm(
    customerName: string,
    email: string,
    password: string,
    ffid: string,
    orderName: string,
    phone: string,
    amount: string)

  datatype CheckoutOutcome = NotLoggedIn | EmailMismatch | Placed(order: Order, bill: string)

  /** What the history page shows: a request to log in, or the order cards (none: "No orders yet"). */
  datatype HistoryView = PleaseLogin | Cards(orders: seq<Order>)

  // ---------- Register ----------

  /** Registration stores a new account under the normalised e-mail, and never overwrites one. */
  function Register(users: Directory, name: string, email: string, password: string): (r: Step<RegisterOutcome>)
    ensures r.outcome.AlreadyRegistered? <==> Normalize(email) in users
    ensures r.outcome.AlreadyRegistered? ==> r.users == users
    ensures r.outcome.Registered? ==>
      && r.outcome.key == Normalize(email)
      && r.users.Keys == users.Keys + {r.outcome.key}
      && r.users[r.outcome.key] == Account(Trim(name), r.outcome.key, Trim(password), Some([]))
    ensures forall k :: k in users ==> k in r.users && r.users[k] == users[k]
  {
    var key := Normalize(email);
    if key in users then Step(users, AlreadyRegistered)
    else Step(users[key := Account(Trim(name), key, Trim(password), Some([]))], Registered(key))
  }

  // ---------- Login ----------

  /** Credentials check: the e-mail is normalised, the password only trimmed and compared exactly. */
  function Login(users: Directory, email: string, password: string): (r: LoginOutcome)
    ensures r.EmailNotFound? <==> Normalize(email) !in users
    ensures r.WrongPassword? <==> Normalize(email) in users && users[Normalize(email)].password != Trim(password)
    ensures r.LoggedIn? ==> r.key == Normalize(email) && r.key in users && users[r.key].password == Trim(password)
  {
    var key := Normalize(email);
    if key !in users then EmailNotFound
    else if users[key].password != Trim(password) then WrongPassword
    else LoggedIn(key)
  }

  // ---------- Session ----------

  /** A stored session e-mail counts only when it is present and non-empty. */
  predicate SessionPresent(logged: Option<string>) {
    logged.Some? && logged.value != ""
  }

  /** A guarded page sends the visitor to the login page when no session is present. */
  predicate GuardRedirects(guarded: bool, logged: Option<string>) {
    guarded && !SessionPresent(logged)
  }

  /** The session's directory key, when the session is present and its account exists. */
  function LiveSession(users: Directory, logged: Option<string>): (live: Option<string>) {
    if SessionPresent(logged) && logged.value in users then logged else None
  }

  // ---------- Checkout ----------

  /** The order assembled from the form: every field trimmed, the e-mail normalised, the date the clock value. */
  function MakeOrder(form: CheckoutForm, now: string): (o: Order)
    ensures o.date == now
    ensures o.email == Normalize(form.email) && Normalize(o.email) == o.email
    ensures o.customerName == Trim(form.customerName) && Trim(o.customerName) == o.customerName
    ensures o.password == Trim(form.password) && Trim(o.password) == o.password
    ensures o.ffid == Trim(form.ffid) && Trim(o.ffid) == o.ffid
    ensures o.orderName == Trim(form.orderName) && Trim(o.orderName) == o.orderName
    ensures o.phone == Trim(form.phone) && Trim(o.phone) == o.phone
    ensures o.amount == Trim(form.amount) && Trim(o.amount) == o.amount
  {
    NormalizeIdempotent(form.email);
    TrimIdempotent(form.customerName);
    TrimIdempotent(form.password);
    TrimIdempotent(form.ffid);
    TrimIdempotent(form.orderName);
    TrimIdempotent(form.phone);
    TrimIdempotent(form.amount);
    Order(Trim(form.customerName), Normalize(form.email), Trim(form.password), Trim(form.ffid),
          Trim(form.orderName), Trim(form.phone), Trim(form.amount), now)
  }

  /**
   * Checkout: refused without a live session, refused when the form's
   * e-mail is not the session's, otherwise the order is appended to the
   * session account's history and the bill is produced.
   */
  function Checkout(users: Directory, logged: Option<string>, form: CheckoutForm, now: string,
                    formatAmount: string -> string): (r: Step<CheckoutOutcome>)
    ensures r.outcome.NotLoggedIn? <==> LiveSession(users, logged).None?
    ensures r.outcome.EmailMismatch? <==> LiveSession(users, logged).Some? && Normalize(form.email) != logged.value
    ensures !r.outcome.Placed? ==> r.users == users
    ensures r.outcome.Placed? ==>
      && logged.Some? && logged.value in users
      && r.outcome.order == MakeOrder(form, now)
      && r.outcome.order.email == logged.value
      && r.outcome.order.date == now
      && r.outcome.bill == Bill(r.outcome.order, formatAmount)
      && r.users.Keys == users.Keys
      && HistoryOf(r.users[logged.value]) == HistoryOf(users[logged.value]) + [r.outcome.order]
      && forall k :: k in users && k != logged.value ==> r.users[k] == users[k]
  {
    match LiveSession(users, logged)
    case None => Step(users, NotLoggedIn)
    case Some(key) =>
      var order := MakeOrder(form, now);
      if order.email != key then Step(users, EmailMismatch)
      else Step(AppendOrder(users, key, order), Placed(order, Bill(order, formatAmount)))
  }

  // ---------- History ----------

  /** The history page: a login request without a live session, else the orders newest first. */
  function ViewOf(users: Directory, logged: Option<string>): (v: HistoryView)
    ensures v.PleaseLogin? <==> LiveSession(users, logged).None?
    ensures v.Cards? ==>
      var h := HistoryOf(users[logged.value]);
      |v.orders| == |h| && forall i :: 0 <= i < |h| ==> v.orders[i] == h[|h| - 1 - i]
  {
    match LiveSession(users, logged)
    case None => PleaseLogin
    case Some(key) => Cards(Reverse(HistoryOf(users[key])))
  }

  // ---------- Invariants ----------

  /** Every order an account holds carries that account's e-mail. */
  predicate OrdersBelongTo(key: string, h: seq<Order>) {
    forall i :: 0 <= i < |h| ==> h[i].email == key
  }

  /**
   * An account as registration creates it and checkout keeps it: stored
   * under its own normalised e-mail, with trimmed name and password, a
   * history, and only its own orders in it.
   */
  predicate AccountWellFormed(key: string, a: Account) {
    && Normalize(key) == key
    && a.email == key
    && Trim(a.name) == a.name
    && Trim(a.password) == a.password
    && a.history.Some?
    && OrdersBelongTo(key, a.history.value)
  }

  predicate WellFormed(users: Directory) {
    forall k :: k in users ==> AccountWellFormed(k, users[k])
  }

  // ---------- Properties ----------

  lemma RegisterPreservesWellFormed(users: Directory, name: string, email: string, password: string)
    requires WellFormed(users)
    ensures WellFormed(Register(users, name, email, password).users)
  {
    NormalizeIdempotent(email);
    TrimIdempotent(name);
    TrimIdempotent(password);
  }

  /** No cross-account writes: checkout keeps every account holding only its own orders. */
  lemma CheckoutPreservesWellFormed(users: Directory, logged: Option<string>, form: CheckoutForm, now: string,
                                    formatAmount: string -> string)
    requires WellFormed(users)
    ensures WellFormed(Checkout(users, logged, form, now, formatAmount).users)
  {
    var r := Checkout(users, logged, form, now, formatAmount);
    if r.outcome.Placed? {
      var key := logged.value;
      assert AccountWellFormed(key, r.users[key]);
    }
  }

  /** Registration only ever extends the ledger. */
  lemma RegisterExtends(users: Directory, name: string, email: string, password: string)
    ensures Extends(users, Register(users, name, email, password).users)
  {
  }

  /** Checkout only ever extends the ledger. */
  lemma CheckoutExtends(users: Directory, logged: Option<string>, form: CheckoutForm, now: string,
                        formatAmount: string -> string)
    ensures Extends(users, Checkout(users, logged, form, now, formatAmount).users)
  {
    var r := Checkout(users, logged, form, now, formatAmount);
    if r.outcome.Placed? {
      AppendOrderExtends(users, logged.value, r.outcome.order);
    }
  }

  /** Registering an e-mail that normalises to a taken key fails and leaves the first account as it was. */
  lemma RegisterTwice(users: Directory, name1: string, email1: string, password1: string,
                      name2: string, email2: string, password2: string)
    requires Normalize(email1) == Normalize(email2)
    ensures var first := Register(users, name1, email1, password1);
            var second := Register(first.users, name2, email2, password2);
            second.outcome == AlreadyRegistered && second.users == first.users
  {
  }

  /** A freshly registered account accepts exactly its own trimmed password, under any spelling of its e-mail. */
  lemma RegisterThenLogin(users: Directory, name: string, email: string, password: string,
                          email2: string, password2: string)
    requires Register(users, name, email, password).outcome.Registered?
    requires Normalize(email2) == Normalize(email)
    ensures Login(Register(users, name, email, password).users, email2, password2)
         == if Trim(password2) == Trim(password) then LoggedIn(Normalize(email)) else WrongPassword
  {
  }

  /** Logging in with the stored key behaves as logging in with the e-mail it came from. */
  lemma LoginWithStoredKey(users: Directory, email: string, password: string)
    ensures Login(users, Normalize(email), password) == Login(users, email, password)
  {
    NormalizeIdempotent(email);
  }

  /** A successful login opens every guarded page, unless the registered e-mail was empty. */
  lemma LoginOpensGuard(users: Directory, email: string, password: string)
    requires Login(users, email, password).LoggedIn?
    ensures !GuardRedirects(true, Some(Login(users, email, password).key)) <==> Normalize(email) != ""
  {
  }

  /** The guard looks only at the session, checkout also at the account: a stale session passes one, not the other. */
  lemma StaleSessionPassesGuard(users: Directory, e: string, form: CheckoutForm, now: string,
                                formatAmount: string -> string)
    requires e != "" && e !in users
    ensures !GuardRedirects(true, Some(e))
    ensures Checkout(users, Some(e), form, now, formatAmount).outcome == NotLoggedIn
  {
  }

  /** Every session checkout accepts also passes the guard: the converse of StaleSessionPassesGuard fails, this direction holds. */
  lemma LivePassesGuard(users: Directory, logged: Option<string>)
    requires LiveSession(users, logged).Some?
    ensures !GuardRedirects(true, logged)
  {
  }

  /** After a successful checkout the history page lists the new order first, then the earlier ones. */
  lemma CheckoutThenView(users: Directory, logged: Option<string>, form: CheckoutForm, now: string,
                         formatAmount: string -> string)
    requires Checkout(users, logged, form, now, formatAmount).outcome.Placed?
    ensures var r := Checkout(users, logged, form, now, formatAmount);
            ViewOf(r.users, logged) == Cards([r.outcome.order] + ViewOf(users, logged).orders)
  {
    var r := Checkout(users, logged, form, now, formatAmount);
    ReverseOfAppend(HistoryOf(users[logged.value]), r.outcome.order);
  }

  /** A refused checkout leaves the history page as it was. */
  lemma RefusedCheckoutKeepsView(users: Directory, logged: Option<string>, form: CheckoutForm, now: string,
                                 formatAmount: string -> string)
    requires !Checkout(users, logged, form, now, formatAmount).outcome.Placed?
    ensures ViewOf(Checkout(users, logged, form, now, formatAmount).users, logged) == ViewOf(users, logged)
  {
  }

  /** Registration never changes what a live session's history page shows. */
  lemma RegisterKeepsLiveView(users: Directory, logged: Option<string>, name: string, email: string,
                              password: string)
    requires LiveSession(users, logged).Some?
    ensures ViewOf(Register(users, name, email, password).users, logged) == ViewOf(users, logged)
  {
  }

  // ---------- A worked scenario ----------

  /** dave@mail.com is its own key. */
  lemma DaveKeyIsNormal(key: string)
    requires key == "dave@mail.com"
    ensures Normalize(key) == key
  {
    TrimKeepsUnpadded(key);
    LowerSpec(key);
  }

  /** Dave@Mail.com is stored under dave@mail.com. */
  lemma DaveKey(email: string, key: string)
    requires email == "Dave@Mail.com" && key == "dave@mail.com"
    ensures Normalize(email) == key
  {
    TrimKeepsUnpadded(email);
    LowerSpec(email);
  }

  /** "Dave" registers as Dave@Mail.com with password pw1, then logs in with the lower-case address. */
  lemma DaveRegistersAndLogsIn(email: string, key: string)
    requires email == "Dave@Mail.com" && key == "dave@mail.com"
    ensures var reg := Register(map[], "Dave", email, "pw1");
            && reg.outcome == Registered(key)
            && reg.users == map[key := Account("Dave", key, "pw1", Some([]))]
            && Login(reg.users, key, "pw1") == LoggedIn(key)
            && Login(reg.users, key, "wrong") == WrongPassword
  {
    DaveKey(email, key);
    DaveKeyIsNormal(key);
    TrimKeepsUnpadded("Dave");
    TrimKeepsUnpadded("pw1");
    TrimKeepsUnpadded("wrong");
  }

  /** Dave's checkout form, already trimmed and with his key as e-mail, becomes the order as typed. */
  lemma DaveOrderAsTyped(key: string, item: string, amount: string, phone: string, ffid: string, now: string)
    requires key == "dave@mail.com" && item == "100 Gems" && amount == "500"
    requires Trim(phone) == phone && Trim(ffid) == ffid
    ensures MakeOrder(CheckoutForm("Dave", key, "pw1", ffid, item, phone, amount), now)
         == Order("Dave", key, "pw1", ffid, item, phone, amount, now)
  {
    DaveKeyIsNormal(key);
    TrimKeepsUnpadded("Dave");
    TrimKeepsUnpadded("pw1");
    TrimKeepsUnpadded(item);
    TrimKeepsUnpadded(amount);
  }

  /** Logged in as dave@mail.com, Dave orders "100 Gems" for 500: one order, stored as typed. */
  lemma DaveOrders(key: string, item: string, amount: string, phone: string, ffid: string, now: string,
                   formatAmount: string -> string)
    requires key == "dave@mail.com" && item == "100 Gems" && amount == "500"
    requires Trim(phone) == phone && Trim(ffid) == ffid
    ensures var users := map[key := Account("Dave", key, "pw1", Some([]))];
            var form := CheckoutForm("Dave", key, "pw1", ffid, item, phone, amount);
            var out := Checkout(users, Some(key), form, now, formatAmount);
            && out.outcome.Placed?
            && out.outcome.order == Order("Dave", key, "pw1", ffid, item, phone, amount, now)
            && ViewOf(out.users, Some(key)) == Cards([out.outcome.order])
  {
    DaveOrderAsTyped(key, item, amount, phone, ffid, now);
    var users := map[key := Account("Dave", key, "pw1", Some([]))];
    var form := CheckoutForm("Dave", key, "pw1", ffid, item, phone, amount);
    var order := Order("Dave", key, "pw1", ffid, item, phone, amount, now);
    assert LiveSession(users, Some(key)) == Some(key);
    var out := Checkout(users, Some(key), form, now, formatAmount);
    assert out.outcome.Placed? && out.outcome.order == order;
    assert HistoryOf(out.users[key]) == [order];
  }
}
