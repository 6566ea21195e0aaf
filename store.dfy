/**
 * The storefront's persisted state and its event handlers. The three
 * fields stand for the three local-storage keys: the account directory,
 * the logged-in e-mail and the last selected service. Each method is one
 * handler's effect on that state, proved equal to the step function of
 * module Accounts that specifies it.
 */
module Storefront {
  import opened Wrappers
  import opened Text
  import opened Ledger
  import opened Receipt
  import Accounts

  class Store {
    var users: Directory
    var logged: Option<string>
    var selectedService: Option<string>

    /**
     * The state the handlers create and keep: a well-formed directory, and
     * a session, when there is one, naming an account in it.
     */
    ghost predicate Valid()
      reads this
    {
      Accounts.WellFormed(users) && (logged.Some? ==> logged.value in users)
    }

    /**
     * Loads whatever the three storage keys hold. A fresh browser profile
     * has an empty directory (an absent key reads as `{}`), no session and
     * no selected service.
     */
    constructor (users: Directory, logged: Option<string>, selectedService: Option<string>)
      ensures this.users == users && this.logged == logged && this.selectedService == selectedService
      ensures users == map[] && logged == None ==> Valid()
    {
      this.users := users;
      this.logged := logged;
      this.selectedService := selectedService;
    }

    /** The register form's submit handler. */
    method Register(name: string, email: string, password: string) returns (outcome: Accounts.RegisterOutcome)
      modifies this
      ensures Accounts.Step(users, outcome) == Accounts.Register(old(users), name, email, password)
      ensures logged == old(logged) && selectedService == old(selectedService)
      ensures old(Valid()) ==> Valid()
    {
      ghost var before := users;
      var key := Normalize(email);
      if key in users {
        outcome := Accounts.AlreadyRegistered;
        return;
      }
      users := users[key := Account(Trim(name), key, Trim(password), Some([]))];
      outcome := Accounts.Registered(key);
      if Accounts.WellFormed(before) {
        Accounts.RegisterPreservesWellFormed(before, name, email, password);
      }
    }

    /** The login form's submit handler: on success the session becomes the normalised e-mail. */
    method Login(email: string, password: string) returns (outcome: Accounts.LoginOutcome)
      modifies this
      ensures outcome == Accounts.Login(old(users), email, password)
      ensures logged == if outcome.LoggedIn? then Some(outcome.key) else old(logged)
      ensures users == old(users) && selectedService == old(selectedService)
      ensures old(Valid()) ==> Valid()
    {
      var key := Normalize(email);
      if key !in users {
        outcome := Accounts.EmailNotFound;
        return;
      }
      if users[key].password != Trim(password) {
        outcome := Accounts.WrongPassword;
        return;
      }
      logged := Some(key);
      outcome := Accounts.LoggedIn(key);
    }

    /** The logout link: the session key is removed and nothing else is touched. */
    method Logout()
      modifies this
      ensures logged == None
      ensures users == old(users) && selectedService == old(selectedService)
      ensures old(Valid()) ==> Valid()
    {
      logged := None;
    }

    /** Whether a page marked as guarded sends its visitor to the login page. */
    method GuardRedirects(guarded: bool) returns (redirect: bool)
      ensures redirect == Accounts.GuardRedirects(guarded, logged)
      ensures !redirect ==> !guarded || (logged.Some? && logged.value != "")
    {
      redirect := Accounts.GuardRedirects(guarded, logged);
    }

    /** A service button: remembers the chosen service for the checkout page. */
    method SelectService(name: string)
      modifies this
      ensures selectedService == Some(name)
      ensures users == old(users) && logged == old(logged)
      ensures old(Valid()) ==> Valid()
    {
      selectedService := Some(name);
    }

    /** The order name the checkout page starts from: the remembered service, or nothing. */
    method OrderNamePrefill() returns (orderName: string)
      ensures selectedService.Some? ==> orderName == selectedService.value
      ensures selectedService.None? ==> orderName == ""
    {
      orderName := selectedService.GetOr("");
    }

    /**
     * The checkout form's submit handler. `now` is the clock reading taken at
     * submission; `formatAmount` renders the amount for the bill.
     */
    method Checkout(form: Accounts.CheckoutForm, now: string, formatAmount: string -> string)
      returns (outcome: Accounts.CheckoutOutcome)
      modifies this
      ensures Accounts.Step(users, outcome) == Accounts.Checkout(old(users), old(logged), form, now, formatAmount)
      ensures logged == old(logged) && selectedService == old(selectedService)
      ensures old(Valid()) ==> Valid()
      ensures old(Valid()) ==> (outcome.NotLoggedIn? <==> !Accounts.SessionPresent(old(logged)))
    {
      ghost var before := users;
      var loggedEmail := logged;
      if loggedEmail.None? || loggedEmail.value == "" || loggedEmail.value !in users {
        outcome := Accounts.NotLoggedIn;
        return;
      }
      var key := loggedEmail.value;
      var order := Accounts.MakeOrder(form, now);
      if order.email != key {
        outcome := Accounts.EmailMismatch;
        return;
      }
      var account := users[key];
      var history := HistoryOf(account);
      users := users[key := account.(history := Some(history + [order]))];
      outcome := Accounts.Placed(order, Bill(order, formatAmount));
      if Accounts.WellFormed(before) {
        Accounts.CheckoutPreservesWellFormed(before, loggedEmail, form, now, formatAmount);
      }
    }

    /** The history page: reads the state and changes nothing. */
    method History() returns (view: Accounts.HistoryView)
      ensures view == Accounts.ViewOf(users, logged)
      ensures Valid() ==> (view.PleaseLogin? <==> !Accounts.SessionPresent(logged))
    {
      view := Accounts.ViewOf(users, logged);
    }
  }
}
