/**
 * The order-history ledger: orders, accounts and the directory that maps a
 * normalised e-mail to its account. An account's history only ever grows at
 * its end.
 */
module Ledger {
  import opened Wrappers

  /** One checkout submission, with the timestamp taken when it was submitted. */
  datatype Order = Order(
    customerName: string,
    email: string,
    password: string,
    ffid: string,
    orderName: string,
    phone: string,
    amount: string,
    date: string)

  /**
   * A registered account. The history is optional because a persisted
   * record may lack it; an absent history reads as the empty one.
   */
  datatype Account = Account(name: string, email: string, password: string, history: Option<seq<Order>>)

  /** The account directory, keyed by normalised e-mail. */
  type Directory = map<string, Account>

  /** The stored history, read the way the page reads it (`history || []`). */
  function HistoryOf(a: Account): (h: seq<Order>) {
    a.history.GetOr([])
  }

  /** Writing the read-back history into the record, as checkout does first, changes nothing a reader sees. */
  lemma WriteBackInvisible(a: Account)
    ensures HistoryOf(a.(history := Some(HistoryOf(a)))) == HistoryOf(a)
  {
  }

  /** Appends `o` to the history of the account stored under `key`. */
  function AppendOrder(users: Directory, key: string, o: Order): (r: Directory)
    requires key in users
    ensures r.Keys == users.Keys
    ensures HistoryOf(r[key]) == HistoryOf(users[key]) + [o] && r[key].history.Some?
    ensures r[key].name == users[key].name && r[key].email == users[key].email
    ensures r[key].password == users[key].password
    ensures forall k :: k in users && k != key ==> r[k] == users[k]
  {
    users[key := users[key].(history := Some(HistoryOf(users[key]) + [o]))]
  }

  /** The elements of `s` in the opposite order (`slice().reverse()`). */
  function Reverse<T>(s: seq<T>): (r: seq<T>)
    ensures |r| == |s|
    ensures forall i :: 0 <= i < |s| ==> r[i] == s[|s| - 1 - i]
  {
    if s == [] then [] else [s[|s| - 1]] + Reverse(s[..|s| - 1])
  }

  /** Reversing a history that grew by one puts the new entry first. */
  lemma ReverseOfAppend<T>(s: seq<T>, x: T)
    ensures Reverse(s + [x]) == [x] + Reverse(s)
  {
    var l, r := Reverse(s + [x]), [x] + Reverse(s);
    assert forall i :: 0 <= i < |r| ==> l[i] == r[i];
  }

  /** The same account apart from a history that may only have grown at its end. */
  predicate AccountExtends(before: Account, after: Account) {
    && after.name == before.name
    && after.email == before.email
    && after.password == before.password
    && HistoryOf(before) <= HistoryOf(after)
  }

  /**
   * The directory may gain accounts, but no account disappears, changes its
   * credentials, or loses or reorders an order.
   */
  predicate Extends(before: Directory, after: Directory) {
    && before.Keys <= after.Keys
    && forall k :: k in before ==> AccountExtends(before[k], after[k])
  }

  lemma {:induction false} ExtendsTransitive(a: Directory, b: Directory, c: Directory)
    requires Extends(a, b) && Extends(b, c)
    ensures Extends(a, c)
  {
    forall k | k in a
      ensures AccountExtends(a[k], c[k])
    {
      var h0, h1, h2 := HistoryOf(a[k]), HistoryOf(b[k]), HistoryOf(c[k]);
      assert h1[..|h0|] == h0 && h2[..|h1|] == h1;
      assert h2[..|h0|] == h1[..|h0|];
    }
  }

  lemma AppendOrderExtends(users: Directory, key: string, o: Order)
    requires key in users
    ensures Extends(users, AppendOrder(users, key, o))
  {
  }
}
