/**
 * The customer table (`customers.json`) and the three finders that scan it.
 */
module Records {
  import opened Wrappers

  /**
   * One entry of the table. `subdomain` is read with `c["subdomain"]`, so it is
   * required; the other keys are read with `c.get(...)`, where `None` stands
   * for an absent key or a JSON `null`.
   */
  datatype Customer = Customer(
    subdomain: string,
    email: Option<string>,
    stripeCustomerId: Option<string>,
    stripeSubscriptionId: Option<string>,
    status: Option<string>)

  /** The table in file order; a missing file reads as the empty table. */
  type Table = seq<Customer>

  /** The key a finder compares against. */
  datatype Column = EmailColumn | SubdomainColumn | SubscriptionColumn

  /** The value of `column` in `c`, as `c[...]` or `c.get(...)` returns it. */
  function Key(c: Customer, column: Column): Option<string> {
    match column
    case EmailColumn => c.email
    case SubdomainColumn => Some(c.subdomain)
    case SubscriptionColumn => c.stripeSubscriptionId
  }

  /** `c.get(column) == key`: an absent or null field never equals a string. */
  predicate Matches(c: Customer, column: Column, key: string) {
    Key(c, column) == Some(key)
  }

  /**
   * `r` is what a front-to-back scan that returns the first matching record
   * yields: the record at the first matching position, or nothing when no
   * position matches.
   */
  ghost predicate IsFirstMatch(t: Table, column: Column, key: string, r: Option<Customer>) {
    match r
    case None => forall i :: 0 <= i < |t| ==> !Matches(t[i], column, key)
    case Some(c) =>
      exists i :: 0 <= i < |t| && t[i] == c && Matches(t[i], column, key) &&
                  forall j :: 0 <= j < i ==> !Matches(t[j], column, key)
  }

  /** The scan loop shared by the three finders. */
  function Find(t: Table, column: Column, key: string): (r: Option<Customer>)
    ensures IsFirstMatch(t, column, key, r)
    ensures r.Some? ==> r.value in t && Matches(r.value, column, key)
  {
    if t == [] then None
    else if Matches(t[0], column, key) then Some(t[0])
    else
      var r := Find(t[1..], column, key);
      assert r.Some? ==> exists i :: 1 <= i < |t| && t[i] == r.value && Matches(t[i], column, key) &&
                                     forall j :: 0 <= j < i ==> !Matches(t[j], column, key) by {
        if r.Some? {
          var i :| 0 <= i < |t[1..]| && t[1..][i] == r.value && Matches(t[1..][i], column, key) &&
                   forall j :: 0 <= j < i ==> !Matches(t[1..][j], column, key);
          assert forall j :: 0 <= j < i + 1 ==> !Matches(t[j], column, key) by {
            forall j | 0 <= j < i + 1 ensures !Matches(t[j], column, key) {
              if j > 0 { assert t[j] == t[1..][j - 1]; }
            }
          }
        }
      }
      r
  }

  /** `_find_customer_by_email`: the first record whose `email` equals `email`. */
  function FindCustomerByEmail(t: Table, email: string): (r: Option<Customer>)
    ensures IsFirstMatch(t, EmailColumn, email, r)
    ensures r.Some? ==> r.value in t && r.value.email == Some(email)
  {
    Find(t, EmailColumn, email)
  }

  /** `_find_customer`: the first record whose `subdomain` equals `subdomain`. */
  function FindCustomer(t: Table, subdomain: string): (r: Option<Customer>)
    ensures IsFirstMatch(t, SubdomainColumn, subdomain, r)
    ensures r.Some? ==> r.value in t && r.value.subdomain == subdomain
  {
    Find(t, SubdomainColumn, subdomain)
  }

  /** `_find_customer_by_subscription`: the first record whose `stripe_subscription_id` equals `id`. */
  function FindCustomerBySubscription(t: Table, id: string): (r: Option<Customer>)
    ensures IsFirstMatch(t, SubscriptionColumn, id, r)
    ensures r.Some? ==> r.value in t && r.value.stripeSubscriptionId == Some(id)
  {
    Find(t, SubscriptionColumn, id)
  }

  /** A record matches at most one position: the key is unique in the table. */
  ghost predicate UniqueKey(t: Table, column: Column, key: string) {
    forall i, j :: 0 <= i < |t| && 0 <= j < |t| && Matches(t[i], column, key) && Matches(t[j], column, key) ==> i == j
  }

  /** When the key is unique, a finder returns exactly the record that holds it. */
  lemma FindUnique(t: Table, column: Column, key: string, i: int)
    requires 0 <= i < |t| && Matches(t[i], column, key)
    requires UniqueKey(t, column, key)
    ensures Find(t, column, key) == Some(t[i])
  {
  }

  /** `c` after `c["status"] = status` when its subdomain is `subdomain`; otherwise `c` itself. */
  function SetStatus(c: Customer, subdomain: string, status: string): (r: Customer)
    ensures r.status == if c.subdomain == subdomain then Some(status) else c.status
    ensures r.subdomain == c.subdomain && r.email == c.email
    ensures r.stripeCustomerId == c.stripeCustomerId && r.stripeSubscriptionId == c.stripeSubscriptionId
  {
    if c.subdomain == subdomain then c.(status := Some(status)) else c
  }

  /**
   * The table after setting `status` on every record whose subdomain is
   * `subdomain`: the value the payment-failed handler writes back.
   */
  function WithStatus(t: Table, subdomain: string, status: string): (r: Table)
    ensures |r| == |t|
  {
    if t == [] then [] else [SetStatus(t[0], subdomain, status)] + WithStatus(t[1..], subdomain, status)
  }

  /**
   * Position by position: a record with the subdomain gets the new status and
   * keeps every other field; every other record is unchanged.
   */
  lemma {:induction false} WithStatusAt(t: Table, subdomain: string, status: string, i: int)
    requires 0 <= i < |t|
    ensures WithStatus(t, subdomain, status)[i] == SetStatus(t[i], subdomain, status)
    ensures t[i].subdomain == subdomain ==> WithStatus(t, subdomain, status)[i] == t[i].(status := Some(status))
    ensures t[i].subdomain != subdomain ==> WithStatus(t, subdomain, status)[i] == t[i]
  {
    if i > 0 {
      WithStatusAt(t[1..], subdomain, status, i - 1);
    }
  }

  /** Patching twice gives the table that patching once gives. */
  lemma {:induction false} WithStatusIdempotent(t: Table, subdomain: string, status: string)
    ensures WithStatus(WithStatus(t, subdomain, status), subdomain, status) == WithStatus(t, subdomain, status)
  {
    if t != [] {
      var once := WithStatus(t, subdomain, status);
      WithStatusIdempotent(t[1..], subdomain, status);
      assert once[1..] == WithStatus(t[1..], subdomain, status);
    }
  }

  /** The patch changes only `status`, so no finder's key column moves. */
  lemma WithStatusKeepsKeys(t: Table, subdomain: string, status: string, column: Column)
    ensures forall i :: 0 <= i < |t| ==> Key(WithStatus(t, subdomain, status)[i], column) == Key(t[i], column)
  {
  }

  /**
   * A finder on the patched table returns the patched version of what it
   * returned before the patch.
   */
  lemma {:induction false} FindAfterWithStatus(t: Table, subdomain: string, status: string, column: Column, key: string)
    ensures Find(WithStatus(t, subdomain, status), column, key).None? <==> Find(t, column, key).None?
    ensures Find(t, column, key).Some? ==>
              Find(WithStatus(t, subdomain, status), column, key) == Some(SetStatus(Find(t, column, key).value, subdomain, status))
  {
    if t != [] {
      FindAfterWithStatus(t[1..], subdomain, status, column, key);
      assert WithStatus(t, subdomain, status)[1..] == WithStatus(t[1..], subdomain, status);
    }
  }
}
