/**
 * The JSON file that holds the customer table, and the in-place update the
 * payment-failed handler performs on the list it loads from it.
 */
module Store {
  import opened Wrappers
  import opened Records

  /** The status the payment-failed handler writes. */
  const PAYMENT_FAILED := "payment_failed"

  /** `customers.json`: `rows` is the table the file currently holds. */
  class CustomerDb {
    var rows: Table
    /** How many times the file has been rewritten. */
    ghost var writes: nat

    constructor (initial: Table)
      ensures rows == initial && writes == 0
    {
      rows := initial;
      writes := 0;
    }

    /** `_read_db`: a freshly loaded list holding the file's records in order. */
    method Read() returns (db: array<Customer>)
      ensures fresh(db) && db[..] == rows
    {
      db := new Customer[|rows|](i requires 0 <= i < |rows| reads this => rows[i]);
    }

    /** `_write_db`: the file is replaced by the whole list. */
    method Write(db: array<Customer>)
      modifies this
      ensures rows == db[..] && writes == old(writes) + 1
    {
      rows := db[..];
      writes := writes + 1;
    }
  }

  /**
   * The loop of the payment-failed handler: every record of the loaded list
   * whose subdomain is `subdomain` gets status `payment_failed`, in place.
   */
  method MarkPaymentFailed(db: array<Customer>, subdomain: string)
    modifies db
    ensures db[..] == WithStatus(old(db[..]), subdomain, PAYMENT_FAILED)
  {
    var i := 0;
    while i < db.Length
      invariant 0 <= i <= db.Length
      invariant forall k :: 0 <= k < i ==> db[k] == SetStatus(old(db[k]), subdomain, PAYMENT_FAILED)
      invariant forall k :: i <= k < db.Length ==> db[k] == old(db[k])
    {
      if db[i].subdomain == subdomain {
        db[i] := db[i].(status := Some(PAYMENT_FAILED));
      }
      i := i + 1;
    }
    forall k | 0 <= k < db.Length
      ensures db[..][k] == WithStatus(old(db[..]), subdomain, PAYMENT_FAILED)[k]
    {
      WithStatusAt(old(db[..]), subdomain, PAYMENT_FAILED, k);
    }
  }
}
