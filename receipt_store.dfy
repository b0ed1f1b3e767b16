/** The receipt repository over a database context: receipts added are
    staged, and a save commits them all at once. The database's schema is
    the backstop for the uniqueness of order numbers: a unique index on
    OrderNumber, the primary key Id, and a TransactionId column that may not
    be null. */
module ReceiptStore {
  import opened Wrappers
  import opened Models

  ghost predicate HasOrderNumber(s: seq<Receipt>, orderNumber: string) {
    exists i :: 0 <= i < |s| && s[i].orderNumber == orderNumber
  }

  predicate UniqueOrderNumbers(s: seq<Receipt>) {
    forall i, j | 0 <= i < j < |s| :: s[i].orderNumber != s[j].orderNumber
  }

  predicate UniqueIds(s: seq<Receipt>) {
    forall i, j | 0 <= i < j < |s| :: s[i].id != s[j].id
  }

  /** No receipt of `s` has this id. */
  predicate IdUnused(s: seq<Receipt>, id: string) {
    forall i | 0 <= i < |s| :: s[i].id != id
  }

  /** The rows the schema admits: both unique constraints hold and every row
      carries its non-null TransactionId. */
  predicate Consistent(s: seq<Receipt>) {
    && UniqueOrderNumbers(s)
    && UniqueIds(s)
    && forall i | 0 <= i < |s| :: s[i].transactionId.Some?
  }

  /** The first receipt of `s` with the given order number, if any. */
  function Find(s: seq<Receipt>, orderNumber: string): (r: Option<Receipt>)
    ensures r.Some? <==> HasOrderNumber(s, orderNumber)
    ensures r.Some? ==> exists k :: 0 <= k < |s| && s[k] == r.value && s[k].orderNumber == orderNumber
                                 && forall j :: 0 <= j < k ==> s[j].orderNumber != orderNumber
  {
    if |s| == 0 then None
    else if s[0].orderNumber == orderNumber then Some(s[0])
    else
      var rest := Find(s[1..], orderNumber);
      assert forall j :: 1 <= j < |s| ==> s[j] == s[1..][j - 1];
      rest
  }

  /** With unique order numbers, every committed receipt is exactly what its
      order number finds. */
  lemma FindUnique(s: seq<Receipt>, i: int)
    requires UniqueOrderNumbers(s)
    requires 0 <= i < |s|
    ensures Find(s, s[i].orderNumber) == Some(s[i])
  {
  }

  /** A commit that would give an existing order number a second row breaks
      the unique index, whatever else is committed with it. */
  lemma DuplicateNeverCommitted(committed: seq<Receipt>, staged: seq<Receipt>, k: int)
    requires 0 <= k < |staged|
    requires HasOrderNumber(committed, staged[k].orderNumber)
    ensures !Consistent(committed + staged)
  {
    var i :| 0 <= i < |committed| && committed[i].orderNumber == staged[k].orderNumber;
    var all := committed + staged;
    assert all[i] == committed[i] && all[|committed| + k] == staged[k];
    assert !UniqueOrderNumbers(all);
  }

  /** A single new receipt whose order number and id are both unused, and which
      carries a transaction id, can always be committed, and is then what its
      order number finds. */
  lemma CommitFreshReceipt(committed: seq<Receipt>, receipt: Receipt)
    requires Consistent(committed)
    requires !HasOrderNumber(committed, receipt.orderNumber)
    requires IdUnused(committed, receipt.id)
    requires receipt.transactionId.Some?
    ensures Consistent(committed + [receipt])
    ensures Find(committed + [receipt], receipt.orderNumber) == Some(receipt)
  {
    var all := committed + [receipt];
    assert forall i :: 0 <= i < |committed| ==> all[i] == committed[i];
    assert all[|committed|] == receipt;
    FindUnique(all, |committed|);
  }

  class ReceiptRepository {
    /** Receipts added to the context and not yet saved. */
    var staged: seq<Receipt>
    /** Receipts in the database, in the order they were committed. */
    var committed: seq<Receipt>

    ghost predicate Valid()
      reads this
    {
      Consistent(committed)
    }

    constructor ()
      ensures Valid() && staged == [] && committed == []
    {
      staged, committed := [], [];
    }

    /** Stages a receipt; nothing is checked until the save. */
    method Add(receipt: Receipt)
      modifies this
      ensures staged == old(staged) + [receipt]
      ensures committed == old(committed)
    {
      staged := staged + [receipt];
    }

    /** Commits every staged receipt, or none of them when the schema would be
        violated; a refused save leaves them staged. */
    method SaveChanges() returns (o: Outcome<BillingError>)
      requires Valid()
      modifies this
      ensures Valid()
      ensures o.Pass? <==> Consistent(old(committed) + old(staged))
      ensures o.Pass? ==> committed == old(committed) + old(staged) && staged == []
      ensures o.Fail? ==> o.error == StorageError && committed == old(committed) && staged == old(staged)
    {
      if Consistent(committed + staged) {
        committed, staged := committed + staged, [];
        o := Pass;
      } else {
        o := Fail(StorageError);
      }
    }

    /** Whether a receipt with this order number has been committed. Staged
        receipts do not count. */
    method OrderNumberExists(orderNumber: string) returns (b: bool)
      ensures b <==> HasOrderNumber(committed, orderNumber)
    {
      b := Find(committed, orderNumber).Some?;
    }

    /** The committed receipt with this order number, or None. */
    method GetByOrderNumber(orderNumber: string) returns (r: Option<Receipt>)
      ensures r.Some? <==> HasOrderNumber(committed, orderNumber)
      ensures r.Some? ==> r.value in committed && r.value.orderNumber == orderNumber
      ensures Valid() ==> forall i :: 0 <= i < |committed| && committed[i].orderNumber == orderNumber ==>
                                r == Some(committed[i])
    {
      r := Find(committed, orderNumber);
      if Valid() {
        forall i | 0 <= i < |committed| && committed[i].orderNumber == orderNumber
          ensures r == Some(committed[i])
        {
          FindUnique(committed, i);
        }
      }
    }
  }

  /** Adding a receipt to an empty store and saving makes it findable by its
      order number. */
  method AddThenSaveIsFindable(receipt: Receipt) returns (saved: Outcome<BillingError>, found: Option<Receipt>)
    requires receipt.transactionId.Some?
    ensures saved == Pass
    ensures found == Some(receipt)
  {
    var repository := new ReceiptRepository();
    repository.Add(receipt);
    CommitFreshReceipt([], receipt);
    assert [] + [receipt] == [receipt];
    saved := repository.SaveChanges();
    found := repository.GetByOrderNumber(receipt.orderNumber);
    assert repository.committed[0] == receipt;
  }

  /** Saving a second receipt under an order number already committed is
      refused, and the store keeps only the first. */
  method DuplicateSaveRefused(first: Receipt, second: Receipt) returns (saved: Outcome<BillingError>, found: Option<Receipt>)
    requires first.transactionId.Some?
    requires second.orderNumber == first.orderNumber
    ensures saved == Fail(StorageError)
    ensures found == Some(first)
  {
    var repository := new ReceiptRepository();
    repository.Add(first);
    CommitFreshReceipt([], first);
    assert [] + [first] == [first];
    var _ := repository.SaveChanges();
    assert repository.committed == [first];
    repository.Add(second);
    assert repository.staged == [second];
    DuplicateNeverCommitted([first], [second], 0);
    saved := repository.SaveChanges();
    found := repository.GetByOrderNumber(first.orderNumber);
    assert repository.committed[0] == first;
  }
}
