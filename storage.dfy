/**
 * The account table (storage.go). The SQL table becomes a sequence of rows
 * kept in insertion order; lookups return the first matching row, as the
 * store's `for rows.Next() { return ... }` loops do.
 */
module Storage {
  import opened Wrappers
  import opened Types

  /** One row of the `account` table. There is no role column and no uniqueness constraint on `number`. */
  datatype Row = Row(
    id: int,
    firstName: string,
    lastName: string,
    number: Int64,
    encryptedPassword: string,
    balance: Uint64,
    createdAt: Time)

  /** The columns CreateAccount inserts for `acc`, with the id the table assigns. */
  function InsertedRow(acc: Account, id: int): Row {
    Row(id, acc.firstName, acc.lastName, acc.number, acc.encryptedPassword, acc.balance, acc.createdAt)
  }

  /** scanIntoAccount: every column into its field; Role has no column and stays empty. */
  function ScanIntoAccount(r: Row): (acc: Account)
    ensures acc.role == ""
    ensures InsertedRow(acc, acc.id) == r
  {
    Account(r.id, r.firstName, r.lastName, r.number, r.encryptedPassword, r.balance, "", r.createdAt)
  }

  /** Reading back an inserted account returns it with the assigned id and with its role lost. */
  lemma ReadBackLosesRole(acc: Account, id: int)
    ensures ScanIntoAccount(InsertedRow(acc, id)) == acc.(id := id, role := "")
    ensures acc.role != "" ==> ScanIntoAccount(InsertedRow(acc, id)) != acc.(id := id)
  {
  }

  /** The WHERE clause of a point lookup. */
  datatype Key = ByNumber(number: Int64) | ById(id: int)

  predicate Matches(r: Row, k: Key) {
    match k
    case ByNumber(n) => r.number == n
    case ById(i) => r.id == i
  }

  /** The steps of one transfer transaction, each of which the backend may fail. */
  datatype TxStep = Begin | UpdateSource | UpdateDestination | Commit

  datatype StoreError =
    | DriverError
    | NotFound(key: Key)
    | CouldNotDelete(id: int)
    | TransferFailedAfterRetries(cause: TxStep)

  /** The index of the first row matching `k`, if any. */
  function FirstMatch(rows: seq<Row>, k: Key): (i: Option<nat>)
    ensures i.Some? ==> i.value < |rows| && Matches(rows[i.value], k)
    ensures i.Some? ==> forall j :: 0 <= j < i.value ==> !Matches(rows[j], k)
    ensures i.None? ==> forall j :: 0 <= j < |rows| ==> !Matches(rows[j], k)
  {
    if rows == [] then None
    else if Matches(rows[0], k) then Some(0)
    else match FirstMatch(rows[1..], k)
      case None => None
      case Some(j) => Some(j + 1)
  }

  /** What a point lookup on `rows` answers: the first matching row, read as an account, or NotFound. */
  function Lookup(rows: seq<Row>, k: Key): (r: Result<Account, StoreError>)
    ensures r.Ok? <==> exists j :: 0 <= j < |rows| && Matches(rows[j], k)
    ensures r.Err? ==> r.error == NotFound(k)
  {
    match FirstMatch(rows, k)
    case None => Err(NotFound(k))
    case Some(i) => Ok(ScanIntoAccount(rows[i]))
  }

  /** A lookup whose query the driver may fail before any row is read. */
  function Query(driverError: bool, rows: seq<Row>, k: Key): Result<Account, StoreError> {
    if driverError then Err(DriverError) else Lookup(rows, k)
  }

  /** A successful lookup returns a row that matches, read back without its role. */
  lemma LookupFindsMatch(rows: seq<Row>, k: Key)
    requires Lookup(rows, k).Ok?
    ensures var a := Lookup(rows, k).value;
            a.role == "" && Matches(InsertedRow(a, a.id), k) && InsertedRow(a, a.id) in rows
  {
  }

  /** Every row, read as an account (GetAccounts). */
  function ScanAll(rows: seq<Row>): (accs: seq<Account>)
    ensures |accs| == |rows|
    ensures forall i :: 0 <= i < |rows| ==> accs[i] == ScanIntoAccount(rows[i])
  {
    seq(|rows|, i requires 0 <= i < |rows| => ScanIntoAccount(rows[i]))
  }

  /** Ids are assigned by a sequence: all below `nextId`, positive, pairwise distinct. */
  ghost predicate IdsFresh(rows: seq<Row>, nextId: int) {
    && 1 <= nextId
    && (forall i :: 0 <= i < |rows| ==> 1 <= rows[i].id < nextId)
    && (forall i, j :: 0 <= i < j < |rows| ==> rows[i].id != rows[j].id)
  }

  /** DELETE ... WHERE id = `id`: the rows that survive, in order. */
  function WithoutId(rows: seq<Row>, id: int): (r: seq<Row>)
    ensures |r| <= |rows|
    ensures forall x :: x in r <==> x in rows && x.id != id
    ensures |r| == |rows| <==> forall j :: 0 <= j < |rows| ==> rows[j].id != id
    ensures (forall j :: 0 <= j < |rows| ==> rows[j].id != id) ==> r == rows
  {
    if rows == [] then []
    else if rows[0].id == id then WithoutId(rows[1..], id)
    else [rows[0]] + WithoutId(rows[1..], id)
  }

  /** UPDATE account SET balance = `b` WHERE number = `n`. */
  function SetBalanceWhere(rows: seq<Row>, n: Int64, b: Uint64): (r: seq<Row>)
    ensures |r| == |rows|
    ensures forall i :: 0 <= i < |rows| && rows[i].number == n ==> r[i] == rows[i].(balance := b)
    ensures forall i :: 0 <= i < |rows| && rows[i].number != n ==> r[i] == rows[i]
  {
    if rows == [] then []
    else [if rows[0].number == n then rows[0].(balance := b) else rows[0]] + SetBalanceWhere(rows[1..], n, b)
  }

  /**
   * The table after a committed transfer attempt: every row numbered like the
   * source snapshot gets the snapshot's balance minus `amount` (unsigned, so
   * it wraps), then every row numbered like the destination snapshot gets that
   * snapshot's balance plus `amount`.
   */
  function TransferredRows(rows: seq<Row>, fromAcc: Account, toAcc: Account, amount: Uint64): seq<Row> {
    SetBalanceWhere(
      SetBalanceWhere(rows, fromAcc.number, WrapSub(fromAcc.balance, amount)),
      toAcc.number, WrapAdd(toAcc.balance, amount))
  }

  /** The sum of all balances in the table. */
  function Total(rows: seq<Row>): int {
    if rows == [] then 0 else rows[0].balance + Total(rows[1..])
  }

  /** Row `i` is the only row numbered `n`. */
  predicate OnlyRowNumbered(rows: seq<Row>, n: Int64, i: int) {
    0 <= i < |rows| && rows[i].number == n
    && forall j :: 0 <= j < |rows| && j != i ==> rows[j].number != n
  }

  /** A transfer changes balances only: ids, names, numbers, hashes and timestamps stay. */
  lemma TransferChangesOnlyBalances(rows: seq<Row>, fromAcc: Account, toAcc: Account, amount: Uint64)
    ensures var after := TransferredRows(rows, fromAcc, toAcc, amount);
            |after| == |rows|
            && forall i :: 0 <= i < |rows| ==> after[i] == rows[i].(balance := after[i].balance)
  {
  }

  /** Lookups by number see the same row before and after any rewrite that keeps every row's number. */
  lemma {:induction false} FirstMatchKeepsNumbers(rows: seq<Row>, rows': seq<Row>, n: Int64)
    requires |rows| == |rows'|
    requires forall i :: 0 <= i < |rows| ==> rows'[i].number == rows[i].number
    ensures FirstMatch(rows', ByNumber(n)) == FirstMatch(rows, ByNumber(n))
  {
    if rows != [] {
      FirstMatchKeepsNumbers(rows[1..], rows'[1..], n);
    }
  }

  /**
   * With distinct numbers and enough funds, a lookup after the transfer finds
   * the source at its snapshot minus `amount`, whatever the destination holds.
   */
  lemma TransferDebitsSource(rows: seq<Row>, fromAcc: Account, toAcc: Account, amount: Uint64)
    requires Lookup(rows, ByNumber(fromAcc.number)).Ok?
    requires fromAcc.number != toAcc.number && amount <= fromAcc.balance
    ensures var after := TransferredRows(rows, fromAcc, toAcc, amount);
            && Lookup(after, ByNumber(fromAcc.number)).Ok?
            && Lookup(after, ByNumber(fromAcc.number)).value.balance == fromAcc.balance - amount
  {
    var mid := SetBalanceWhere(rows, fromAcc.number, WrapSub(fromAcc.balance, amount));
    var after := SetBalanceWhere(mid, toAcc.number, WrapAdd(toAcc.balance, amount));
    FirstMatchKeepsNumbers(rows, mid, fromAcc.number);
    FirstMatchKeepsNumbers(mid, after, fromAcc.number);
  }

  /**
   * Conservation of the two-account sum: for distinct numbers, with no
   * wrap-around, a lookup after the transfer finds the source at its snapshot
   * minus `amount` and the destination at its snapshot plus `amount`, so the
   * two balances add up to what the two snapshots held.
   */
  lemma TransferConservesPairSum(rows: seq<Row>, fromAcc: Account, toAcc: Account, amount: Uint64)
    requires Lookup(rows, ByNumber(fromAcc.number)).Ok? && Lookup(rows, ByNumber(toAcc.number)).Ok?
    requires fromAcc.number != toAcc.number
    requires amount <= fromAcc.balance && toAcc.balance + amount < Uint64Modulus
    ensures var after := TransferredRows(rows, fromAcc, toAcc, amount);
            && Lookup(after, ByNumber(fromAcc.number)).Ok?
            && Lookup(after, ByNumber(toAcc.number)).Ok?
            && Lookup(after, ByNumber(fromAcc.number)).value.balance == fromAcc.balance - amount
            && Lookup(after, ByNumber(toAcc.number)).value.balance == toAcc.balance + amount
            && Lookup(after, ByNumber(fromAcc.number)).value.balance
               + Lookup(after, ByNumber(toAcc.number)).value.balance
               == fromAcc.balance + toAcc.balance
  {
    var mid := SetBalanceWhere(rows, fromAcc.number, WrapSub(fromAcc.balance, amount));
    var after := SetBalanceWhere(mid, toAcc.number, WrapAdd(toAcc.balance, amount));
    FirstMatchKeepsNumbers(rows, mid, fromAcc.number);
    FirstMatchKeepsNumbers(mid, after, fromAcc.number);
    FirstMatchKeepsNumbers(rows, mid, toAcc.number);
    FirstMatchKeepsNumbers(mid, after, toAcc.number);
  }

  /**
   * TransferMoney checks no funds: with a snapshot balance below `amount`
   * the unsigned subtraction in Go wraps modulo 2^64, and that is the balance
   * the model writes. For a shortfall of at most 2^63 the wrapped value has
   * the high bit set, which the driver refuses (not modelled); a larger
   * shortfall wraps to a value that fits BIGINT and is written as here,
   * provided the destination's new balance also stays below 2^63.
   */
  lemma UncheckedTransferWraps(rows: seq<Row>, fromAcc: Account, toAcc: Account, amount: Uint64)
    requires Lookup(rows, ByNumber(fromAcc.number)).Ok?
    requires fromAcc.number != toAcc.number && fromAcc.balance < amount
    ensures var after := TransferredRows(rows, fromAcc, toAcc, amount);
            && Lookup(after, ByNumber(fromAcc.number)).Ok?
            && Lookup(after, ByNumber(fromAcc.number)).value.balance == fromAcc.balance - amount + Uint64Modulus
  {
    var mid := SetBalanceWhere(rows, fromAcc.number, WrapSub(fromAcc.balance, amount));
    var after := SetBalanceWhere(mid, toAcc.number, WrapAdd(toAcc.balance, amount));
    FirstMatchKeepsNumbers(rows, mid, fromAcc.number);
    FirstMatchKeepsNumbers(mid, after, fromAcc.number);
  }

  /** When source and destination share a number, the second write wins: the balance becomes the destination snapshot plus `amount`. */
  lemma SelfTransferSecondWriteWins(rows: seq<Row>, fromAcc: Account, toAcc: Account, amount: Uint64)
    requires fromAcc.number == toAcc.number
    requires Lookup(rows, ByNumber(fromAcc.number)).Ok?
    ensures var after := TransferredRows(rows, fromAcc, toAcc, amount);
            && Lookup(after, ByNumber(fromAcc.number)).Ok?
            && Lookup(after, ByNumber(fromAcc.number)).value.balance == WrapAdd(toAcc.balance, amount)
  {
    var mid := SetBalanceWhere(rows, fromAcc.number, WrapSub(fromAcc.balance, amount));
    var after := SetBalanceWhere(mid, toAcc.number, WrapAdd(toAcc.balance, amount));
    FirstMatchKeepsNumbers(rows, mid, fromAcc.number);
    FirstMatchKeepsNumbers(mid, after, fromAcc.number);
  }

  /** Rewriting the balance of no row leaves the table as it was. */
  lemma {:induction false} SetBalanceWhereNoMatch(rows: seq<Row>, n: Int64, b: Uint64)
    requires forall j :: 0 <= j < |rows| ==> rows[j].number != n
    ensures SetBalanceWhere(rows, n, b) == rows
  {
    if rows != [] {
      SetBalanceWhereNoMatch(rows[1..], n, b);
    }
  }

  /** Rewriting the balance of the one row numbered `n` moves the table total by the difference. */
  lemma {:induction false} SetBalanceWhereTotal(rows: seq<Row>, n: Int64, b: Uint64, i: int)
    requires OnlyRowNumbered(rows, n, i)
    ensures Total(SetBalanceWhere(rows, n, b)) == Total(rows) - rows[i].balance + b
  {
    var r := SetBalanceWhere(rows, n, b);
    assert r[1..] == SetBalanceWhere(rows[1..], n, b);
    if i == 0 {
      SetBalanceWhereNoMatch(rows[1..], n, b);
    } else {
      SetBalanceWhereTotal(rows[1..], n, b, i - 1);
    }
  }

  /**
   * Conservation of money in the whole table: when each of the two distinct
   * numbers is carried by exactly one row, the snapshots hold those rows'
   * balances and nothing wraps, a transfer leaves the table total unchanged.
   */
  lemma TransferConservesTotal(rows: seq<Row>, fromAcc: Account, toAcc: Account, amount: Uint64, i: int, j: int)
    requires OnlyRowNumbered(rows, fromAcc.number, i) && OnlyRowNumbered(rows, toAcc.number, j)
    requires fromAcc.number != toAcc.number
    requires rows[i].balance == fromAcc.balance && rows[j].balance == toAcc.balance
    requires amount <= fromAcc.balance && toAcc.balance + amount < Uint64Modulus
    ensures Total(TransferredRows(rows, fromAcc, toAcc, amount)) == Total(rows)
  {
    var mid := SetBalanceWhere(rows, fromAcc.number, WrapSub(fromAcc.balance, amount));
    SetBalanceWhereTotal(rows, fromAcc.number, WrapSub(fromAcc.balance, amount), i);
    assert OnlyRowNumbered(mid, toAcc.number, j);
    SetBalanceWhereTotal(mid, toAcc.number, WrapAdd(toAcc.balance, amount), j);
  }

  /** The number of go-retry retries after the first attempt (`retry.WithMaxRetries(3, b)`). */
  const MaxRetries: nat := 3

  /** How many attempts the retry loop may run: 1 + MaxRetries when go-retry retries the closure's errors, else 1. */
  function AttemptBound(retryable: bool): (n: nat)
    ensures 1 <= n <= 1 + MaxRetries
  {
    if retryable then 1 + MaxRetries else 1
  }

  /** The backend's fault during attempt `k`, if any (attempts past the end of `faults` meet none). */
  function FaultAt(faults: seq<Option<TxStep>>, k: nat): Option<TxStep> {
    if k < |faults| then faults[k] else None
  }

  /** Some attempt within the bound meets no fault, so the transfer commits. */
  predicate TransferCommits(faults: seq<Option<TxStep>>, retryable: bool) {
    exists k :: 0 <= k < AttemptBound(retryable) && FaultAt(faults, k).None?
  }

  /** The driver fails the k-th query of a request. */
  predicate DriverFails(dbFaults: seq<bool>, k: nat) {
    k < |dbFaults| && dbFaults[k]
  }

  class PostgressStore {
    var rows: seq<Row>
    /** The next value of the `id SERIAL` sequence. */
    var nextId: int

    ghost predicate Valid()
      reads this
    {
      IdsFresh(rows, nextId)
    }

    /** A freshly created, empty account table. */
    constructor ()
      ensures Valid() && rows == [] && nextId == 1
    {
      rows := [];
      nextId := 1;
    }

    /** INSERT ... RETURNING ID: appends the account's columns and gives back the account with its new id. */
    method CreateAccount(acc: Account, driverError: bool) returns (r: Result<Account, StoreError>)
      requires Valid()
      modifies this
      ensures Valid()
      ensures driverError ==> r == Err(DriverError) && rows == old(rows) && nextId == old(nextId)
      ensures !driverError ==>
        && r == Ok(acc.(id := old(nextId)))
        && rows == old(rows) + [InsertedRow(acc, old(nextId))]
        && nextId == old(nextId) + 1
    {
      if driverError {
        return Err(DriverError);
      }
      var id := nextId;
      rows := rows + [InsertedRow(acc, id)];
      nextId := nextId + 1;
      r := Ok(acc.(id := id));
    }

    /** DELETE ... WHERE ID = `id`; fails when no row was affected. */
    method DeleteAccount(id: int, driverError: bool) returns (r: Outcome<StoreError>)
      requires Valid()
      modifies this
      ensures Valid() && nextId == old(nextId)
      ensures driverError ==> r == Fail(DriverError) && rows == old(rows)
      ensures !driverError && (forall j :: 0 <= j < |old(rows)| ==> old(rows)[j].id != id) ==>
        r == Fail(CouldNotDelete(id)) && rows == old(rows)
      ensures !driverError && (exists j :: 0 <= j < |old(rows)| && old(rows)[j].id == id) ==>
        r == Pass && rows == WithoutId(old(rows), id) && |rows| == |old(rows)| - 1
    {
      if driverError {
        return Fail(DriverError);
      }
      var before := rows;
      WithoutIdKeepsIdsFresh(rows, id, nextId);
      rows := WithoutId(rows, id);
      var rowsAffected := |before| - |rows|;
      if rowsAffected == 0 {
        return Fail(CouldNotDelete(id));
      }
      WithoutIdRemovesOne(before, id);
      r := Pass;
    }

    /** UpdateAccount does nothing and reports success. */
    method UpdateAccount(acc: Account) returns (r: Outcome<StoreError>)
      ensures r == Pass
    {
      r := Pass;
    }

    /**
     * One run of the transaction closure. The transaction works on its own
     * copy of the table; only a commit publishes it, and any earlier failure
     * leaves the table as it was (the deferred rollback).
     */
    method Attempt(fromAcc: Account, toAcc: Account, amount: Uint64, fault: Option<TxStep>)
      returns (err: Option<TxStep>)
      requires Valid()
      modifies this
      ensures Valid() && nextId == old(nextId)
      ensures err == fault
      ensures rows == if fault.None? then TransferredRows(old(rows), fromAcc, toAcc, amount) else old(rows)
    {
      if fault == Some(Begin) {
        return Some(Begin);
      }
      var tx := rows;
      if fault == Some(UpdateSource) {
        return Some(UpdateSource);
      }
      tx := SetBalanceWhere(tx, fromAcc.number, WrapSub(fromAcc.balance, amount));
      if fault == Some(UpdateDestination) {
        return Some(UpdateDestination);
      }
      tx := SetBalanceWhere(tx, toAcc.number, WrapAdd(toAcc.balance, amount));
      if fault == Some(Commit) {
        return Some(Commit);
      }
      assert fault.None? by {
        if fault.Some? {
          match fault.value
          case Begin =>
          case UpdateSource =>
          case UpdateDestination =>
          case Commit =>
        }
      }
      rows := tx;
      err := None;
    }

    /**
     * TransferMoney: runs the transaction closure under the retry policy.
     * `faults[k]` is the step the backend fails in attempt k; `retryable`
     * says whether the retry library retries the closure's errors.
     */
    method TransferMoney(fromAcc: Account, toAcc: Account, amount: Uint64,
                         faults: seq<Option<TxStep>>, retryable: bool)
      returns (r: Outcome<StoreError>, attempts: nat)
      requires Valid()
      modifies this
      ensures Valid() && nextId == old(nextId)
      ensures 1 <= attempts <= AttemptBound(retryable)
      ensures r.Pass? <==> TransferCommits(faults, retryable)
      ensures r.Pass? ==> rows == TransferredRows(old(rows), fromAcc, toAcc, amount)
      ensures r.Pass? ==> FaultAt(faults, attempts - 1).None?
      ensures forall k :: 0 <= k < attempts - 1 ==> FaultAt(faults, k).Some?
      ensures r.Fail? ==> rows == old(rows) && attempts == AttemptBound(retryable)
      ensures r.Fail? ==> r.error == TransferFailedAfterRetries(FaultAt(faults, attempts - 1).value)
    {
      var bound := AttemptBound(retryable);
      attempts := 0;
      while true
        invariant Valid() && nextId == old(nextId)
        invariant rows == old(rows)
        invariant 0 <= attempts < bound
        invariant forall k :: 0 <= k < attempts ==> FaultAt(faults, k).Some?
        decreases bound - attempts
      {
        var err := Attempt(fromAcc, toAcc, amount, FaultAt(faults, attempts));
        attempts := attempts + 1;
        if err.None? {
          return Pass, attempts;
        }
        if attempts == bound {
          return Fail(TransferFailedAfterRetries(err.value)), attempts;
        }
      }
    }

    /** The first row matching `k`, scanned into an account. */
    method FindFirst(k: Key) returns (r: Result<Account, StoreError>)
      requires Valid()
      ensures r == Lookup(rows, k)
    {
      var i := 0;
      while i < |rows|
        invariant 0 <= i <= |rows|
        invariant forall j :: 0 <= j < i ==> !Matches(rows[j], k)
      {
        if Matches(rows[i], k) {
          assert FirstMatch(rows, k) == Some(i);
          return Ok(ScanIntoAccount(rows[i]));
        }
        i := i + 1;
      }
      r := Err(NotFound(k));
    }

    method GetAccountByNumber(number: Int64, driverError: bool) returns (r: Result<Account, StoreError>)
      requires Valid()
      ensures r == Query(driverError, rows, ByNumber(number))
    {
      if driverError {
        return Err(DriverError);
      }
      r := FindFirst(ByNumber(number));
    }

    method GetAccountById(id: int, driverError: bool) returns (r: Result<Account, StoreError>)
      requires Valid()
      ensures r == Query(driverError, rows, ById(id))
    {
      if driverError {
        return Err(DriverError);
      }
      r := FindFirst(ById(id));
    }

    /** SELECT * FROM ACCOUNT, appending each scanned row in turn. */
    method GetAccounts(driverError: bool) returns (r: Result<seq<Account>, StoreError>)
      requires Valid()
      ensures driverError ==> r == Err(DriverError)
      ensures !driverError ==> r.Ok? && r.value == ScanAll(rows)
    {
      if driverError {
        return Err(DriverError);
      }
      var accounts: seq<Account> := [];
      var i := 0;
      while i < |rows|
        invariant 0 <= i <= |rows|
        invariant |accounts| == i
        invariant forall j :: 0 <= j < i ==> accounts[j] == ScanIntoAccount(rows[j])
      {
        accounts := accounts + [ScanIntoAccount(rows[i])];
        i := i + 1;
      }
      r := Ok(accounts);
    }
  }

  /** Deleting rows keeps the id sequence's invariant. */
  lemma {:induction false} WithoutIdKeepsIdsFresh(rows: seq<Row>, id: int, nextId: int)
    requires IdsFresh(rows, nextId)
    ensures IdsFresh(WithoutId(rows, id), nextId)
  {
    if rows != [] {
      var tail := rows[1..];
      TailKeepsIdsFresh(rows, nextId);
      WithoutIdKeepsIdsFresh(tail, id, nextId);
      var rest := WithoutId(tail, id);
      if rows[0].id != id {
        forall x | x in rest ensures x.id != rows[0].id {
          var j :| 0 <= j < |tail| && tail[j] == x;
          assert rows[j + 1] == x;
        }
        ConsKeepsIdsFresh(rows[0], rest, nextId);
      }
    }
  }

  lemma TailKeepsIdsFresh(rows: seq<Row>, nextId: int)
    requires rows != [] && IdsFresh(rows, nextId)
    ensures IdsFresh(rows[1..], nextId)
  {
    var tail := rows[1..];
    forall a, b | 0 <= a < b < |tail| ensures tail[a].id != tail[b].id {
      assert tail[a] == rows[a + 1] && tail[b] == rows[b + 1];
    }
  }

  lemma ConsKeepsIdsFresh(x: Row, rest: seq<Row>, nextId: int)
    requires IdsFresh(rest, nextId) && 1 <= x.id < nextId
    requires forall y :: y in rest ==> y.id != x.id
    ensures IdsFresh([x] + rest, nextId)
  {
    var r := [x] + rest;
    forall a, b | 0 <= a < b < |r| ensures r[a].id != r[b].id {
      assert r[b] == rest[b - 1];
      if a > 0 {
        assert r[a] == rest[a - 1];
      }
    }
    forall a | 0 <= a < |r| ensures 1 <= r[a].id < nextId {
      if a > 0 {
        assert r[a] == rest[a - 1];
      }
    }
  }

  /** Since ids are distinct, deleting an existing id removes exactly one row. */
  lemma {:induction false} WithoutIdRemovesOne(rows: seq<Row>, id: int)
    requires forall i, j :: 0 <= i < j < |rows| ==> rows[i].id != rows[j].id
    requires exists j :: 0 <= j < |rows| && rows[j].id == id
    ensures |WithoutId(rows, id)| == |rows| - 1
  {
    if rows[0].id == id {
      assert forall j :: 0 <= j < |rows[1..]| ==> rows[1..][j].id != id by {
        forall j | 0 <= j < |rows[1..]| ensures rows[1..][j].id != id {
          assert rows[1..][j] == rows[j + 1];
        }
      }
    } else {
      var j :| 0 <= j < |rows| && rows[j].id == id;
      assert rows[1..][j - 1].id == id;
      WithoutIdRemovesOne(rows[1..], id);
    }
  }

  /**
   * After deleting the only row that carries a number, a lookup by that
   * number finds nothing.
   */
  lemma DeleteThenLookupFails(rows: seq<Row>, i: int)
    requires 0 <= i < |rows| && OnlyRowNumbered(rows, rows[i].number, i)
    requires forall a, b :: 0 <= a < b < |rows| ==> rows[a].id != rows[b].id
    ensures Lookup(WithoutId(rows, rows[i].id), ByNumber(rows[i].number)).Err?
  {
    var after := WithoutId(rows, rows[i].id);
    forall x | x in after ensures x.number != rows[i].number {
      var j :| 0 <= j < |rows| && rows[j] == x;
    }
  }
}
