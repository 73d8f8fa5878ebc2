/**
 * The account record, the request payloads and their account numbers, and
 * account construction (types.go).
 */
module Types {
  import opened Wrappers

  const MinInt64: int := -0x8000_0000_0000_0000
  const MaxInt64: int := 0x7fff_ffff_ffff_ffff
  const Uint64Modulus: int := 0x1_0000_0000_0000_0000

  /** Go's `int64`. */
  type Int64 = x: int | MinInt64 <= x <= MaxInt64
  /** Go's `uint64`. */
  type Uint64 = x: int | 0 <= x < Uint64Modulus
  /** A point in time, in seconds; stands for Go's `time.Time`. */
  type Time = int

  /** `rand.Intn(AccountNumberBound)` draws account numbers from [0, AccountNumberBound). */
  const AccountNumberBound: int := 10000

  /** Unsigned 64-bit subtraction: wraps around below zero. */
  function WrapSub(a: Uint64, b: Uint64): (r: Uint64)
    ensures b <= a ==> r == a - b
    ensures a < b ==> r == a - b + Uint64Modulus
  {
    (a - b) % Uint64Modulus
  }

  /** Unsigned 64-bit addition: wraps around above the largest value. */
  function WrapAdd(a: Uint64, b: Uint64): (r: Uint64)
    ensures a + b < Uint64Modulus ==> r == a + b
    ensures Uint64Modulus <= a + b ==> r == a + b - Uint64Modulus
  {
    (a + b) % Uint64Modulus
  }

  datatype Account = Account(
    id: int,
    firstName: string,
    lastName: string,
    number: Int64,
    encryptedPassword: string,
    balance: Uint64,
    role: string,
    createdAt: Time)

  /** What JSON encoding of an Account shows: every field except the password hash (`json:"-"`). */
  datatype AccountView = AccountView(
    id: int,
    firstName: string,
    lastName: string,
    number: Int64,
    balance: Uint64,
    role: string,
    createdAt: Time)

  function View(a: Account): AccountView {
    AccountView(a.id, a.firstName, a.lastName, a.number, a.balance, a.role, a.createdAt)
  }

  /**
   * The outward view of an account is independent of its password hash, and
   * it loses nothing else: two accounts have the same view exactly when they
   * agree on every field but the hash.
   */
  lemma ViewOmitsOnlyPassword(a: Account, b: Account)
    ensures View(a) == View(b) <==> a.(encryptedPassword := "") == b.(encryptedPassword := "")
  {
  }

  datatype TransferRequest = TransferRequest(fromNumber: Int64, toNumber: Int64, amount: Uint64) {
    /** Only the source account is checked against the caller's token. */
    function GetAccountNumber(): Int64 { fromNumber }
  }

  datatype DeleteAccountRequest = DeleteAccountRequest(adminAccount: Int64) {
    function GetAccountNumber(): Int64 { adminAccount }
  }

  datatype GetAccountRequest = GetAccountRequest(number: Int64) {
    function GetAccountNumber(): Int64 { number }
  }

  datatype CreateAccountRequest = CreateAccountRequest(
    firstName: string,
    lastName: string,
    password: string,
    role: string,
    balance: Uint64,
    adminAccount: Int64)
  {
    function GetAccountNumber(): Int64 { adminAccount }
  }

  /** The login payload; it is not an HttpRequest (it has no GetAccountNumber). */
  datatype LoginRequest = LoginRequest(number: Int64, password: string)

  /** The `HttpRequest` interface: the payloads that name the account they act for. */
  datatype HttpRequest =
    | Transfer(transfer: TransferRequest)
    | DeleteAccount(delete: DeleteAccountRequest)
    | GetAccount(get: GetAccountRequest)
    | CreateAccount(create: CreateAccountRequest)
  {
    function GetAccountNumber(): Int64 {
      match this
      case Transfer(t) => t.GetAccountNumber()
      case DeleteAccount(d) => d.GetAccountNumber()
      case GetAccount(g) => g.GetAccountNumber()
      case CreateAccount(c) => c.GetAccountNumber()
    }
  }

  datatype AccountError = HashFailed

  /**
   * NewAccount: `hash` stands for bcrypt.GenerateFromPassword (None when it
   * fails), `draw` for the value of rand.Intn(10000), `now` for time.Now().
   */
  function NewAccount(
    firstName: string, lastName: string, password: string, role: string, balance: Uint64,
    hash: string -> Option<string>, draw: int, now: Time): (r: Result<Account, AccountError>)
    requires 0 <= draw < AccountNumberBound
    ensures r.Err? <==> hash(password).None?
    ensures r.Err? ==> r.error == HashFailed
    ensures r.Ok? ==>
      && r.value.firstName == firstName && r.value.lastName == lastName
      && r.value.role == role && r.value.balance == balance
      && r.value.encryptedPassword == hash(password).value
      && r.value.createdAt == now
    // the id is left at Go's zero value: only the store assigns it
    ensures r.Ok? ==> r.value.id == 0
    ensures r.Ok? ==> 0 <= r.value.number < AccountNumberBound
  {
    match hash(password)
    case None => Err(HashFailed)
    case Some(encpw) => Ok(Account(0, firstName, lastName, draw, encpw, balance, role, now))
  }

  /**
   * Nothing makes account numbers unique: two accounts built from different
   * inputs get the same number when the random draws agree.
   */
  lemma NewAccountNumbersMayCollide(hash: string -> Option<string>, draw: int, now: Time)
    requires 0 <= draw < AccountNumberBound
    requires hash("password").Some?
    ensures var a1 := NewAccount("first", "test", "password", "user", 100, hash, draw, now);
            var a2 := NewAccount("second", "test", "password", "user", 100, hash, draw, now);
            a1.Ok? && a2.Ok? && a1.value.firstName != a2.value.firstName
            && a1.value.number == a2.value.number
  {
  }
}
