/**
 * The HTTP handlers of the service (api.go) as methods over the account
 * table: each is a fixed sequence of checks and store calls that ends in a
 * written response or in an error that makeHttpHandleFunc turns into 400.
 *
 * Inputs that come from outside the program are parameters: `dbFaults[k]`
 * says the database driver fails the k-th query of the request,
 * `txFaults`/`retryable` drive the transfer transaction, `hash`/`matches`
 * stand for bcrypt, `sign`/`validate` for HS256 JWTs, `draw` for
 * rand.Intn(10000) and `now` for the clock.
 */
module Api {
  import opened Wrappers
  import opened Types
  import opened Storage
  import opened Http
  import opened Auth
  import opened Params

  const CouldNotComplete: string := "could not complete request"
  const RereadFailed: string := "Transfer successful, but could not retrieve updated account"
  const NotAuthenticated: string := "Not Authenticated"
  const ErrorProcessing: string := "Error processing request"
  /** Stand-ins for error texts produced by libraries (bcrypt, the SQL driver). */
  const HashErrorText: string := "password hashing failed"
  const DriverErrorText: string := "database error"

  function TransferPayload(body: Option<TransferRequest>): Option<HttpRequest> {
    if body.Some? then Some(Transfer(body.value)) else None
  }

  function DeletePayload(body: Option<DeleteAccountRequest>): Option<HttpRequest> {
    if body.Some? then Some(DeleteAccount(body.value)) else None
  }

  function GetPayload(body: Option<GetAccountRequest>): Option<HttpRequest> {
    if body.Some? then Some(GetAccount(body.value)) else None
  }

  function CreatePayload(body: Option<CreateAccountRequest>): Option<HttpRequest> {
    if body.Some? then Some(CreateAccount(body.value)) else None
  }

  /** handleCreateAccount's default: an empty role becomes "user". */
  function DefaultRole(role: string): (r: string)
    ensures r != ""
    ensures role == "" ==> r == "user"
    ensures role != "" ==> r == role
  {
    if role == "" then "user" else role
  }

  /** The account handleCreateAccount builds from a request. */
  function RequestedAccount(req: CreateAccountRequest, hash: string -> Option<string>, draw: int, now: Time)
    : Result<Account, AccountError>
    requires 0 <= draw < AccountNumberBound
  {
    NewAccount(req.firstName, req.lastName, req.password, DefaultRole(req.role), req.balance, hash, draw, now)
  }

  /**
   * What handleTransfer does, from the table `before` to the table `after`
   * and the response `w`: a 400 when validation fails or the source lacks
   * funds, a 500 when a lookup or the transfer fails (all leaving the table
   * as it was), and after a commit the transferred table with the re-read
   * source (200) or the re-read's failure (500).
   */
  predicate TransferOutcome(ctx: AuthContext, body: Option<TransferRequest>, dbFaults: seq<bool>,
                            txFaults: seq<Option<TxStep>>, retryable: bool,
                            before: seq<Row>, after: seq<Row>, w: ResponseWriter)
  {
    && (DecodeAndValidateRequest(ctx, "user", TransferPayload(body)).Err? ==>
        w == Reply(StatusBadRequest, ErrorJson(CouldNotComplete)) && after == before)
    && (DecodeAndValidateRequest(ctx, "user", TransferPayload(body)).Ok? ==>
        var req := body.value;
        var from := Query(DriverFails(dbFaults, 0), before, ByNumber(req.fromNumber));
        var to := Query(DriverFails(dbFaults, 1), before, ByNumber(req.toNumber));
        && (from.Err? ==>
              w == Reply(StatusInternalServerError, ErrorJson(CouldNotComplete)) && after == before)
        && (from.Ok? && from.value.balance < req.amount ==>
              w == Reply(StatusBadRequest, ErrorJson(CouldNotComplete)) && after == before)
        && (from.Ok? && req.amount <= from.value.balance && to.Err? ==>
              w == Reply(StatusInternalServerError, ErrorJson(CouldNotComplete)) && after == before)
        && (from.Ok? && req.amount <= from.value.balance && to.Ok? && !TransferCommits(txFaults, retryable) ==>
              w == Reply(StatusInternalServerError, ErrorJson(CouldNotComplete)) && after == before)
        && (from.Ok? && req.amount <= from.value.balance && to.Ok? && TransferCommits(txFaults, retryable) ==>
              && after == TransferredRows(before, from.value, to.value, req.amount)
              && var reread := Query(DriverFails(dbFaults, 2), after, ByNumber(req.fromNumber));
              && (reread.Err? ==> w == Reply(StatusInternalServerError, ErrorJson(RereadFailed)))
              && (reread.Ok? ==> w == Reply(StatusOK, AccountJson(View(reread.value))))))
  }

  class ApiServer {
    const store: PostgressStore

    constructor (store: PostgressStore)
      ensures this.store == store
    {
      this.store := store;
    }

    /**
     * handleTransfer: validate (400), look up the source (500), check its
     * funds (400), look up the destination (500), transfer (500), then re-read
     * the source (500) and return it (200). Only the last two steps follow a
     * change of the table.
     */
    method HandleTransfer(ctx: AuthContext, body: Option<TransferRequest>, dbFaults: seq<bool>,
                          txFaults: seq<Option<TxStep>>, retryable: bool)
      returns (w: ResponseWriter, err: Option<string>)
      requires store.Valid()
      modifies store
      ensures store.Valid() && err.None?
      ensures store.nextId == old(store.nextId)
      ensures TransferOutcome(ctx, body, dbFaults, txFaults, retryable, old(store.rows), store.rows, w)
      // what a successful transfer reports: the source debited, or for a self-transfer credited
      ensures w.Status() == StatusOK ==>
        var req := body.value;
        var from := Query(DriverFails(dbFaults, 0), old(store.rows), ByNumber(req.fromNumber)).value;
        var to := Query(DriverFails(dbFaults, 1), old(store.rows), ByNumber(req.toNumber)).value;
        && w.bodies[0].AccountJson?
        && w.bodies[0].account.number == req.fromNumber
        && (req.fromNumber != req.toNumber ==> w.bodies[0].account.balance == from.balance - req.amount)
        && (req.fromNumber == req.toNumber ==>
              w.bodies[0].account.balance == WrapAdd(to.balance, req.amount))
    {
      err := None;
      var validated := DecodeAndValidateRequest(ctx, "user", TransferPayload(body));
      if validated.Err? {
        return Reply(StatusBadRequest, ErrorJson(CouldNotComplete)), err;
      }
      var req := body.value;

      var fromAccount := store.GetAccountByNumber(req.fromNumber, DriverFails(dbFaults, 0));
      if fromAccount.Err? {
        return Reply(StatusInternalServerError, ErrorJson(CouldNotComplete)), err;
      }
      if fromAccount.value.balance < req.amount {
        return Reply(StatusBadRequest, ErrorJson(CouldNotComplete)), err;
      }

      var toAccount := store.GetAccountByNumber(req.toNumber, DriverFails(dbFaults, 1));
      if toAccount.Err? {
        return Reply(StatusInternalServerError, ErrorJson(CouldNotComplete)), err;
      }
      ghost var before := store.rows;
      var transferred, _ := store.TransferMoney(fromAccount.value, toAccount.value, req.amount, txFaults, retryable);
      if transferred.Fail? {
        return Reply(StatusInternalServerError, ErrorJson(CouldNotComplete)), err;
      }

      var updated := store.GetAccountByNumber(req.fromNumber, DriverFails(dbFaults, 2));
      if updated.Err? {
        return Reply(StatusInternalServerError, ErrorJson(RereadFailed)), err;
      }
      LookupFindsMatch(store.rows, ByNumber(req.fromNumber));
      if req.fromNumber != req.toNumber {
        TransferDebitsSource(before, fromAccount.value, toAccount.value, req.amount);
      }
      if req.fromNumber == req.toNumber {
        SelfTransferSecondWriteWins(before, fromAccount.value, toAccount.value, req.amount);
      }
      w := Reply(StatusOK, AccountJson(View(updated.value)));
    }

    /**
     * handleCreateAccount: admin scope; an empty role becomes "user"; the new
     * account is inserted and returned with its id. Every failure is returned
     * as an error, which becomes 400.
     */
    method HandleCreateAccount(ctx: AuthContext, body: Option<CreateAccountRequest>,
                               hash: string -> Option<string>, draw: int, now: Time, dbFaults: seq<bool>)
      returns (w: ResponseWriter, err: Option<string>)
      requires store.Valid()
      requires 0 <= draw < AccountNumberBound
      modifies store
      ensures store.Valid()
      ensures err.Some? <==> w == NewWriter
      ensures err.Some? ==> store.rows == old(store.rows) && store.nextId == old(store.nextId)
      ensures err.None? ==> store.nextId == old(store.nextId) + 1
      ensures var v := DecodeAndValidateRequest(ctx, "admin", CreatePayload(body));
        v.Err? ==> err == Some(RequestErrorMessage(v.error))
      ensures DecodeAndValidateRequest(ctx, "admin", CreatePayload(body)).Ok? ==>
        var acc := RequestedAccount(body.value, hash, draw, now);
        && (acc.Err? ==> err == Some(HashErrorText))
        && (acc.Ok? && DriverFails(dbFaults, 0) ==> err == Some(DriverErrorText))
        && (acc.Ok? && !DriverFails(dbFaults, 0) ==>
              && err.None?
              && store.rows == old(store.rows) + [InsertedRow(acc.value, old(store.nextId))]
              && w == Reply(StatusOK, AccountJson(View(acc.value.(id := old(store.nextId))))))
      // the response shows the defaulted role, even though the table keeps no role
      ensures err.None? ==> w.bodies[0].AccountJson? && w.bodies[0].account.role == DefaultRole(body.value.role)
    {
      var validated := DecodeAndValidateRequest(ctx, "admin", CreatePayload(body));
      if validated.Err? {
        return NewWriter, Some(RequestErrorMessage(validated.error));
      }
      var req := body.value;
      if req.role == "" {
        req := req.(role := "user");
      }
      var account := NewAccount(req.firstName, req.lastName, req.password, req.role, req.balance, hash, draw, now);
      if account.Err? {
        return NewWriter, Some(HashErrorText);
      }
      var created := store.CreateAccount(account.value, DriverFails(dbFaults, 0));
      if created.Err? {
        return NewWriter, Some(DriverErrorText);
      }
      w, err := Reply(StatusOK, AccountJson(View(created.value))), None;
    }

    /**
     * handleDeleteAccount: admin scope and the payload's admin_account must be
     * the caller's own number; the id to delete comes from the path and is
     * not checked against anything. Every failure writes 400 with `{}`.
     */
    method HandleDeleteAccount(ctx: AuthContext, body: Option<DeleteAccountRequest>,
                               vars: map<string, string>, dbFaults: seq<bool>)
      returns (w: ResponseWriter, err: Option<string>)
      requires store.Valid()
      modifies store
      ensures store.Valid() && err.None?
      ensures store.nextId == old(store.nextId)
      ensures w.Status() == StatusOK || w == Reply(StatusBadRequest, EmptyJson)
      ensures w.Status() != StatusOK ==> store.rows == old(store.rows)
      ensures w.Status() == StatusOK <==>
        && DecodeAndValidateRequest(ctx, "admin", DeletePayload(body)).Ok?
        && GetParameter(vars, "id").Some?
        && Atoi(GetParameter(vars, "id").value).Some?
        && !DriverFails(dbFaults, 0)
        && exists j :: 0 <= j < |old(store.rows)| && old(store.rows)[j].id == Atoi(vars["id"]).value
      ensures w.Status() == StatusOK ==>
        var id := Atoi(vars["id"]).value;
        w == Reply(StatusOK, DeletedJson(id)) && store.rows == WithoutId(old(store.rows), id)
    {
      err := None;
      var validated := DecodeAndValidateRequest(ctx, "admin", DeletePayload(body));
      if validated.Err? {
        return Reply(StatusBadRequest, EmptyJson), err;
      }
      var parameter := GetParameter(vars, "id");
      if parameter.None? {
        return Reply(StatusBadRequest, EmptyJson), err;
      }
      var id := Atoi(parameter.value);
      if id.None? {
        return Reply(StatusBadRequest, EmptyJson), err;
      }
      var deleted := store.DeleteAccount(id.value, DriverFails(dbFaults, 0));
      if deleted.Fail? {
        return Reply(StatusBadRequest, EmptyJson), err;
      }
      w := Reply(StatusOK, DeletedJson(id.value));
    }

    /**
     * handleLogin: every failure, whatever its cause, is the same
     * "Not Authenticated" error; success returns the number and a token.
     */
    method HandleLogin(body: Option<LoginRequest>, dbFaults: seq<bool>, matches: (string, string) -> bool,
                       secret: string, sign: (Claims, string) -> string, now: Time)
      returns (w: ResponseWriter, err: Option<string>)
      requires store.Valid()
      ensures err.Some? ==> err == Some(NotAuthenticated) && w == NewWriter
      ensures err.None? <==>
        && body.Some?
        && Query(DriverFails(dbFaults, 0), store.rows, ByNumber(body.value.number)).Ok?
        && matches(Query(DriverFails(dbFaults, 0), store.rows, ByNumber(body.value.number)).value.encryptedPassword,
                   body.value.password)
        && secret != ""
      ensures err.None? ==>
        var acc := Query(DriverFails(dbFaults, 0), store.rows, ByNumber(body.value.number)).value;
        w == Reply(StatusOK, LoginJson(acc.number, sign(IssuedClaims(acc, now), secret)))
    {
      if body.None? {
        return NewWriter, Some(NotAuthenticated);
      }
      var req := body.value;
      var acc := store.GetAccountByNumber(req.number, DriverFails(dbFaults, 0));
      if acc.Err? {
        return NewWriter, Some(NotAuthenticated);
      }
      if !matches(acc.value.encryptedPassword, req.password) {
        return NewWriter, Some(NotAuthenticated);
      }
      var token := CreateJwt(acc.value, now, secret, sign);
      if token.Err? {
        return NewWriter, Some(NotAuthenticated);
      }
      w, err := Reply(StatusOK, LoginJson(acc.value.number, token.value)), None;
    }

    /** handleGetAccountByNumber: user scope, own number only; every failure is the same error. */
    method HandleGetAccountByNumber(ctx: AuthContext, body: Option<GetAccountRequest>, dbFaults: seq<bool>)
      returns (w: ResponseWriter, err: Option<string>)
      requires store.Valid()
      ensures err.Some? ==> err == Some(ErrorProcessing) && w == NewWriter
      ensures err.None? <==>
        && DecodeAndValidateRequest(ctx, "user", GetPayload(body)).Ok?
        && Query(DriverFails(dbFaults, 0), store.rows, ByNumber(body.value.number)).Ok?
      ensures err.None? ==>
        && body.value.number == ctx.authorizedAccountNumber
        && w == Reply(StatusOK, AccountJson(View(Query(DriverFails(dbFaults, 0), store.rows, ByNumber(body.value.number)).value)))
    {
      var validated := DecodeAndValidateRequest(ctx, "user", GetPayload(body));
      if validated.Err? {
        return NewWriter, Some(ErrorProcessing);
      }
      var account := store.GetAccountByNumber(body.value.number, DriverFails(dbFaults, 0));
      if account.Err? {
        return NewWriter, Some(ErrorProcessing);
      }
      w, err := Reply(StatusOK, AccountJson(View(account.value))), None;
    }

    /** handleGetAccounts: admin scope, and the payload's number must still be the caller's own. */
    method HandleGetAccounts(ctx: AuthContext, body: Option<GetAccountRequest>, dbFaults: seq<bool>)
      returns (w: ResponseWriter, err: Option<string>)
      requires store.Valid()
      ensures DecodeAndValidateRequest(ctx, "admin", GetPayload(body)).Err? ==>
        err == Some(ErrorProcessing) && w == NewWriter
      ensures DecodeAndValidateRequest(ctx, "admin", GetPayload(body)).Ok? && DriverFails(dbFaults, 0) ==>
        err == Some(DriverErrorText) && w == NewWriter
      ensures err.None? <==> DecodeAndValidateRequest(ctx, "admin", GetPayload(body)).Ok? && !DriverFails(dbFaults, 0)
      ensures err.None? ==> w.Status() == StatusOK && |w.bodies| == 1 && w.bodies[0].AccountListJson?
      ensures err.None? ==>
        var views := w.bodies[0].accounts;
        && |views| == |store.rows|
        && forall i :: 0 <= i < |views| ==> views[i] == View(ScanIntoAccount(store.rows[i]))
    {
      var validated := DecodeAndValidateRequest(ctx, "admin", GetPayload(body));
      if validated.Err? {
        return NewWriter, Some(ErrorProcessing);
      }
      var accounts := store.GetAccounts(DriverFails(dbFaults, 0));
      if accounts.Err? {
        return NewWriter, Some(DriverErrorText);
      }
      var views := seq(|accounts.value|, i requires 0 <= i < |accounts.value| => View(accounts.value[i]));
      w, err := Reply(StatusOK, AccountListJson(views)), None;
    }

    /**
     * POST /login as routed: the handler behind makeHttpHandleFunc. Any
     * failure reaches the client as 400 with the one generic message.
     */
    method ServeLogin(body: Option<LoginRequest>, dbFaults: seq<bool>, matches: (string, string) -> bool,
                      secret: string, sign: (Claims, string) -> string, now: Time)
      returns (w: ResponseWriter)
      requires store.Valid()
      ensures w.Status() == StatusOK || w == Reply(StatusBadRequest, ErrorJson(NotAuthenticated))
      ensures w.Status() == StatusOK <==>
        && body.Some?
        && Query(DriverFails(dbFaults, 0), store.rows, ByNumber(body.value.number)).Ok?
        && matches(Query(DriverFails(dbFaults, 0), store.rows, ByNumber(body.value.number)).value.encryptedPassword,
                   body.value.password)
        && secret != ""
      ensures w.Status() == StatusOK ==>
        var acc := Query(DriverFails(dbFaults, 0), store.rows, ByNumber(body.value.number)).value;
        w == Reply(StatusOK, LoginJson(acc.number, sign(IssuedClaims(acc, now), secret)))
    {
      var hw, err := HandleLogin(body, dbFaults, matches, secret, sign, now);
      w := MakeHttpHandleFunc(hw, err);
    }

    /**
     * POST /transfer as routed: jwtAuthMiddleware, then the handler behind
     * makeHttpHandleFunc. A rejected token never reaches the handler and so
     * never touches the table.
     */
    method ServeTransfer(token: string, secret: string, validate: (string, string) -> Option<Claims>,
                         body: Option<TransferRequest>, dbFaults: seq<bool>,
                         txFaults: seq<Option<TxStep>>, retryable: bool)
      returns (w: ResponseWriter)
      requires store.Valid()
      modifies store
      ensures store.Valid() && store.nextId == old(store.nextId)
      ensures var g := JwtAuthMiddleware(token, secret, validate);
        g.Rejected? ==> w == g.w && store.rows == old(store.rows)
      ensures var g := JwtAuthMiddleware(token, secret, validate);
        g.Admitted? ==> TransferOutcome(g.ctx, body, dbFaults, txFaults, retryable, old(store.rows), store.rows, w)
      ensures token == "" ==> w.Status() == StatusUnauthorized
      ensures token != "" && validate(token, secret).None? ==> w.Status() == StatusForbidden
      ensures store.rows != old(store.rows) ==>
        var g := JwtAuthMiddleware(token, secret, validate);
        g.Admitted? && body.Some? && body.value.fromNumber == g.ctx.authorizedAccountNumber
    {
      var gate := JwtAuthMiddleware(token, secret, validate);
      if gate.Rejected? {
        return gate.w;
      }
      var hw, err := HandleTransfer(gate.ctx, body, dbFaults, txFaults, retryable);
      w := MakeHttpHandleFunc(hw, err);
    }
  }

  /**
   * Accounts read from the table have no role, so the token a login issues
   * carries role "" (a string, hence not defaulted): its bearer passes no
   * admin-scope check, whatever account it belongs to.
   */
  lemma LoginTokensNeverPassAdminScope(row: Row, now: Time, secret: string, sign: (Claims, string) -> string,
                                       validate: (string, string) -> Option<Claims>, body: Option<HttpRequest>)
    requires secret != ""
    requires var acc := ScanIntoAccount(row);
             sign(IssuedClaims(acc, now), secret) != ""
             && validate(sign(IssuedClaims(acc, now), secret), secret) == Some(IssuedClaims(acc, now))
    ensures var g := JwtAuthMiddleware(sign(IssuedClaims(ScanIntoAccount(row), now), secret), secret, validate);
            g.Admitted? && g.ctx.role == "" && g.ctx.authorizedAccountNumber == row.number
            && DecodeAndValidateRequest(g.ctx, "admin", body) == Err(InsufficientPermissions)
  {
    IssuedTokenAdmits(ScanIntoAccount(row), now, secret, sign, validate);
  }

  /**
   * The request of the transfer test, run on a real table rather than a
   * mock: 500 from account 9901 (balance 1000) to account 9902 (balance 1)
   * leaves 500 and 501 and answers with 9901.
   */
  method TransferScenario()
  {
    var store := new PostgressStore();
    var server := new ApiServer(store);
    var john := Account(0, "John", "Doe", 9901, "hash", 1000, "user", 0);
    var doe := Account(0, "Doe", "John", 9902, "hash", 1, "user", 0);
    var c1 := store.CreateAccount(john, false);
    var c2 := store.CreateAccount(doe, false);
    assert store.rows == [InsertedRow(john, 1), InsertedRow(doe, 2)];
    assert Lookup(store.rows, ByNumber(9901)) == Ok(john.(id := 1, role := ""));
    assert store.rows[1..] == [InsertedRow(doe, 2)];
    assert FirstMatch(store.rows, ByNumber(9902)) == Some(1);
    var w, err := server.HandleTransfer(AuthContext("user", 9901), Some(TransferRequest(9901, 9902, 500)), [], [], false);
    assert TransferCommits([], false) by { assert FaultAt([], 0).None?; }
    assert store.rows == [InsertedRow(john, 1).(balance := 500), InsertedRow(doe, 2).(balance := 501)];
    assert w.Status() == StatusOK;
    assert w.bodies[0].account.number == 9901 && w.bodies[0].account.balance == 500;
  }
}
