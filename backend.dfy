/**
 * The request handlers of the expense API, over an in-memory store of users,
 * categories and expenses.
 *
 * Lookups and filters are functions over the store's tables; the handlers that
 * write to the database are methods of `Store`, each one atomic (the session's
 * add/commit/refresh collapses into one update). Password hashing and the JWT
 * codec come in as a `Security` value of functions.
 */
module Backend {
  import opened Common
  import CsvService

  // ---------------------------------------------------------------------------
  // Records
  // ---------------------------------------------------------------------------

  datatype User = User(id: nat, email: string, username: string, hashedPassword: string)

  datatype Category = Category(id: nat, name: string, description: Option<string>, userId: nat)

  /** A stored expense; its category is `None` (NULL) once that category is deleted. */
  datatype Expense = Expense(
    id: nat,
    amount: real,
    description: string,
    date: DateTime,
    categoryId: Option<int>,
    userId: nat,
    receiptImagePath: Option<string>)

  /** The sign-up form (`UserCreate`). */
  datatype UserCreate = UserCreate(email: string, username: string, password: string)

  /** The body of a category create or update (`CategoryCreate` / `CategoryUpdate`). */
  datatype CategoryPayload = CategoryPayload(name: string, description: Option<string>)

  datatype Token = Token(accessToken: string, tokenType: string)

  /** The claims of a decoded token: `sub` may be absent. */
  datatype Claims = Claims(sub: Option<string>)

  /** What decoding a token gives: its claims, or the exception the JWT library raised. */
  datatype Decoded = Decoded(claims: Claims) | DecodeError(message: string)

  /** Password hashing and the JWT codec used by the handlers. */
  datatype Security = Security(
    hash: string -> string,
    verify: (string, string) -> bool,
    encode: string -> string,
    decode: string -> Decoded)

  /**
   * What the handlers rely on from hashing and tokens: a token made for a name
   * decodes (while unexpired) to that name as subject, and a password verifies
   * against its own hash.
   */
  ghost predicate Sound(sec: Security)
  {
    && (forall name :: sec.decode(sec.encode(name)) == Decoded(Claims(Some(name))))
    && (forall password :: sec.verify(password, sec.hash(password)))
  }

  // ---------------------------------------------------------------------------
  // Errors
  // ---------------------------------------------------------------------------

  datatype ApiError =
    | Http(status: nat, detail: string)  // an HTTPException raised by a handler
    | Raised(message: string)            // any other exception
    | Internal(cause: ApiError)          // HTTPException(500, str(cause)) raised by an `except Exception` block

  /** The status the client sees: an uncaught exception is answered with 500. */
  function Status(e: ApiError): nat
  {
    if e.Http? then e.status else 500
  }

  const CredentialsError: ApiError := Http(401, "Could not validate credentials")
  const LoginError: ApiError := Http(401, "Incorrect username or password")
  const EmailTaken: ApiError := Http(400, "Email already registered")
  const CategoryNotFound: ApiError := Http(404, "Category not found")
  const ReceiptUnreadable: ApiError := Http(400, "Could not extract required information from receipt")
  const InvalidCsv: ApiError := Http(400, "Invalid CSV structure")
  /** The database's unique constraint on `users.username` refusing a second row. */
  const UsernameTaken: ApiError := Raised("UNIQUE constraint failed: users.username")

  const CategoryDeleted: string := "Category deleted successfully"

  /**
   * `except Exception as e: raise HTTPException(status_code=500, detail=str(e))`
   * as written: it also catches the HTTPException the handler raised itself.
   */
  function CaughtAsWritten(e: ApiError): (r: ApiError)
    ensures Status(r) == 500
  {
    Internal(e)
  }

  /**
   * The evident intent of that block: an HTTPException passes through with its
   * own status and detail, anything else becomes a 500 carrying its message.
   */
  function Caught(e: ApiError): (r: ApiError)
    ensures e.Http? ==> r == e
    ensures !e.Http? ==> Status(r) == 500 && r.Internal? && r.cause == e
  {
    if e.Http? then e else Internal(e)
  }

  // ---------------------------------------------------------------------------
  // Lookups
  // ---------------------------------------------------------------------------

  datatype UserKey = ByEmail(email: string) | ByUsername(username: string)

  predicate Matches(u: User, key: UserKey)
  {
    match key
    case ByEmail(e) => u.email == e
    case ByUsername(n) => u.username == n
  }

  /** `db.query(User).filter(...).first()`: the first user with that email or username. */
  function FindUser(users: seq<User>, key: UserKey): (r: Option<User>)
    ensures r.Some? ==> r.value in users && Matches(r.value, key)
    ensures r.None? <==> forall u :: u in users ==> !Matches(u, key)
  {
    if users == [] then None
    else if Matches(users[0], key) then Some(users[0])
    else FindUser(users[1..], key)
  }

  /** The elements of `s` that `keep` accepts, in their order in `s`. */
  function Filter<T(!new)>(s: seq<T>, keep: T -> bool): (r: seq<T>)
    ensures |r| <= |s|
    ensures forall x :: x in r <==> x in s && keep(x)
  {
    if s == [] then []
    else (if keep(s[0]) then [s[0]] else []) + Filter(s[1..], keep)
  }

  /** The expenses owned by user `uid`, in store order. */
  function ExpensesOf(es: seq<Expense>, uid: nat): seq<Expense>
  {
    Filter(es, (e: Expense) => e.userId == uid)
  }

  /** The database's OFFSET: a negative offset counts as none. */
  function Offset(skip: int): nat
  {
    if skip < 0 then 0 else skip
  }

  /** The size of the page `skip`/`limit` cuts from `n` rows; a negative limit means no limit. */
  function PageSize(n: nat, skip: int, limit: int): nat
  {
    if Offset(skip) >= n then 0
    else if limit < 0 || limit >= n - Offset(skip) then n - Offset(skip)
    else limit
  }

  const DefaultSkip: int := 0
  const DefaultLimit: int := 100

  /** The rows `OFFSET skip LIMIT limit` selects from `s`. */
  function Page<T>(s: seq<T>, skip: int, limit: int): (r: seq<T>)
    ensures |r| == PageSize(|s|, skip, limit)
    ensures forall i :: 0 <= i < |r| ==> Offset(skip) + i < |s| && r[i] == s[Offset(skip) + i]
  {
    var rest := if Offset(skip) >= |s| then [] else s[Offset(skip)..];
    if limit < 0 || limit >= |rest| then rest else rest[..limit]
  }

  /** A page holds only rows of what it was cut from. */
  lemma PageWithin<T>(s: seq<T>, skip: int, limit: int)
    ensures forall x :: x in Page(s, skip, limit) ==> x in s
  {
    var r := Page(s, skip, limit);
    forall x | x in r ensures x in s {
      var i :| 0 <= i < |r| && r[i] == x;
      assert s[Offset(skip) + i] == x;
    }
  }

  /** Two consecutive pages are the page that spans both. */
  lemma PagesConcatenate<T>(s: seq<T>, skip: nat, k: nat, l: nat)
    ensures Page(s, skip, k) + Page(s, skip + k, l) == Page(s, skip, k + l)
  {
    var a := Page(s, skip, k);
    var b := Page(s, skip + k, l);
    var c := Page(s, skip, k + l);
    assert |a| + |b| == |c|;
    forall i | 0 <= i < |c| ensures (a + b)[i] == c[i] {
      if i >= |a| {
        assert |a| == k;
        assert (a + b)[i] == b[i - k];
      }
    }
  }

  /**
   * `read_expenses`: only the caller's expenses, the first `skip` of them
   * skipped, at most `limit` returned, in store order.
   */
  function ReadExpenses(es: seq<Expense>, caller: User, skip: int, limit: int): (r: seq<Expense>)
    ensures forall e :: e in r ==> e in es && e.userId == caller.id
    ensures limit >= 0 ==> |r| <= limit
    ensures r == Page(ExpensesOf(es, caller.id), skip, limit)
  {
    PageWithin(ExpensesOf(es, caller.id), skip, limit);
    Page(ExpensesOf(es, caller.id), skip, limit)
  }

  /** With the default paging a caller gets their first 100 expenses, or all of them when fewer. */
  lemma DefaultPageBounded(es: seq<Expense>, caller: User)
    ensures var own := ExpensesOf(es, caller.id);
      ReadExpenses(es, caller, DefaultSkip, DefaultLimit) == if |own| <= 100 then own else own[..100]
  {
  }

  /** Reading the caller's expenses page after page yields them in store order. */
  lemma ReadPagesConcatenate(es: seq<Expense>, caller: User, skip: nat, k: nat, l: nat)
    ensures ReadExpenses(es, caller, skip, k) + ReadExpenses(es, caller, skip + k, l)
         == ReadExpenses(es, caller, skip, k + l)
  {
    PagesConcatenate(ExpensesOf(es, caller.id), skip, k, l);
  }

  /** `get_categories`: exactly the caller's categories. */
  function GetCategories(cs: seq<Category>, caller: User): (r: seq<Category>)
    ensures forall c :: c in r <==> c in cs && c.userId == caller.id
  {
    Filter(cs, (c: Category) => c.userId == caller.id)
  }

  /** The position of the category with that id owned by `uid`, if any. */
  function FindCategory(cs: seq<Category>, id: int, uid: nat): (k: Option<nat>)
    ensures k.Some? ==> k.value < |cs| && cs[k.value].id == id && cs[k.value].userId == uid
    ensures k.Some? ==> forall j :: 0 <= j < k.value ==> !(cs[j].id == id && cs[j].userId == uid)
    ensures k.None? <==> forall c :: c in cs ==> !(c.id == id && c.userId == uid)
  {
    if cs == [] then None
    else if cs[0].id == id && cs[0].userId == uid then Some(0)
    else match FindCategory(cs[1..], id, uid)
      case None => None
      case Some(j) => Some(j + 1)
  }

  // ---------------------------------------------------------------------------
  // Authentication
  // ---------------------------------------------------------------------------

  predicate UsernamesUnique(users: seq<User>)
  {
    forall i, j :: 0 <= i < j < |users| ==> users[i].username != users[j].username
  }

  /** Two users with one username are the same user. */
  lemma SameUsernameSameUser(users: seq<User>, u: User, v: User)
    requires UsernamesUnique(users) && u in users && v in users && u.username == v.username
    ensures u == v
  {
    var i :| 0 <= i < |users| && users[i] == u;
    var j :| 0 <= j < |users| && users[j] == v;
  }

  /**
   * `get_current_user` as written: `jwt.decode` comes from PyJWT, whose errors
   * are not the `JWTError` the block catches, so a token that does not decode
   * escapes as an unhandled exception.
   */
  function CurrentUserAsWritten(sec: Security, users: seq<User>, token: string): (r: Result<User, ApiError>)
    ensures sec.decode(token).DecodeError? ==> r == Failure(Raised(sec.decode(token).message))
    ensures sec.decode(token).Decoded? ==> r == CurrentUser(sec, users, token)
  {
    match sec.decode(token)
    case DecodeError(message) => Failure(Raised(message))
    case Decoded(_) => CurrentUser(sec, users, token)
  }

  /**
   * `get_current_user` as intended: 401 when the token does not decode, has no
   * subject, or names no user; otherwise the user whose username is the subject.
   */
  function CurrentUser(sec: Security, users: seq<User>, token: string): (r: Result<User, ApiError>)
    ensures r.Failure? ==> r.error == CredentialsError
    ensures r.Success? <==> exists u :: u in users && sec.decode(token) == Decoded(Claims(Some(u.username)))
    ensures r.Success? ==> r.value in users && sec.decode(token) == Decoded(Claims(Some(r.value.username)))
  {
    match sec.decode(token)
    case DecodeError(_) => Failure(CredentialsError)
    case Decoded(claims) =>
      match claims.sub
      case None => Failure(CredentialsError)
      case Some(name) =>
        match FindUser(users, ByUsername(name))
        case None => Failure(CredentialsError)
        case Some(u) => Success(u)
  }

  /** As written, a token the JWT library cannot decode is answered with 500, not 401. */
  lemma UndecodableTokenAnswers500AsWritten(sec: Security, users: seq<User>, token: string)
    requires sec.decode(token).DecodeError?
    ensures CurrentUserAsWritten(sec, users, token).Failure?
    ensures Status(CurrentUserAsWritten(sec, users, token).error) == 500
    ensures CurrentUser(sec, users, token) == Failure(CredentialsError)
  {
  }

  /**
   * `login_for_access_token`: a bearer token whose subject is the username
   * when a user of that name exists and the password verifies against its
   * stored hash; 401 otherwise.
   */
  function Login(sec: Security, users: seq<User>, username: string, password: string): (r: Result<Token, ApiError>)
    requires UsernamesUnique(users)
    ensures r.Success? <==> exists u :: u in users && u.username == username && sec.verify(password, u.hashedPassword)
    ensures r.Success? ==> r.value == Token(sec.encode(username), "bearer")
    ensures r.Failure? ==> r.error == LoginError
  {
    match FindUser(users, ByUsername(username))
    case None => Failure(LoginError)
    case Some(u) =>
      if sec.verify(password, u.hashedPassword) then
        Success(Token(sec.encode(u.username), "bearer"))
      else
        (forall v | v in users && v.username == username ensures !sec.verify(password, v.hashedPassword) {
           SameUsernameSameUser(users, u, v);
         }
         Failure(LoginError))
  }

  /** The token a successful login hands out resolves back to the user who logged in. */
  lemma LoginThenCurrentUser(sec: Security, users: seq<User>, username: string, password: string)
    requires Sound(sec) && UsernamesUnique(users)
    requires Login(sec, users, username, password).Success?
    ensures var token := Login(sec, users, username, password).value.accessToken;
      && CurrentUser(sec, users, token).Success?
      && CurrentUser(sec, users, token).value.username == username
      && sec.verify(password, CurrentUser(sec, users, token).value.hashedPassword)
  {
    var token := Login(sec, users, username, password).value.accessToken;
    var u :| u in users && u.username == username && sec.verify(password, u.hashedPassword);
    assert sec.decode(token) == Decoded(Claims(Some(username)));
    var v := CurrentUser(sec, users, token).value;
    SameUsernameSameUser(users, u, v);
  }

  // ---------------------------------------------------------------------------
  // Receipts and CSV import
  // ---------------------------------------------------------------------------

  /** What the OCR step extracted from a receipt image. */
  datatype ReceiptData = ReceiptData(amount: Option<real>, date: Option<DateTime>, storeName: Option<string>)

  /**
   * The acceptance rule of `process_receipt`: an expense only when a non-zero
   * amount (Python truthiness) and a date were extracted, described by the
   * store name or "Receipt" when that is empty, in the default category.
   */
  function ReceiptDraft(data: ReceiptData): (r: Result<CsvService.ExpenseCreate, ApiError>)
    ensures r.Success? <==> data.amount.Some? && data.amount.value != 0.0 && data.date.Some?
    ensures r.Failure? ==> r.error == ReceiptUnreadable
    ensures r.Success? ==> r.value.amount == data.amount.value && r.value.date == data.date.value
    ensures r.Success? ==> r.value.categoryId == CsvService.DefaultCategoryId
    ensures r.Success? ==> r.value.description != ""
    ensures r.Success? && Truthy(data.storeName) ==> r.value.description == data.storeName.value
    ensures r.Success? && !Truthy(data.storeName) ==> r.value.description == "Receipt"
  {
    if data.amount.Some? && data.amount.value != 0.0 && data.date.Some? then
      var description := if Truthy(data.storeName) then data.storeName.value else "Receipt";
      Success(CsvService.ExpenseCreate(data.amount.value, description, data.date.value, CsvService.DefaultCategoryId))
    else
      Failure(ReceiptUnreadable)
  }

  /** The outcome of the `try` block of `process_receipt` as written; `ocr` fails with the OCR step's message. */
  function ReceiptOutcomeAsWritten(ocr: Result<ReceiptData, string>): (r: Result<CsvService.ExpenseCreate, ApiError>)
    ensures r.Failure? ==> Status(r.error) == 500
  {
    match ocr
    case Failure(message) => Failure(CaughtAsWritten(Raised(message)))
    case Success(data) =>
      match ReceiptDraft(data)
      case Success(draft) => Success(draft)
      case Failure(e) => Failure(CaughtAsWritten(e))
  }

  /** As written, a receipt with nothing extracted is answered with 500, not the 400 the handler raises. */
  lemma UnreadableReceiptAnswers500AsWritten()
    ensures var r := ReceiptOutcomeAsWritten(Success(ReceiptData(None, None, None)));
      r.Failure? && Status(r.error) == 500 && r.error.cause == ReceiptUnreadable
  {
  }

  /** The outcome of `process_receipt` as intended: a rejected receipt keeps its 400. */
  function ReceiptOutcome(ocr: Result<ReceiptData, string>): (r: Result<CsvService.ExpenseCreate, ApiError>)
    ensures ocr.Failure? ==> r.Failure? && Status(r.error) == 500
    ensures ocr.Success? ==> r == ReceiptDraft(ocr.value)
    ensures ocr.Success? && r.Failure? ==> Status(r.error) == 400
  {
    match ocr
    case Failure(message) => Failure(Caught(Raised(message)))
    case Success(data) =>
      match ReceiptDraft(data)
      case Success(draft) => Success(draft)
      case Failure(e) => Failure(Caught(e))
  }

  /** The header row `validate_csv` sees: `None` when the file cannot be read. */
  function Headers(file: Option<CsvService.Table>): Option<seq<string>>
  {
    if file.Some? then Some(file.value.columns) else None
  }

  /** The structure gate of `import_csv` as written: its 400 is caught and re-raised as 500. */
  function ImportGateAsWritten(file: Option<CsvService.Table>): (r: Option<ApiError>)
    ensures r.Some? <==> !CsvService.ValidateCsv(Headers(file))
    ensures r.Some? ==> Status(r.value) == 500
  {
    if CsvService.ValidateCsv(Headers(file)) then None else Some(CaughtAsWritten(InvalidCsv))
  }

  /** As written, an upload that cannot be read as CSV is answered with 500, not 400. */
  lemma UnreadableUploadAnswers500AsWritten()
    ensures ImportGateAsWritten(None) == Some(Internal(InvalidCsv))
    ensures Status(ImportGateAsWritten(None).value) == 500
    ensures ImportGate(None) == Some(InvalidCsv)
  {
  }

  /** The structure gate of `import_csv` as intended: a malformed file is a 400. */
  function ImportGate(file: Option<CsvService.Table>): (r: Option<ApiError>)
    ensures r.Some? <==> !CsvService.ValidateCsv(Headers(file))
    ensures r.Some? ==> r.value == InvalidCsv && Status(r.value) == 400
    ensures r.None? ==> file.Some?
  {
    if CsvService.ValidateCsv(Headers(file)) then None else Some(Caught(InvalidCsv))
  }

  /**
   * The parsing half of `import_csv` as intended (built on `ImportGate`, not on
   * `ImportGateAsWritten`): the structure gate, whose refusal stays a 400, then
   * the importer, whose errors surface as a 500 carrying the importer's message.
   */
  method ParseUpload(file: Option<CsvService.Table>) returns (r: Result<seq<CsvService.ExpenseCreate>, ApiError>)
    requires file.Some? ==> CsvService.WellFormed(file.value)
    ensures !CsvService.ValidateCsv(Headers(file)) ==> r == Failure(InvalidCsv)
    ensures CsvService.ValidateCsv(Headers(file)) ==> (r.Success? <==> CsvService.Convertible(file.value))
    ensures r.Failure? && CsvService.ValidateCsv(Headers(file)) ==>
      r.error.Internal? && Status(r.error) == 500 && r.error.cause.Raised?
      && |r.error.cause.message| >= |CsvService.ErrorPrefix|
      && r.error.cause.message[..|CsvService.ErrorPrefix|] == CsvService.ErrorPrefix
    ensures r.Success? ==> r.value == CsvService.FileExpenses(file.value)
  {
    var gate := ImportGate(file);
    if gate.Some? {
      return Failure(gate.value);
    }
    var parsed := CsvService.ProcessCsv(file.value);
    if parsed.Failure? {
      return Failure(Caught(Raised(CsvService.Message(parsed.error))));
    }
    return Success(parsed.value);
  }

  /** The stored row made from a payload for the caller. */
  function Stored(x: CsvService.ExpenseCreate, id: nat, uid: nat, path: Option<string>): Expense
  {
    Expense(id, x.amount, x.description, x.date, Some(x.categoryId), uid, path)
  }

  /** The rows stored for a batch of payloads: consecutive ids from `firstId`, all owned by `uid`. */
  function StoreAll(xs: seq<CsvService.ExpenseCreate>, firstId: nat, uid: nat): (r: seq<Expense>)
    ensures |r| == |xs|
    ensures forall i :: 0 <= i < |r| ==> r[i] == Stored(xs[i], firstId + i, uid, None)
  {
    seq(|xs|, i requires 0 <= i < |xs| => Stored(xs[i], firstId + i, uid, None))
  }

  // ---------------------------------------------------------------------------
  // The store and the handlers that write to it
  // ---------------------------------------------------------------------------

  ghost predicate UsersDistinct(users: seq<User>)
  {
    forall i, j :: 0 <= i < j < |users| ==>
      users[i].id != users[j].id && users[i].email != users[j].email && users[i].username != users[j].username
  }

  ghost predicate CategoryIdsDistinct(cs: seq<Category>)
  {
    forall i, j :: 0 <= i < j < |cs| ==> cs[i].id != cs[j].id
  }

  ghost predicate ExpenseIdsDistinct(es: seq<Expense>)
  {
    forall i, j :: 0 <= i < j < |es| ==> es[i].id != es[j].id
  }

  /** Removing the row at `k` keeps ids distinct and keeps every row not equal to the removed one. */
  lemma RemoveKeepsOthers(cs: seq<Category>, k: nat)
    requires k < |cs| && CategoryIdsDistinct(cs)
    ensures CategoryIdsDistinct(cs[..k] + cs[k + 1..])
    ensures forall c :: c in cs[..k] + cs[k + 1..] ==> c in cs
    ensures forall c :: c in cs && c != cs[k] ==> c in cs[..k] + cs[k + 1..]
  {
    var r := cs[..k] + cs[k + 1..];
    assert forall j :: 0 <= j < |r| ==> r[j] == if j < k then cs[j] else cs[j + 1];
    forall c | c in cs && c != cs[k] ensures c in r {
      var j :| 0 <= j < |cs| && cs[j] == c;
      if j < k {
        assert r[j] == c;
      } else {
        assert r[j - 1] == c;
      }
    }
  }

  /**
   * The expenses after the category `id` is deleted: the ORM loads the
   * category's `expenses` relationship, which has no delete cascade, and sets
   * `category_id` to NULL on each of them, whoever owns them. Every other
   * column, and every expense of another category, is left as it was.
   */
  function Unlinked(es: seq<Expense>, id: nat): (r: seq<Expense>)
    ensures |r| == |es|
    ensures forall i :: 0 <= i < |es| ==> r[i].categoryId != Some(id)
    ensures forall i :: 0 <= i < |es| ==> r[i] == es[i].(categoryId := r[i].categoryId)
    ensures forall i :: 0 <= i < |es| && es[i].categoryId != Some(id) ==> r[i] == es[i]
  {
    seq(|es|, i requires 0 <= i < |es| =>
      if es[i].categoryId == Some(id) then es[i].(categoryId := None) else es[i])
  }

  /**
   * Deleting a category the caller owns also rewrites another user's expense
   * filed under that id, as happens with category 1, where every imported and
   * receipt-made expense of every user is filed.
   */
  lemma DeleteReachesOtherUsers(es: seq<Expense>, id: nat, caller: nat, k: nat)
    requires k < |es| && es[k].categoryId == Some(id) && es[k].userId != caller
    ensures Unlinked(es, id)[k] != es[k] && Unlinked(es, id)[k].userId != caller
    ensures Unlinked(es, id)[k].categoryId.None?
  {
  }

  /** Clearing categories changes no expense id. */
  lemma UnlinkedKeepsIds(es: seq<Expense>, id: nat)
    requires ExpenseIdsDistinct(es)
    ensures ExpenseIdsDistinct(Unlinked(es, id))
    ensures forall e :: e in Unlinked(es, id) ==> exists j :: 0 <= j < |es| && es[j].id == e.id
  {
    var r := Unlinked(es, id);
    assert forall i :: 0 <= i < |es| ==> r[i].id == es[i].id;
  }

  class Store {
    var users: seq<User>
    var categories: seq<Category>
    var expenses: seq<Expense>
    var nextUserId: nat
    var nextCategoryId: nat
    var nextExpenseId: nat

    /** Primary keys are distinct and below the next key; email and username are unique. */
    ghost predicate Valid()
      reads this
    {
      && UsersDistinct(users)
      && (forall u :: u in users ==> u.id < nextUserId)
      && CategoryIdsDistinct(categories)
      && (forall c :: c in categories ==> c.id < nextCategoryId)
      && ExpenseIdsDistinct(expenses)
      && (forall e :: e in expenses ==> e.id < nextExpenseId)
    }

    constructor ()
      ensures Valid()
      ensures users == [] && categories == [] && expenses == []
      ensures nextUserId == 1 && nextCategoryId == 1 && nextExpenseId == 1
    {
      users, categories, expenses := [], [], [];
      nextUserId, nextCategoryId, nextExpenseId := 1, 1, 1;
    }

    /**
     * `create_user`: 400 when the email is registered; otherwise one new user
     * holding the hash of the password. A taken username is not checked by the
     * handler and is refused by the database's unique constraint.
     */
    method CreateUser(sec: Security, form: UserCreate) returns (r: Result<User, ApiError>)
      requires Valid()
      modifies this
      ensures Valid()
      ensures categories == old(categories) && expenses == old(expenses)
      ensures nextCategoryId == old(nextCategoryId) && nextExpenseId == old(nextExpenseId)
      ensures FindUser(old(users), ByEmail(form.email)).Some? ==> r == Failure(EmailTaken)
      ensures FindUser(old(users), ByEmail(form.email)).None? && FindUser(old(users), ByUsername(form.username)).Some?
        ==> r == Failure(UsernameTaken)
      ensures r.Success? <==>
        FindUser(old(users), ByEmail(form.email)).None? && FindUser(old(users), ByUsername(form.username)).None?
      ensures r.Failure? ==> users == old(users) && nextUserId == old(nextUserId)
      ensures r.Success? ==> r.value == User(old(nextUserId), form.email, form.username, sec.hash(form.password))
      ensures r.Success? ==> users == old(users) + [r.value] && nextUserId == old(nextUserId) + 1
    {
      if FindUser(users, ByEmail(form.email)).Some? {
        return Failure(EmailTaken);
      }
      if FindUser(users, ByUsername(form.username)).Some? {
        return Failure(UsernameTaken);
      }
      var u := User(nextUserId, form.email, form.username, sec.hash(form.password));
      assert forall i :: 0 <= i < |users| ==> users[i] in users;
      users := users + [u];
      nextUserId := nextUserId + 1;
      return Success(u);
    }

    /** `create_expense`: the new expense belongs to the caller whatever the payload. */
    method CreateExpense(caller: User, payload: CsvService.ExpenseCreate) returns (e: Expense)
      requires Valid()
      modifies this
      ensures Valid()
      ensures users == old(users) && categories == old(categories)
      ensures nextUserId == old(nextUserId) && nextCategoryId == old(nextCategoryId)
      ensures e == Stored(payload, old(nextExpenseId), caller.id, None) && e.userId == caller.id
      ensures expenses == old(expenses) + [e] && nextExpenseId == old(nextExpenseId) + 1
    {
      e := Stored(payload, nextExpenseId, caller.id, None);
      expenses := expenses + [e];
      nextExpenseId := nextExpenseId + 1;
    }

    /**
     * `process_receipt` as intended (built on `ReceiptOutcome`, so a rejected
     * receipt keeps its 400), once the image is saved at `imagePath` and the OCR
     * step has run: one expense owned by the caller when the receipt is
     * accepted, nothing stored otherwise.
     */
    method ProcessReceipt(caller: User, ocr: Result<ReceiptData, string>, imagePath: string)
      returns (r: Result<Expense, ApiError>)
      requires Valid()
      modifies this
      ensures Valid()
      ensures users == old(users) && categories == old(categories)
      ensures nextUserId == old(nextUserId) && nextCategoryId == old(nextCategoryId)
      ensures r.Success? <==> ReceiptOutcome(ocr).Success?
      ensures r.Failure? ==> r.error == ReceiptOutcome(ocr).error
      ensures r.Failure? ==> expenses == old(expenses) && nextExpenseId == old(nextExpenseId)
      ensures r.Success? ==> r.value == Stored(ReceiptOutcome(ocr).value, old(nextExpenseId), caller.id, Some(imagePath))
      ensures r.Success? ==> expenses == old(expenses) + [r.value] && nextExpenseId == old(nextExpenseId) + 1
    {
      var outcome := ReceiptOutcome(ocr);
      if outcome.Failure? {
        return Failure(outcome.error);
      }
      var e := Stored(outcome.value, nextExpenseId, caller.id, Some(imagePath));
      expenses := expenses + [e];
      nextExpenseId := nextExpenseId + 1;
      return Success(e);
    }

    /**
     * `import_csv` as intended (built on `ParseUpload`, so a malformed file
     * keeps its 400), once the upload is saved: the structure gate, then the
     * importer, then one new expense per row, in row order, all owned by the
     * caller. `file` is `None` when the upload cannot be read as CSV.
     */
    method ImportCsv(caller: User, file: Option<CsvService.Table>) returns (r: Result<seq<Expense>, ApiError>)
      requires Valid()
      requires file.Some? ==> CsvService.WellFormed(file.value)
      modifies this
      ensures Valid()
      ensures users == old(users) && categories == old(categories)
      ensures nextUserId == old(nextUserId) && nextCategoryId == old(nextCategoryId)
      ensures !CsvService.ValidateCsv(Headers(file)) ==> r == Failure(InvalidCsv)
      ensures CsvService.ValidateCsv(Headers(file)) ==> (r.Success? <==> CsvService.Convertible(file.value))
      ensures r.Failure? && CsvService.ValidateCsv(Headers(file)) ==> Status(r.error) == 500
      ensures r.Failure? ==> expenses == old(expenses) && nextExpenseId == old(nextExpenseId)
      ensures r.Success? ==> r.value == StoreAll(CsvService.FileExpenses(file.value), old(nextExpenseId), caller.id)
      ensures r.Success? ==> expenses == old(expenses) + r.value && nextExpenseId == old(nextExpenseId) + |r.value|
    {
      var parsed := ParseUpload(file);
      if parsed.Failure? {
        r := Failure(parsed.error);
        return;
      }
      var created := AddExpenses(caller, parsed.value);
      r := Success(created);
    }

    /** Stores one expense per payload, in order, owned by the caller, under consecutive ids. */
    method AddExpenses(caller: User, rows: seq<CsvService.ExpenseCreate>) returns (created: seq<Expense>)
      requires Valid()
      modifies this
      ensures Valid()
      ensures users == old(users) && categories == old(categories)
      ensures nextUserId == old(nextUserId) && nextCategoryId == old(nextCategoryId)
      ensures |created| == |rows| && expenses == old(expenses) + created
      ensures nextExpenseId == old(nextExpenseId) + |rows|
      ensures created == StoreAll(rows, old(nextExpenseId), caller.id)
    {
      created := [];
      var i := 0;
      while i < |rows|
        invariant 0 <= i <= |rows|
        invariant |created| == i
        invariant forall k :: 0 <= k < i ==> created[k] == Stored(rows[k], old(nextExpenseId) + k, caller.id, None)
        invariant expenses == old(expenses) + created
        invariant nextExpenseId == old(nextExpenseId) + i
        invariant users == old(users) && categories == old(categories)
        invariant nextUserId == old(nextUserId) && nextCategoryId == old(nextCategoryId)
        invariant Valid()
      {
        var e := Stored(rows[i], nextExpenseId, caller.id, None);
        assert forall k :: 0 <= k < |expenses| ==> expenses[k] in expenses;
        expenses := expenses + [e];
        nextExpenseId := nextExpenseId + 1;
        created := created + [e];
        i := i + 1;
      }
      assert created == StoreAll(rows, old(nextExpenseId), caller.id);
    }

    /** `create_category`: the new category belongs to the caller. */
    method CreateCategory(caller: User, payload: CategoryPayload) returns (c: Category)
      requires Valid()
      modifies this
      ensures Valid()
      ensures users == old(users) && expenses == old(expenses)
      ensures nextUserId == old(nextUserId) && nextExpenseId == old(nextExpenseId)
      ensures c == Category(old(nextCategoryId), payload.name, payload.description, caller.id)
      ensures categories == old(categories) + [c] && nextCategoryId == old(nextCategoryId) + 1
    {
      c := Category(nextCategoryId, payload.name, payload.description, caller.id);
      categories := categories + [c];
      nextCategoryId := nextCategoryId + 1;
    }

    /**
     * `update_category`: 404 unless the caller owns a category with that id;
     * otherwise the payload's fields (both of them, an absent description
     * included) overwrite that row and no other row changes.
     */
    method UpdateCategory(caller: User, id: int, payload: CategoryPayload) returns (r: Result<Category, ApiError>)
      requires Valid()
      modifies this
      ensures Valid()
      ensures users == old(users) && expenses == old(expenses)
      ensures nextUserId == old(nextUserId) && nextCategoryId == old(nextCategoryId) && nextExpenseId == old(nextExpenseId)
      ensures r.Failure? <==> FindCategory(old(categories), id, caller.id).None?
      ensures r.Failure? ==> r.error == CategoryNotFound && categories == old(categories)
      ensures r.Success? ==>
        var k := FindCategory(old(categories), id, caller.id).value;
        && r.value == Category(id, payload.name, payload.description, caller.id)
        && categories == old(categories)[k := r.value]
      ensures forall c :: c in old(categories) && c.userId != caller.id ==> c in categories
    {
      var found := FindCategory(categories, id, caller.id);
      if found.None? {
        return Failure(CategoryNotFound);
      }
      var k := found.value;
      var c := categories[k];
      c := c.(name := payload.name);
      c := c.(description := payload.description);
      categories := categories[k := c];
      forall o | o in old(categories) && o.userId != caller.id ensures o in categories {
        var j :| 0 <= j < |old(categories)| && old(categories)[j] == o;
        assert categories[j] == o;
      }
      return Success(c);
    }

    /**
     * `delete_category`: 404 unless the caller owns a category with that id;
     * otherwise exactly that row is removed, and every expense filed under it,
     * the caller's or not, loses its category.
     */
    method DeleteCategory(caller: User, id: int) returns (r: Result<string, ApiError>)
      requires Valid()
      modifies this
      ensures Valid()
      ensures users == old(users)
      ensures nextUserId == old(nextUserId) && nextCategoryId == old(nextCategoryId) && nextExpenseId == old(nextExpenseId)
      ensures r.Failure? <==> FindCategory(old(categories), id, caller.id).None?
      ensures r.Failure? ==> r.error == CategoryNotFound && categories == old(categories) && expenses == old(expenses)
      ensures r.Success? ==> expenses == Unlinked(old(expenses), id)
      ensures r.Success? ==>
        var k := FindCategory(old(categories), id, caller.id).value;
        && r.value == CategoryDeleted
        && categories == old(categories)[..k] + old(categories)[k + 1..]
      ensures forall c :: c in old(categories) && c.userId != caller.id ==> c in categories
    {
      var found := FindCategory(categories, id, caller.id);
      if found.None? {
        return Failure(CategoryNotFound);
      }
      var k := found.value;
      RemoveKeepsOthers(categories, k);
      categories := categories[..k] + categories[k + 1..];
      UnlinkedKeepsIds(expenses, id);
      expenses := Unlinked(expenses, id);
      return Success(CategoryDeleted);
    }
  }
}
