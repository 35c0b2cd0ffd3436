# Expense AI — a verified model of the request handlers, the CSV importer and the browser session

Expense AI is a personal expense tracker. Its backend is a FastAPI service over a
SQL database: users sign up and log in with bearer tokens, then record expenses
by hand, from a photographed receipt, or by importing a bank statement as CSV,
and group them into their own categories. Its frontend is a React app whose
`useAuth` hook keeps the login session and whose profile page edits the user's
details and password.

This project models, in Dafny:

- `common.dfy` (`Common`): `Option`, `Result`, an opaque `DateTime`, and the
  client's `detail || fallback` idiom (`OrElse`).
- `csv_service.dfy` (`CsvService`): the CSV importer. Headers are lower-cased
  and stripped. Each expense field is mapped to the first of its aliases that
  appears among the headers. The whole date column is converted, then one
  expense is built per row: the absolute amount, the description cell's text,
  the converted date and category 1. Every failure is re-raised with the
  "Error processing CSV file: " prefix. The structure check accepts a file
  when one of the exact names `date`, `amount` or `description` is a header.
  The file is a `Table` of cells, and each cell carries the outcome of the
  date and the number conversion.
- `backend.dfy` (`Backend`): the handlers of `main.py`. Lookups, the token
  dependency, login, paging and the receipt and CSV acceptance rules are
  functions. The handlers that write rows are methods of a `Store` class
  whose `seq` fields are the three tables. Hashing and the JWT codec are a
  `Security` value of functions. The OCR step and the CSV reader come in as
  parameters holding their outcome.
- `auth_session.dfy` (`AuthHook`): the `useAuth` hook as an `AuthSession`
  class. Its fields are the stored token, the client's `Authorization`
  header, the user and the two flags. Each server round trip is a parameter
  holding the server's reply. When `register` fails at its sign-up or
  token request, `isLoading` stays true, as the code leaves it.
- `profile_page.dfy` (`ProfilePage`): the profile page's form, its password
  checks, and a `ProfileState` class holding the form, the two banners and
  the request bodies sent.

## Model

| member | source | states |
|---|---|---|
| Common.OrElse | frontend/src/hooks/useAuth.ts:124 | the message shown is the server's detail when it is a non-empty string, the fallback otherwise, and never empty |
| CsvService.TrimStart | backend/app/services/csv_service.py:16 | the result is a suffix of the input, everything dropped is whitespace, and it does not start with whitespace |
| CsvService.TrimEnd | backend/app/services/csv_service.py:16 | the result is a prefix of the input, everything dropped is whitespace, and it does not end with whitespace |
| CsvService.Normalize | backend/app/services/csv_service.py:16 | a normalised header has no capital letter and neither starts nor ends with whitespace |
| CsvService.NormalizeIsStrippedLower | backend/app/services/csv_service.py:16 | a normalised header is a slice of the lower-cased header, and everything cut off before and after it is whitespace of the original header: exactly `col.lower().strip()` |
| CsvService.NormalizeIdempotent | backend/app/services/csv_service.py:16 | `lower().strip()` is a fixed point on its own output: normalising a normalised header changes nothing |
| CsvService.FirstPresent | backend/app/services/csv_service.py:28-31 | the index found is the first alias present among the headers, and none is found exactly when no alias is present |
| CsvService.MappingPrefersFirstAlias | backend/app/services/csv_service.py:19-31 | a field is mapped iff one of its aliases is a header, and it is mapped to a header that is its first present alias |
| CsvService.MapColumns | backend/app/services/csv_service.py:26-31 | the nested loop with `break` builds exactly the first-present-alias mapping |
| CsvService.ValidateCsv | backend/app/services/csv_service.py:58-73 | the check passes iff the file is readable and one of `date`, `amount`, `description` is a normalised header; an unreadable file fails it |
| CsvService.ValidatedHeadersMap | backend/app/services/csv_service.py:64-70 | every file that passes the check has at least one mapped field, so it never fails with "No matching columns" |
| CsvService.AliasOnlyHeadersRejected | backend/app/services/csv_service.py:64-70 | a file whose headers are all secondary aliases is refused by the check although the mapping would accept it |
| CsvService.IndexOf | backend/app/services/csv_service.py:29 | the column read for a field is the first column carrying the chosen header |
| CsvService.Detail | backend/app/services/csv_service.py:34-47 | `str(e)` of each failure: the "No matching columns" text, the failed field name in quotes as a `KeyError` prints it, or the converter's own message |
| CsvService.Message | backend/app/services/csv_service.py:55-56 | every failure message is the fixed prefix followed by the original error's text |
| CsvService.Abs | backend/app/services/csv_service.py:43 | the amount stored is non-negative and equals the cell's value up to sign |
| CsvService.RowExpense | backend/app/services/csv_service.py:40-51 | a row gives a non-negative amount, the description cell's text, the converted date, and category 1 |
| CsvService.ToDates | backend/app/services/csv_service.py:37 | the column converts iff every cell converts, and then the values are the cells' dates in order |
| CsvService.ProcessCsv | backend/app/services/csv_service.py:7-56 | success iff the file is convertible, the result is one expense per row in order; no mapped field, no date column, a bad date, a missing amount column, a non-numeric amount and a missing description column at the first bad row each give their own error |
| CsvService.ProcessWith | backend/app/services/csv_service.py:33-53 | under a given mapping: no field mapped, no date column, bad dates, then at the first row that does not convert a missing amount column, a non-numeric amount (with the converter's message) or a missing description column, each reported as the code reports it |
| CsvService.BuildExpenses | backend/app/services/csv_service.py:40-53 | the row loop succeeds iff every row is convertible, and then expense `i` is row `i`'s expense; otherwise the first row that does not convert decides the error, checked in the loop's order: the amount column, `float` of the amount, the description column |
| Backend.CaughtAsWritten | backend/app/main.py:171-172 | the `except Exception` block turns every error, the handler's own 400 included, into a 500 |
| Backend.Caught | backend/app/main.py:171-172 | corrected: a handler's HTTP error passes unchanged, any other error becomes a 500 carrying it |
| Backend.FindUser | backend/app/main.py:63 | the user found matches the key and is stored; none is found iff no stored user matches |
| Backend.Page | backend/app/main.py:131 | `OFFSET skip LIMIT limit`: a negative offset counts as none and a negative limit as no limit; row `i` of the page is row `skip + i` |
| Backend.PageWithin | backend/app/main.py:131 | a page holds only rows of the list it is cut from |
| Backend.PagesConcatenate | backend/app/main.py:131 | two consecutive pages make the page that spans both |
| Backend.ReadExpenses | backend/app/main.py:122-132 | only the caller's expenses are returned, never more than `limit`, as the page `skip`/`limit` of the caller's expenses |
| Backend.DefaultPageBounded | backend/app/main.py:124-125 | with the defaults a caller gets their first 100 expenses, or all of them when fewer |
| Backend.ReadPagesConcatenate | backend/app/main.py:129-131 | reading the caller's expenses page after page yields them in store order without gaps or repeats |
| Backend.GetCategories | backend/app/main.py:216-222 | a category is returned iff it is stored and owned by the caller |
| Backend.FindCategory | backend/app/main.py:243-246 | the row found has the requested id and belongs to the caller; none is found iff no such row exists |
| Backend.SameUsernameSameUser | backend/app/models.py:11 | with unique usernames, two stored users with one username are the same user |
| Backend.CurrentUserAsWritten | backend/app/main.py:54-61 | as written, a token the JWT library cannot decode escapes as an unhandled error (500), and any other token behaves as intended |
| Backend.UndecodableTokenAnswers500AsWritten | backend/app/main.py:55-61 | for an undecodable token the code as written answers 500 where the intended answer is 401 |
| Backend.CurrentUser | backend/app/main.py:45-66 | corrected: success iff the token decodes to a subject naming a stored user, who is returned; every failure is the 401 "Could not validate credentials" |
| Backend.Login | backend/app/main.py:69-85 | a bearer token for the username is issued iff a user of that name exists and the password verifies against its hash; otherwise 401 |
| Backend.LoginThenCurrentUser | backend/app/main.py:82-85 | the token a successful login issues resolves back to the user who logged in |
| Backend.ReceiptDraft | backend/app/main.py:153-170 | an expense is drafted iff a non-zero amount and a date were extracted; it is described by the store name when that is non-empty and by "Receipt" only otherwise, and filed in category 1; otherwise the 400 |
| Backend.ReceiptOutcomeAsWritten | backend/app/main.py:148-172 | as written, every failure of the receipt handler is a 500 |
| Backend.UnreadableReceiptAnswers500AsWritten | backend/app/main.py:166-172 | a receipt from which nothing was extracted is answered with 500 as written, the handler's 400 being its cause |
| Backend.ReceiptOutcome | backend/app/main.py:148-172 | corrected: an OCR failure is a 500, a rejected receipt keeps its 400, an accepted one is the draft |
| Backend.ImportGateAsWritten | backend/app/main.py:188-194 | as written, a file that fails the structure check is answered with 500 |
| Backend.UnreadableUploadAnswers500AsWritten | backend/app/main.py:190-194 | an unreadable upload gets 500 as written, where the intended answer is 400 "Invalid CSV structure" |
| Backend.ImportGate | backend/app/main.py:190-194 | corrected: a file that fails the structure check is the 400 "Invalid CSV structure" |
| Backend.ParseUpload | backend/app/main.py:188-197 | corrected (built on `ImportGate`, so a refused file is the 400): the structure check comes first, then the importer; the importer's errors surface as a 500 carrying its prefixed message |
| Backend.StoreAll | backend/app/main.py:200-206 | the stored batch has one row per payload, with consecutive ids, all owned by the caller |
| Backend.Store.CreateUser | backend/app/main.py:88-103 | a registered email is the 400; a taken username is refused by the database; otherwise exactly one user is added, holding the password's hash |
| Backend.Store.CreateExpense | backend/app/main.py:110-120 | exactly one expense is added, owned by the caller whatever the payload |
| Backend.Store.ProcessReceipt | backend/app/main.py:135-172 | corrected (built on `ReceiptOutcome`, so a rejected receipt keeps its 400): an accepted receipt adds one expense owned by the caller with the saved image path; otherwise nothing is stored |
| Backend.Store.ImportCsv | backend/app/main.py:175-214 | corrected (built on `ParseUpload`, so a refused file is the 400): a refused or unconvertible file stores nothing; a convertible one adds one expense per row, in order, all owned by the caller |
| Backend.Store.AddExpenses | backend/app/main.py:198-210 | the loop appends exactly the stored rows of the payloads, in order, keeping ids distinct |
| Backend.Store.CreateCategory | backend/app/main.py:224-234 | exactly one category is added, owned by the caller |
| Backend.Store.UpdateCategory | backend/app/main.py:236-255 | 404 unless the caller owns the id; otherwise both fields of that row are overwritten, an absent description included, and no other row changes |
| Backend.Store.DeleteCategory | backend/app/main.py:257-272 | 404 unless the caller owns the id; otherwise exactly that row is removed, other users' categories stay, and every expense filed under that id, whoever owns it, loses its category (NULL), as the ORM's non-cascading relationship does on flush |
| Backend.Unlinked | backend/app/models.py:30 | deleting a category sets the category of exactly the expenses filed under it to NULL; every other column and every other expense is unchanged |
| Backend.DeleteReachesOtherUsers | backend/app/main.py:270 | the deletion rewrites an expense of another user filed under the deleted id, such as one of the category-1 expenses every import and receipt creates |
| AuthHook.AuthSession.constructor | frontend/src/hooks/useAuth.ts:28-30 | the hook starts with no user, not authenticated, and loading |
| AuthHook.AuthSession.Mount | frontend/src/hooks/useAuth.ts:32-41 | with a non-empty stored token the header is set and the user fetched; otherwise loading just stops |
| AuthHook.AuthSession.FetchUser | frontend/src/hooks/useAuth.ts:43-56 | success holds the user and authenticates; failure drops the token, the header and the user; loading always stops |
| AuthHook.AuthSession.Login | frontend/src/hooks/useAuth.ts:58-87 | corrected: signed in with the new token and user, or signed out with "Failed to fetch user data" when either request fails |
| AuthHook.AuthSession.LoginAsWritten | frontend/src/hooks/useAuth.ts:58-87 | as written, a failed user fetch after a granted token signs out but reports no error |
| AuthHook.UnreportedLoginFailure | frontend/src/hooks/useAuth.ts:76-83 | a concrete run of `login` as written: token granted, user fetch failed, no error, not signed in |
| AuthHook.ReportedLoginFailure | frontend/src/hooks/useAuth.ts:76-83 | the same run of the corrected `login` reports "Failed to fetch user data" |
| AuthHook.AuthSession.Register | frontend/src/hooks/useAuth.ts:89-128 | corrected: a refused sign-up or login reports the server's detail or the generic text, leaves the session as it was and leaves `isLoading` true; a failed fetch signs out and reports it |
| AuthHook.AuthSession.RegisterAsWritten | frontend/src/hooks/useAuth.ts:89-128 | as written, a failed user fetch after registration signs out but reports no error |
| AuthHook.AuthSession.Logout | frontend/src/hooks/useAuth.ts:131-138 | the token, header and user are dropped, the session is not authenticated and not loading |
| ProfilePage.InitialForm | frontend/src/pages/Profile.tsx:27-30 | the form starts with the user's name and email, or empty text without a user, and no password fields |
| ProfilePage.WithField | frontend/src/pages/Profile.tsx:76-82 | the named input takes the typed value and every other input keeps its own |
| ProfilePage.EditsKeepPasswords | frontend/src/pages/Profile.tsx:76-82 | editing only the name and email leaves the password fields as they were |
| ProfilePage.ClearPasswords | frontend/src/pages/Profile.tsx:63-68 | after a password update the three password fields are empty and name and email are kept |
| ProfilePage.CheckPasswordForm | frontend/src/pages/Profile.tsx:104-112 | a mismatch is reported before a missing field; a request is made iff new and confirmation agree and current and new are non-empty, and it carries them |
| ProfilePage.UntouchedFormIsIncomplete | frontend/src/pages/Profile.tsx:104-112 | a form whose password inputs were never typed into is refused as incomplete, not as mismatched |
| ProfilePage.ClearedFormIsIncomplete | frontend/src/pages/Profile.tsx:109-112 | after a successful update the cleared form cannot be sent again until filled in |
| ProfilePage.FilledFormIsAccepted | frontend/src/pages/Profile.tsx:114-118 | typing a current password and the same new password twice yields exactly that request |
| ProfilePage.ProfileState.constructor | frontend/src/pages/Profile.tsx:27-32 | the page starts with the initial form, no banners and nothing sent |
| ProfilePage.ProfileState.HandleChange | frontend/src/pages/Profile.tsx:76-82 | only the named input changes; banners and requests stay |
| ProfilePage.ProfileState.HandleProfileUpdate | frontend/src/pages/Profile.tsx:84-97 | only the name and email are sent; afterwards exactly one of the success text or the error (detail or fallback) shows |
| ProfilePage.ProfileState.HandlePasswordUpdate | frontend/src/pages/Profile.tsx:99-122 | a refused form shows the check's message and sends nothing; otherwise the request is sent, and on success the password fields are cleared; at most one banner shows |

## Left out

- OCR: `ocr_service.process_receipt` is not part of this model. Its result is a parameter: the extracted amount, date and store name, or a failure message.
- Uploads: saving the uploaded file under the upload directory is file I/O and is left out. The saved path is a parameter.
- CSV reading: `pandas.read_csv`, `pandas.to_datetime` and `float` parsing are left out. A file is a table of cells, and each cell carries its date and number conversion outcomes. An unreadable file is `None`. NaN cells and the conversion of non-numeric text are not modelled.
- CsvService.Normalize: lower-casing and stripping are modelled for ASCII letters and ASCII whitespace only. Python's Unicode case mapping and Unicode whitespace are not modelled.
- CsvService.IndexOf: after normalisation two columns can carry the same name. The reader then returns both columns, and the model reads the first.
- Hashing and tokens: bcrypt and JWT encoding are the `Security` functions. Token expiry and the signing key are left out. `Sound` states the only properties the handlers rely on.
- Database: the session's add, commit and refresh collapse into one atomic update. Rows come back in insertion order. Primary keys are the next counter value. Concurrent requests are not modelled.
- Backend.Store.CreateUser: a taken username is rejected by the unique constraint in `models.py`. The model gives the rejection as an unhandled error carrying the constraint message. The exact text depends on the database driver.
- Backend.Store.DeleteCategory: clearing the category of the deleted category's expenses follows the ORM's default for a relationship without a delete cascade. A foreign-key action in the database itself is not modelled.
- Category name uniqueness is left out: `models.py` declares the name unique and the `models` package variant does not.
- Expense receipt path: `models.py` has no `receipt_image_path` column and the `models` package variant does. The model follows the variant the receipt handler is written against.
- The `/users/me` endpoint redefines the name `get_current_user`. Every later endpoint then depends on that endpoint, which returns the same user. The model uses `CurrentUser` directly.
- Backend.Login: the username is looked up with the first-match query. The model requires usernames to be unique, as the table's unique constraint guarantees.
- AuthHook.AuthSession.Register: a non-HTTP error that is neither a sign-up nor a login failure would be re-thrown unchanged. It is not modelled.
- HTTP error details that are not strings are not modelled, since the client shows them as they are.
- The profile page calls `PUT /api/v1/users/profile` and `PUT /api/v1/users/password`, and `main.py` defines neither endpoint. The server's replies are parameters.
- The query cache invalidation after a profile update and the `console.error` logging are left out.
- The other frontend pages, the configuration and the schema declarations are not part of this model. They are used only for the field lists.

## Findings

| source | as written | input that shows it | evidently intended | confidence | as-written member | corrected member |
|---|---|---|---|---|---|---|
| backend/app/main.py:171-172 | `except Exception` also catches the `HTTPException(400)` raised in the `try`, so it is answered as a 500. The same holds for the CSV import's 400 at lines 190-194 and 213-214 | a receipt whose OCR result has no amount and no date; an upload that cannot be read as CSV | the 400 reaches the client with its own detail | not executed | Backend.UnreadableReceiptAnswers500AsWritten | Backend.ReceiptOutcome |
| backend/app/main.py:8-9 | the token is decoded with PyJWT's `jwt.decode`, but the block catches `jose.JWTError`, which PyJWT never raises | a token with a bad signature or an expired one | 401 "Could not validate credentials" | not executed; medium, since it depends on which `jwt` package is installed | Backend.UndecodableTokenAnswers500AsWritten | Backend.CurrentUser |
| frontend/src/hooks/useAuth.ts:76-83 | `fetchUser` catches its own failures, so the `catch` that clears the session and throws "Failed to fetch user data" never runs for a failed user fetch. `login` resolves and the user stays signed out without a message | token request succeeds, `GET /users/me` fails | `login` rejects with "Failed to fetch user data" | not executed | AuthHook.UnreportedLoginFailure | AuthHook.AuthSession.Login |
| frontend/src/hooks/useAuth.ts:114-121 | the same for `register`: the inner `catch` never runs, so a failed user fetch after sign-up is not reported | sign-up and token requests succeed, `GET /users/me` fails | `register` rejects with "Failed to fetch user data" | not executed | AuthHook.AuthSession.RegisterAsWritten | AuthHook.AuthSession.Register |
