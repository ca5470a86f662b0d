# Vigyani backend services: a Dafny model

This project models the core of two Flask services in Dafny.

`vigyani_inventory` sells credit packs:
- Razorpay order creation, payment verification and payment history;
- the `payments` and `payment_logs` tables;
- PayU hash handling;
- the product list and the log listing.

`mino-ai` is a transcription service:
- users with credit balances, signup, login and profile updates;
- profile images and the tenant-sync handlers;
- uploaded files, the credit deduction of an upload, file summaries and transcripts;
- the helper that turns an image into a `data:` URL.

How the model is built:
- **Tables.** Each database table is an in-memory table. Its state is a datatype (`LogStore`, `PaymentStore`, `UserStore`, `FileStore`): a sequence of rows and the next auto-increment id. Each table is also a class whose `Save`/`Delete`/`UpdateCredits` methods change that state in place.
- **Queries.** Queries are pure functions over the rows.
- **Handlers.** Each request handler is a pure function from the stores before the request to the stores after it and the response. A class method (`Razorpay.Reconciler`, `Auth.Accounts`, `FileService.Uploads`, `PayU.Receiver`) runs the same steps on the table objects and is proved equal to that function. The lemmas then state what each branch writes and what it leaves alone.
- **Outside world.** Every call into the outside world is a parameter of the operation that makes it:
  - the Razorpay client's answers (the order id and the fetched payment record);
  - the tenant and PayU HTTP calls;
  - S3 reads and writes, and the PDF renderer;
  - the SHA-512 digest and werkzeug password hashing and checking;
  - `imghdr`, JSON parsing and base64 password decoding;
  - the clock, as one `now` per request.
- **Email.** Success and failure emails are appended, as `Notice` values, to a list in the Razorpay world.
- **Amounts.** Amounts are integers in minor units (paise), as the gateway reports them. The rupee amount that `create_order` writes into the integer `amount` column is modelled as the rounding of `amount / 100` (`Payments.WholeUnits`).

Behaviour of the code, stated by the model as written:
- **No signature check and no settled guard.** `verify_payment` never checks the Razorpay signature. Nothing marks a verified payment as settled: the same request verified twice grants its credits twice (`RazorpayProperties.RepeatedVerificationGrantsAgain`).
- **Missing user in `create_order`.** `create_order` assigns to the user before its `if not user` test. So an unknown user gets the 500 of the outer handler, never the 404.
- **Unknown user in `verify_payment`.** In `verify_payment` an unknown user makes `user.subscription = ...` raise. `handle_payment` then raises inside the inner handler too, so the outer handler sets the payment `pending`.
- **Missing `credits`.** A request without `credits` sends the success email and writes the log. Then `update_credits(None)` raises, and the inner handler fails the payment and sends a second, failure email.
- **Renaming a shared tenant.** `tenant_updated` and `sync_tenant_to_users` with a new name on a tenant of two or more users rename the first user. The second save then breaks the unique `username` column, and the request answers 500 (`AuthProps.RenameOfSharedTenantFails`).
- **`domain` in `tenant_updated`.** `tenant_updated` sets a `domain` attribute that `save` never writes.
- **Missing password in `signup`.** A `signup` body without a password answers 400 "Invalid password format", not "Username, password and email are required". `b64decode(None)` raises before the required-field check.
- **JPEG labels.** A JPEG given as bytes is labelled `image/jpg`; one given by a path ending in `.jpg` is labelled `image/jpeg`.
- **`s3://` stripped everywhere.** `replace('s3://', '')` removes every occurrence of the scheme, not only the leading one.
- **Odd `features` values.** The product constructor indexes whatever `features` holds:
  - a non-empty JSON object raises an uncaught `KeyError`, so `/list` answers 500;
  - a string gives its first four characters.
- **Missing `txn_id`.** `/logs/id` without a `txn_id` answers 404.

PayU's reverse hash sequence, which the docstring of `verify_payment_hash` repeats, has one more `|` than the string the code hashes. The model follows the code: `process_payment_response` runs the check as written (`PayU.Receiver.Process`). The corrected check and a handler that uses it are modelled beside it, and the discrepancy is recorded under "## Findings".

## Model

| member | source | states |
|---|---|---|
| PaymentLogs.AmountOrZero | vigyani_inventory/app/models/logs.py:9 | the constructor keeps a given amount and turns a missing one into 0; `LogTable.Save` stores what it gives |
| PaymentLogs.SavedAmountReadsBack | vigyani_inventory/app/models/logs.py:4-30 | a log saved without an amount reads back by its txnid with amount 0, and one saved with an amount reads back with exactly it |
| PaymentLogs.IndexOfTxnid | vigyani_inventory/app/models/logs.py:17-23 | the index is that of the first row with the txnid, and no earlier row (or no row at all, for -1) has it |
| PaymentLogs.ByTxnid | vigyani_inventory/app/models/logs.py:61-67 | a found log is a stored row with that txnid; None exactly when no row has it |
| PaymentLogs.ByStatus | vigyani_inventory/app/models/logs.py:52-58 | the result holds exactly the rows with that status |
| PaymentLogs.Upsert | vigyani_inventory/app/models/logs.py:13-30 | one row is added exactly when the txnid is new. Afterwards the txnid reads back with the saved status, amount and `created_at`, and the rows of every other txnid are the same set as before. The unique txnid column is kept. |
| PaymentLogs.UpsertIdempotent | vigyani_inventory/app/models/logs.py:17-23 | saving the same values twice leaves the table that saving once leaves |
| PaymentLogs.UpsertKeepsTxnids | vigyani_inventory/app/models/logs.py:17-29 | a transaction id found before a save is still found after it, and the row count never shrinks |
| PaymentLogs.UpsertKeepsOther | vigyani_inventory/app/models/logs.py:17-29 | a save writes only the row of its own transaction id: every other transaction id reads back the same row as before |
| PaymentLogs.LogTable.constructor | vigyani_inventory/app/models/logs.py:74-80 | a new table is empty and well-formed |
| PaymentLogs.LogTable.Save | vigyani_inventory/app/models/logs.py:13-30 | the in-place save of `Logs(...)` leaves exactly the table `Upsert` describes for the constructor's amount (0 when missing) and keeps txnids unique |
| PaymentLogs.LogTable.Find | vigyani_inventory/app/models/logs.py:61-67 | the lookup on the live table: a row with the txnid, or None exactly when there is none |
| Payments.NewPayment | vigyani_inventory/app/models/payment.py:17-35 | a falsy status becomes "initiated" and a truthy one is kept; both timestamps are `now`; a new object has no id and no provider payment id or signature; user id, order id, amount, currency, receipt, notes, provider and provider order id are the arguments |
| Payments.WholeUnits | vigyani_inventory/app/api/razorpay.py:76 | the rupee value written into the INT column is within half a rupee of `paise / 100`, is exact for whole rupees and never negative for a non-negative amount |
| Payments.SavePayment | vigyani_inventory/app/models/payment.py:37-76 | The save fails, changing nothing, exactly when another row holds the `order_id`. An insert appends the object with the next id. An update rewrites only the row with the object's id, keeps its `created_at` and stamps `updated_at`; every other row is unchanged. Uniqueness of ids and order ids is kept. |
| Payments.SaveLoadedSucceeds | vigyani_inventory/app/models/payment.py:168 | an object read from the table, with its own `order_id`, can always be saved back |
| Payments.ById | vigyani_inventory/app/models/payment.py:79-87 | a found payment is a stored row with that id; None exactly when there is none |
| Payments.ByIdOfRow | vigyani_inventory/app/models/payment.py:166 | on a table with unique ids every stored row is what its id reads back |
| Payments.ByIdAfterSave | vigyani_inventory/app/models/payment.py:41-58 | after an update that id reads back as written with the stored `created_at`, and every other id reads back as before |
| Payments.ByOrderId | vigyani_inventory/app/models/payment.py:102-113 | a found payment carries that order id; None exactly when no row does |
| Payments.ByProviderOrderId | vigyani_inventory/app/models/payment.py:116-124 | a found payment carries that provider order id; None for a missing key (SQL `= NULL`) or when no row carries it |
| Payments.ByProviderPaymentId | vigyani_inventory/app/models/payment.py:127-135 | the same for the provider payment id, which is not unique |
| Payments.OfUser | vigyani_inventory/app/models/payment.py:140 | exactly the user's rows, each at most as often as stored |
| Payments.LatestIsLatest | vigyani_inventory/app/models/payment.py:90-99 | the latest payment is the user's, no row of the user was updated later, and there is none exactly when the user has no rows |
| Payments.Matching | vigyani_inventory/app/models/payment.py:140-148 | the `WHERE` clause: the user's rows, filtered by status and provider only when those filters are truthy |
| Payments.UserPaymentsMatch | vigyani_inventory/app/models/payment.py:138-157 | the listing is newest first, holds `min(limit, matches)` rows, and every row matches the user and the given filters |
| Payments.UserPaymentsAreTheNewest | vigyani_inventory/app/models/payment.py:150 | no matching row left out was created after a listed one, and with at most `limit` matches all are listed |
| Payments.PaymentTable.constructor | vigyani_inventory/app/models/payment.py:164-186 | a new table is empty and well-formed |
| Payments.PaymentTable.Save | vigyani_inventory/app/models/payment.py:37-76 | the in-place save produces the object (with its id), the success flag and the table of `SavePayment` |
| Users.NewUser | mino-ai/app/models/user.py:6-21 | the defaults: no id, no hash, no tenant or image, 0 credits, plan "free", both timestamps `now` |
| Users.SetPassword | mino-ai/app/models/user.py:28-31 | the setter stores the hasher's output and changes no other field |
| Users.VerifyPassword | mino-ai/app/models/user.py:33-46 | true exactly when a hash is stored and the checker reports a match; false without a hash and when the check raises |
| Users.SetThenVerify | mino-ai/app/models/user.py:23-46 | a password that was set verifies, for a hasher and checker that agree |
| Users.SaveUser | mino-ai/app/models/user.py:121-154 | The save fails exactly when it would break the unique username or email, or the NOT NULL password; a failed save changes nothing. An insert appends the user with the next id and both timestamps `now`. An update writes every column but `created_at` into the row of that id only. Well-formedness is kept. |
| Users.SaveLoadedSucceeds | mino-ai/app/models/user.py:176-193 | a loaded user whose username, email and hash are kept saves without error |
| Users.AddCredits | mino-ai/app/models/user.py:156-168 | `update_credits` adds the amount to the stored column and to the object. A missing amount fails and changes nothing. Only that id's row changes, in `credit_point` and `updated_at`. |
| Users.ByIdOfRow | mino-ai/app/models/user.py:87-94 | on a well-formed table every stored row is what its id reads back |
| Users.ByIdAfterSave | mino-ai/app/models/user.py:125-137 | after an update that id reads back as written with the stored `created_at`; every other id reads back as before |
| Users.ByIdAfterCredits | mino-ai/app/models/user.py:160-165 | after `update_credits` that id reads back with the increment and every other id as before |
| Users.UpdateCreditsIncrements | mino-ai/app/models/user.py:162 | the stored balance grows by the amount whatever the object held: a stale object cannot overwrite it |
| Users.SaveKeepsBalances | mino-ai/app/models/user.py:121-154 | re-saving a loaded user with its balance kept moves no balance |
| Users.CreditsMoveOneBalance | mino-ai/app/models/user.py:156-168 | `update_credits` moves its own user's balance by the amount and no other balance |
| Users.ById | mino-ai/app/models/user.py:87-94 | a found user is a stored row with that id; None exactly when there is none |
| Users.ByUsername | mino-ai/app/models/user.py:49-65 | a found user has that username; None exactly when none has |
| Users.ByEmail | mino-ai/app/models/user.py:68-84 | a found user has that email; None exactly when none has |
| Users.ByUsernameOrEmail | mino-ai/app/models/user.py:97-108 | a found user has the identifier as username or email; None exactly when no user has |
| Users.ByTenant | mino-ai/app/models/user.py:110-119 | exactly the tenant's users, and the empty list when there is none (or no tenant id) |
| Users.UserTable.constructor | mino-ai/app/models/user.py:176-193 | a new table is empty and well-formed |
| Users.UserTable.Save | mino-ai/app/models/user.py:121-154 | the in-place save produces the object, the flag and the table of `SaveUser` |
| Users.UserTable.UpdateCredits | mino-ai/app/models/user.py:156-168 | the in-place update produces the object, the flag and the table of `AddCredits` |
| Files.NewFile | mino-ai/app/models/file.py:4-13 | `processed` becomes 1 exactly for a truthy flag, else 0; a missing upload time is `now`; the other fields are as given |
| Files.SaveFile | mino-ai/app/models/file.py:47-79 | An insert appends the file with the next id, upload time `now` and `processed` as 0/1. An update writes name, path, job id, processed and size into the row of that id only, never owner or upload time. Unique ids are kept. |
| Files.DeleteFile | mino-ai/app/models/file.py:81-89 | no id is the `ValueError`; otherwise the table holds exactly the rows of other ids |
| Files.FilterKeepsWellFormed | mino-ai/app/models/file.py:88 | deleting rows keeps the ids unique |
| Files.ById | mino-ai/app/models/file.py:15-23 | a found file has that id; None exactly when none has |
| Files.ByJobId | mino-ai/app/models/file.py:25-33 | a found file has that job id; None exactly when none has |
| Files.InsertReadsBack | mino-ai/app/models/file.py:64-78 | a new row reads back by its new id, which no earlier row had, with the caller's owner and path |
| Files.UpdateKeepsOwner | mino-ai/app/models/file.py:50-63 | an update changes only its own id's row and never its owner or upload time |
| Files.DeleteRemovesExactly | mino-ai/app/models/file.py:81-89 | after `delete` the id reads back as None and every other id as before |
| Files.UserFilesAreTheUsers | mino-ai/app/models/file.py:35-45 | exactly the user's files, each as often as stored, newest upload first |
| Files.FileTable.constructor | mino-ai/app/models/file.py:97-111 | a new table is empty and well-formed |
| Files.FileTable.Save | mino-ai/app/models/file.py:47-79 | the in-place save produces the object with its id and the table of `SaveFile` |
| Files.FileTable.Delete | mino-ai/app/models/file.py:81-89 | the flag is false exactly without an id, and then the table is unchanged; otherwise the table of `DeleteFile` |
| Queries.FirstWhere | vigyani_inventory/app/models/payment.py:83-84 | `fetchone()` on a `WHERE`: a matching row, None exactly when none matches |
| Queries.Filter | vigyani_inventory/app/models/logs.py:56-57 | `fetchall()` on a `WHERE`: exactly the matching rows, never more rows than stored and each at most as often as stored |
| Queries.SortDesc | vigyani_inventory/app/models/payment.py:150 | `ORDER BY key DESC`: a permutation of the rows, sorted by descending key |
| Queries.Take | vigyani_inventory/app/models/payment.py:150 | `LIMIT n`: a prefix of at most n rows, all rows when there are no more than n |
| Queries.TopRows | vigyani_inventory/app/models/payment.py:150-151 | `ORDER BY ... DESC LIMIT n` gives sorted rows drawn from the table, `min(n, rows)` of them, and no row left out has a larger key than one returned |
| Queries.HeadIsMaximal | vigyani_inventory/app/models/payment.py:95 | the first row of the descending order has the largest key, as `get_latest_by_user_id` relies on |
| Queries.FirstWhereOfFilter | vigyani_inventory/app/models/payment.py:94-98 | dropping rows that cannot match does not change the first match |
| Queries.IndexWhereAgrees | vigyani_inventory/app/models/logs.py:17-23 | tables that agree row by row on a key test have their first match at the same position |
| Common.NatToString | vigyani_inventory/app/api/razorpay.py:75 | the decimal rendering of an id or timestamp is a non-empty string of digits |
| Common.Split | mino-ai/app/services/tenant_service.py:28 | `split` with a one-character separator: at least one piece, and no piece holds the separator |
| Common.JoinSplit | mino-ai/app/utils/file.py:52-54 | joining the pieces of a split gives back the string |
| Common.LastSegmentIsSuffix | vigyani_inventory/app/api/razorpay.py:346 | `split('_')[-1]` is a suffix with no separator, and the whole string when it has none |
| Common.BeforeLast | mino-ai/app/services/file_service.py:160 | `rsplit('.', 1)[0]` is a prefix of the path |
| Common.ToLower | mino-ai/app/utils/file.py:71 | `lower()` keeps the length and lower-cases each ASCII letter |
| Common.Extension | mino-ai/app/services/file_service.py:116 | `os.path.splitext(name)[1]` is empty or a dot-led suffix of the name without another dot or slash |
| Common.ExtensionOfName | mino-ai/app/services/file_service.py:116 | a name whose last component has a stem before `.suffix` has exactly `.suffix` as its extension |
| Common.ReplaceAllAbsent | mino-ai/app/utils/file.py:52 | `replace` leaves a string untouched when it cannot contain the pattern |
| Common.SplitHasTwoPieces | mino-ai/app/services/tenant_service.py:33 | an email with an `@` has a second piece, so the domain index is safe |
| Base64.ValueOfCharOf | mino-ai/app/utils/file.py:86 | the 64-letter alphabet of section 4 of RFC 4648 is a bijection with 0..63 |
| Base64.EncodeLength | mino-ai/app/utils/file.py:86 | four characters for every three bytes or fewer |
| Base64.DecodeEncode | mino-ai/app/utils/file.py:86-87 | decoding the encoding gives back exactly the bytes |
| Base64.EncodeAlphabet | mino-ai/app/utils/file.py:86 | the encoding uses only alphabet characters and `=` padding in the last two places |
| ImageData.S3LocationOfUrl | mino-ai/app/utils/file.py:50-54 | `s3://bucket/key` names that bucket and that whole key (the rest joined back with `/`) |
| ImageData.SchemeStripped | mino-ai/app/utils/file.py:52 | text after the scheme, without another `:`, loses exactly the scheme |
| ImageData.MimeForExtension | mino-ai/app/utils/file.py:76-83 | png, jpg/jpeg, gif and webp map to their types; anything else falls back to `image/jpeg` |
| ImageData.PathMimeOfName | mino-ai/app/utils/file.py:71-83 | a path ending in `.suffix` has the type of the lower-cased suffix, whatever its letter case |
| ImageData.PathWithoutExtension | mino-ai/app/utils/file.py:83 | a path without an extension is taken for a JPEG |
| ImageData.BytesMime | mino-ai/app/utils/file.py:44 | detected bytes are `image/<format>`, except `jpeg`, which is `image/jpg` |
| ImageData.ParseDataUrlOf | mino-ai/app/utils/file.py:87 | the `data:` URL of section 3 of RFC 2397 carries its media type and exactly its bytes |
| ImageData.BytesImage | mino-ai/app/utils/file.py:32-44 | bytes give a URL exactly when they are non-empty and their format is detected, and it carries those bytes under `BytesMime` |
| ImageData.PathImage | mino-ai/app/utils/file.py:46-87 | a path gives a URL exactly when it is non-empty and the read (S3 for `s3://`, disk otherwise) yields bytes, under the type of its extension |
| ImageData.JpgPathMime | mino-ai/app/utils/file.py:78 | a `.jpg` or `.JPG` path is `image/jpeg` |
| ImageData.JpegLabels | mino-ai/app/utils/file.py:44-83 | the same JPEG is `image/jpg` as bytes and `image/jpeg` by a `.jpg` path |
| ImageData.FileInfoOfJob | mino-ai/app/utils/file.py:93-108 | None exactly when no file has the job id; otherwise the name, owner and path of the first such file |
| FileService.SizeMb | mino-ai/app/services/file_service.py:35-40 | the least whole number of MiB covering the bytes: 0 only for 0 bytes |
| FileService.UploadKeySegments | mino-ai/app/services/file_service.py:114-117 | the key is `uploads/`, the user id in decimal, and the job id with the extension, as three segments |
| FileService.UploadRefusals | mino-ai/app/services/file_service.py:104-121 | a missing user, too few credits for the size, then a failed S3 upload refuse the upload, in that order, without touching either table |
| FileService.UploadDeducts | mino-ai/app/services/file_service.py:123-146 | an accepted upload deducts exactly the size from its own user only, reports `credit_used` = size and the non-negative remainder, and appends one file row with the key, owner and size |
| FileService.Uploads.ProcessUpload | mino-ai/app/services/file_service.py:100-150 | the in-place run on both tables gives the reply and tables of the `Upload` function |
| FileService.SummaryKey | mino-ai/app/services/file_service.py:155-160 | a key exactly for `.mp3`, `.mp4` and `.wav` paths, and then the path before its last dot plus `_summary.json` |
| FileService.SummaryKeyOfMedia | mino-ai/app/services/file_service.py:179 | `stem.mp3` (or `.mp4`, `.wav`) has its summary at `stem_summary.json`, whatever dots the stem holds |
| FileService.FileSummary | mino-ai/app/services/file_service.py:152-173 | no summary for a non-media path; otherwise what reading the summary key yields |
| FileService.TranscriptNeedsOwner | mino-ai/app/services/file_service.py:301-328 | a missing file and another user's file give the same "File not found". A transcript is only for the owner, named after the file, and rendered from its summary. |
| PayU.PaymentHash | vigyani_inventory/app/services/payment_service.py:10-21 | a digest exactly when the six fields are present, and then the digest of the request hash string |
| PayU.PaymentHashFields | vigyani_inventory/app/services/payment_service.py:15-20 | the hashed string is the six fields, ten empty fields and the salt: PayU's request sequence |
| PayU.VerificationHashFields | vigyani_inventory/app/services/payment_service.py:23-26 | the verify hash covers exactly key, `verify_payment`, txnid and salt |
| PayU.VerifyPayload | vigyani_inventory/app/services/payment_service.py:56-63 | the posted form has exactly the keys key, command, var1 and hash, with their values |
| PayU.ClassifyVerify | vigyani_inventory/app/services/payment_service.py:71-96 | 200 with status 1 is checked, and a success exactly for transaction status "success". Another status gives its msg or "Unknown error occurred"; non-200 gives the connect error; an exception or non-JSON body gives the internal error. |
| PayU.VerifyResponseHashAsWritten | vigyani_inventory/app/services/payment_service.py:28-51 | the code's check: true exactly when the lowered supplied hash equals the digest of the string as written |
| PayU.AsWrittenFields | vigyani_inventory/app/services/payment_service.py:41-45 | the string as written has nine empty fields between status and email |
| PayU.AsWrittenDropsAPipe | vigyani_inventory/app/services/payment_service.py:42 | the string as written is one `|` shorter than PayU's reverse sequence, so never equal to it |
| PayU.AsWrittenRejectsSignedResponse | vigyani_inventory/app/services/payment_service.py:41-51 | a response PayU signed by its reverse sequence fails the check as written and passes the corrected one |
| PayU.VerifyResponseHash | vigyani_inventory/app/services/payment_service.py:28-51 | the corrected check, over PayU's reverse sequence |
| PayU.ResponseHashFields | vigyani_inventory/app/services/payment_service.py:31 | PayU's reverse sequence: salt, status, ten empty fields, then email, first name, product, amount, txnid and key |
| PayU.ChargesExtendTheString | vigyani_inventory/app/services/payment_service.py:39-48 | for both the string as written and the corrected one, truthy extra charges append `|charges`; empty or missing ones add nothing |
| PayU.DigestIsLower | vigyani_inventory/app/services/payment_service.py:50 | a lower-case hex digest is unchanged by `lower()` |
| PayU.MissingHashFails | vigyani_inventory/app/services/payment_service.py:51 | a response without `hash` is rejected by the check as written and by the corrected check, since no hex digest is empty |
| PayU.SignedResponseVerifies | vigyani_inventory/app/services/payment_service.py:50-51 | a hash equal, in any letter case, to the digest of the string a check hashes passes that check: the string as written for the check as written, the reverse sequence for the corrected check |
| PayU.AlteredHashFails | vigyani_inventory/app/services/payment_service.py:50-51 | replacing the hash by a value that does not lower-case to the digest is rejected, by the check as written and by the corrected check alike |
| PayU.ForgedResponseGrantsNothing | vigyani_inventory/app/services/payment_service.py:101-103 | a response failing a handler's hash check moves no balance in that handler: the check as written for the handler as written, the corrected check for the corrected handler |
| PayU.SignedResponseCreditsNothing | vigyani_inventory/app/services/payment_service.py:98-128 | a response PayU signed by its reverse sequence is never accepted or credited by the handler as written; the corrected handler accepts it (given an amount) and raises its payer's balance by the amount |
| PayU.SuccessCreditsThePayer | vigyani_inventory/app/services/payment_service.py:115-122 | in the corrected handler, and in the handler as written on the responses its check passes, an accepted success raises the payer's balance (found by email) by the amount and no other; another status moves nothing |
| PayU.Receiver.Process | vigyani_inventory/app/services/payment_service.py:98-128 | as written: true exactly when the check as written passes and the amount converts; then one record is appended; the user table is that of `Credited`, which credits only through that check |
| PayU.Receiver.ProcessCorrected | vigyani_inventory/app/services/payment_service.py:98-128 | the same handler with the corrected check: true exactly when that check passes and the amount converts; the user table is that of `CreditedCorrected` |
| RazorpayFlow.HandlePayment | vigyani_inventory/app/api/razorpay.py:98-113 | a missing user or payment raises before any effect; otherwise one email, then the payment marked completed or failed, stamped and saved, with logs and users untouched |
| RazorpayFlow.FailureTarget | vigyani_inventory/app/api/razorpay.py:138-139 | the user's latest payment, else a stored payment of the request's order |
| RazorpayFlow.PendingLog | vigyani_inventory/app/api/razorpay.py:169-182 | the order's log is "pending" with the expected amount, or 0 without one |
| RazorpayFlow.MergedNotes | vigyani_inventory/app/api/razorpay.py:254-258 | the old notes with `verification_data` and `credits` added and winning, and no other key |
| RazorpayFlow.ResolvePayment | vigyani_inventory/app/api/razorpay.py:235-240 | a resolved payment is a stored row |
| RazorpayProperties.HandleStored | vigyani_inventory/app/api/razorpay.py:98-113 | on a stored payment: nothing raises, the row is marked and stamped, one email goes out, logs and users are untouched |
| RazorpayProperties.HandleStoredKeepsOthers | vigyani_inventory/app/api/razorpay.py:112 | `handle_payment` changes no other payment |
| RazorpayProperties.OuterStored | vigyani_inventory/app/api/razorpay.py:305-323 | the outer handler sets the stored payment "pending" and answers 400, with users and emails untouched |
| RazorpayProperties.MissingIdFailsTarget | vigyani_inventory/app/api/razorpay.py:134-159 | Without a payment id no credit moves and the reply is 400. The target payment is failed with a failure email when the user exists. It is set "pending" by the outer handler when the user does not exist. Nothing moves when there is no target. |
| RazorpayProperties.MissingIdLogsFailure | vigyani_inventory/app/api/razorpay.py:141-148 | the failure is logged under the order id or the `FAIL_` id, with the target's amount or the expected amount; "incomplete" only when the outer handler ran |
| RazorpayProperties.InnerStored | vigyani_inventory/app/api/razorpay.py:291-303 | the inner handler: log "incomplete", the payment failed with an email (or "pending" without a user), no credit moves, reply 400 |
| RazorpayProperties.SubscriptionSaved | vigyani_inventory/app/api/razorpay.py:245-247 | the subscription save of a loaded user succeeds and moves no balance |
| RazorpayProperties.SettleWithoutPayment | vigyani_inventory/app/api/razorpay.py:252-253 | with no payment resolved the assignment raises: 400, no grant, no email, log "incomplete" |
| RazorpayProperties.SettleBeforeCredits | vigyani_inventory/app/api/razorpay.py:245-273 | the state just before `update_credits`: subscription saved, payment completed, one success email, balances unchanged |
| RazorpayProperties.SettleGrantsSteps | vigyani_inventory/app/api/razorpay.py:242-289 | the success path is the subscription save, `handle_payment`, the log save and `update_credits`, in that order |
| RazorpayProperties.CreditsOfLoaded | mino-ai/app/models/user.py:160-166 | for an object holding the stored balance, `update_credits` leaves object and row agreeing on the new balance |
| RazorpayProperties.SettleGrants | vigyani_inventory/app/api/razorpay.py:242-289 | Success with credits: the payment is completed with the request's ids and the merged notes, and one success email goes out. The log takes the payment's status and amount. Only the user's balance moves, by `credits`, and `total_credits` is the new balance. |
| RazorpayProperties.SettleRollsBack | vigyani_inventory/app/api/razorpay.py:276-303 | without credits `update_credits` raises after the success email and log update; the payment is failed, a second email goes out, nothing is granted |
| RazorpayProperties.OuterKeepsOther | vigyani_inventory/app/api/razorpay.py:305-323 | the outer handler writes no log but the one it was given |
| RazorpayProperties.InnerKeepsOther | vigyani_inventory/app/api/razorpay.py:291-303 | the inner handler, and the outer one it may fall into, write no log but the order's |
| RazorpayProperties.SettleKeepsOther | vigyani_inventory/app/api/razorpay.py:242-289 | the success path, with its failure exits, writes no log but the order's |
| RazorpayProperties.VerifyKeepsOtherLogs | vigyani_inventory/app/api/razorpay.py:115-323 | on every path one `verify_payment` call writes the log of one transaction id only (the order id or `FAIL_` id, or the pending log's); every other transaction id reads back its old row |
| RazorpayProperties.GatewayRejectionChangesOnlyTheLog | vigyani_inventory/app/api/razorpay.py:190-232 | nothing returned (404), a status other than captured/authorized, or an amount mismatch (400): only the order's log changes, to "failed"; payments, users, emails and every other transaction's log are as before |
| RazorpayProperties.GatewayErrorFailsLatest | vigyani_inventory/app/api/razorpay.py:187-303 | a raising fetch: log "incomplete", the user's latest payment failed (or "pending" without a user), no balance moves, no other transaction's log changes |
| RazorpayProperties.AcceptedReachesSettle | vigyani_inventory/app/api/razorpay.py:167-259 | an accepted record reaches the payment resolved by payment id, else by the gateway's order id, on the table as it was |
| RazorpayProperties.UnresolvedPaymentGrantsNothing | vigyani_inventory/app/api/razorpay.py:235-253 | no resolvable payment: 400 from the outer handler, no payment, balance or email moves, and no other transaction's log changes |
| RazorpayProperties.UnknownUserSetsPending | vigyani_inventory/app/api/razorpay.py:246 | an unknown user makes both handlers' steps raise: the payment is set "pending", nothing is granted or emailed, and no other transaction's log changes |
| RazorpayProperties.SuccessGrantsCredits | vigyani_inventory/app/api/razorpay.py:115-289 | the whole request on the success path: completed payment, one email, log updated, balance up by exactly `credits` and reported; no other transaction's log changes |
| RazorpayProperties.MissingCreditsRollsBack | vigyani_inventory/app/api/razorpay.py:279 | the whole request without credits: two emails, failed payment, log "incomplete", no grant, no other transaction's log changes |
| RazorpayProperties.BalanceMovesOnlyOnSuccess | vigyani_inventory/app/api/razorpay.py:115-323 | on every path at most the requesting user's balance moves, by `credits` on a 200 and by nothing otherwise. A 200 needs a payment id, an accepted record, a resolved payment, an existing user and credits. |
| RazorpayProperties.RepeatedVerificationGrantsAgain | vigyani_inventory/app/api/razorpay.py:235-289 | the same successful request verified twice grants its credits twice |
| RazorpayProperties.SecondVerificationResolves | vigyani_inventory/app/api/razorpay.py:252 | after a success the payment carries the request's payment id, so the request resolves it again |
| RazorpayProperties.ResolvesByPaymentId | vigyani_inventory/app/api/razorpay.py:235 | a stored payment with the request's payment id always resolves |
| RazorpayProperties.CreateOrderShape | vigyani_inventory/app/api/razorpay.py:30-96 | An order never touches logs, emails or balances. It answers 400, changing nothing, exactly for a missing amount or receipt, and 500 for an unknown user. It adds one payment row exactly on a 200. |
| RazorpayProperties.CreateOrderInserts | vigyani_inventory/app/api/razorpay.py:44-92 | a valid order appends one row with the next id, `RZP_{user}_{ts}`, status "created", provider "razorpay" and the gateway's order id, and answers with that id |
| RazorpayProperties.SameSecondOrderFails | vigyani_inventory/app/api/razorpay.py:75 | a second order of the same user in the same second breaks the unique `order_id` and answers 500 without a new row |
| RazorpayProperties.HistoryRowsAreTheUsers | vigyani_inventory/app/api/razorpay.py:332-339 | the history query returns exactly the user's payments, newest first |
| RazorpayProperties.HistoryFailsWithoutOrderId | vigyani_inventory/app/api/razorpay.py:346 | the history fails exactly when one of the user's payments has no provider order id |
| RazorpayProperties.HistoryIsNewestFirst | vigyani_inventory/app/api/razorpay.py:337-355 | one entry per payment of the user, by descending `created_at` |
| RazorpayProperties.HistoryShowsOnlyTheUsers | vigyani_inventory/app/api/razorpay.py:344-355 | every entry is built from one of the user's payments |
| RazorpayProperties.HistoryShowsEveryPayment | vigyani_inventory/app/api/razorpay.py:344-355 | every payment of the user has an entry |
| RazorpayProperties.HistoryEntryFields | vigyani_inventory/app/api/razorpay.py:346-354 | each entry's order id is the last `_` segment of a provider order id, and `remaining_credits` is the user's balance (0 without a user) |
| Razorpay.Reconciler.constructor | vigyani_inventory/app/models/logs.py:74-80 | the three tables start empty and there are no emails |
| Razorpay.Reconciler.SaveLog | vigyani_inventory/app/models/logs.py:13-30 | a log save changes the world exactly as `RazorpayFlow.SaveLog` |
| Razorpay.Reconciler.HandlePayment | vigyani_inventory/app/api/razorpay.py:98-113 | the in-place steps give the world, payment and raise flag of `RazorpayFlow.HandlePayment` |
| Razorpay.Reconciler.OuterHandler | vigyani_inventory/app/api/razorpay.py:305-323 | the in-place outer handler equals `RazorpayFlow.OuterHandler` |
| Razorpay.Reconciler.InnerHandler | vigyani_inventory/app/api/razorpay.py:291-303 | the in-place inner handler equals `RazorpayFlow.InnerHandler` |
| Razorpay.Reconciler.MissingPaymentId | vigyani_inventory/app/api/razorpay.py:134-159 | the in-place missing-id branch equals `RazorpayFlow.MissingPaymentId` |
| Razorpay.Reconciler.Settle | vigyani_inventory/app/api/razorpay.py:242-289 | the in-place success path equals `RazorpayFlow.Settle` |
| Razorpay.Reconciler.CheckWithGateway | vigyani_inventory/app/api/razorpay.py:167-303 | the in-place gateway branch equals `RazorpayFlow.CheckWithGateway` |
| Razorpay.Reconciler.VerifyPayment | vigyani_inventory/app/api/razorpay.py:115-323 | the in-place request equals `RazorpayFlow.Verify`, about which the properties above are proved |
| Razorpay.Reconciler.CreateOrder | vigyani_inventory/app/api/razorpay.py:30-96 | the in-place order creation equals `RazorpayFlow.CreateOrder` |
| Auth.ImageFormat | mino-ai/app/api/auth.py:21-32 | the format, when any, is one of jpg, png, gif and webp |
| AuthProps.FormatIsTheMatchingMagic | mino-ai/app/api/auth.py:21-32 | the result is a format exactly when the header carries that format's magic (the four magics start differently), and None exactly when it carries none |
| AuthProps.PngSignatureIsPng | mino-ai/app/api/auth.py:25-26 | the full PNG signature of section 3.1 of RFC 2083, or only its first four bytes, is a PNG |
| AuthProps.ShortRiffIsNoImage | mino-ai/app/api/auth.py:29-30 | a `RIFF` header shorter than twelve bytes is no image |
| AuthProps.ValidateImageOfStream | mino-ai/app/api/auth.py:35-42 | the first 512 bytes give the format of the whole stream, prefixed with a dot, or None |
| Auth.TenantIdOf | mino-ai/app/api/auth.py:66-77 | a tenant id exactly for a 201 whose JSON body has `tenant_id`, and then that value |
| Auth.SignupUser | mino-ai/app/api/auth.py:124-133 | the new user has the given username and email, 100 credits, the tenant and the hash of the password |
| Auth.ApplyProfile | mino-ai/app/api/auth.py:303-314 | each present key replaces its field, `password` through the hashing setter, and nothing else changes (the same assignments as lines 359-370) |
| Auth.Synced | mino-ai/app/api/auth.py:412-419 | a truthy name renames, a truthy plan sets the subscription, and nothing else changes |
| Auth.Accounts.UploadProfileImage | mino-ai/app/api/auth.py:207-272 | the in-place handler equals `ProfileImageOutcome` |
| Auth.Accounts.Signup | mino-ai/app/api/auth.py:80-141 | the in-place handler equals `SignupOutcome` |
| Auth.Accounts.UpdateProfile | mino-ai/app/api/auth.py:299-340 | the in-place handler equals `ProfileOutcome`; the tenant service's answer is ignored (also `PUT /me`, lines 347-397) |
| Auth.Accounts.SyncUsers | mino-ai/app/api/auth.py:412-419 | the in-place loop equals `SyncAll` |
| Auth.Accounts.TenantUpdated | mino-ai/app/api/auth.py:400-421 | the in-place handler equals `TenantUpdatedOutcome` |
| Auth.Accounts.SyncTenantToUsers | mino-ai/app/api/auth.py:424-444 | the in-place handler equals `SyncTenantOutcome` |
| AuthProps.ProfileImageRefusals | mino-ai/app/api/auth.py:212-246 | the refusals, in order: no part, empty name, over 200 KiB, unknown format; a 400 or 404 leaves the table as it was |
| AuthProps.ProfileImageStored | mino-ai/app/api/auth.py:212-256 | On a well-formed table a 200 comes exactly for a named image of at most 200 KiB, in a known format, for an existing user; the 500 never happens. The user's row then holds the image and a new `updated_at`, and no other row changes. |
| AuthProps.SignupRefusals | mino-ai/app/api/auth.py:88-117 | the checks, in order: decodable password; non-empty username, password and email; free username; free email. Every refusal leaves the table as it was. |
| AuthProps.SignupCreatesUser | mino-ai/app/api/auth.py:105-137 | a 201 exactly when the checks pass and the tenant service gives a truthy id; then one row is appended with the next id, the fields, 100 credits, the tenant and the hash |
| AuthProps.LoginSucceeds | mino-ai/app/api/auth.py:155-184 | login succeeds exactly for a decodable password, a username or email, a user found (by username first) and a checked password; the token is that user's |
| AuthProps.UnknownUserLooksLikeWrongPassword | mino-ai/app/api/auth.py:171-182 | an unknown user and a wrong password get the same 401 response |
| AuthProps.ByUsernameOfAppended | mino-ai/app/models/user.py:49-65 | the row appended for a new username is what that username finds |
| AuthProps.LoginAfterSignup | mino-ai/app/api/auth.py:80-184 | signing up and then logging in with the same body logs in as the new user with 100 credits |
| AuthProps.ApplyProfileLaws | mino-ai/app/api/auth.py:303-314 | applying the fields twice is applying them once, and a body without the keys changes nothing |
| AuthProps.ProfileSaveFails | mino-ai/app/api/auth.py:316 | the profile save fails exactly when another user holds the new email |
| AuthProps.ProfileUpdateStatus | mino-ai/app/api/auth.py:280-344 | 404 exactly for an unknown user, 500 exactly for an email of another user, the table unchanged on both, and kept well-formed |
| AuthProps.ProfileUpdateWrites | mino-ai/app/api/auth.py:303-316 | a 200 writes exactly the assigned fields and a new `updated_at` into the user's row and changes no other row |
| AuthProps.SyncFrame | mino-ai/app/api/auth.py:412-419 | the loop writes only the rows of the users it is given |
| AuthProps.SyncPlanOnly | mino-ai/app/api/auth.py:436-442 | without a new name the loop never fails; every listed user keeps its other columns and takes a truthy plan |
| AuthProps.RenameStep | mino-ai/app/api/auth.py:412-419 | after a successful first rename the first user carries the name, the second is unchanged, and its own rename then fails |
| AuthProps.RenameOfSharedTenantFails | mino-ai/app/api/auth.py:412-419 | on two users of one tenant a rename always fails; the first user may be renamed, the second is unchanged |
| AuthProps.TenantSyncEffect | mino-ai/app/api/auth.py:432-444 | without a new name every user of the tenant is kept and moves to a truthy plan |
| AuthProps.TenantSyncFrame | mino-ai/app/api/auth.py:408-419 | users of other tenants are untouched |
| AuthProps.TenantUpdatedIgnoresDomain | mino-ai/app/api/auth.py:405-416 | the `domain` key changes nothing that is stored or answered |
| AuthProps.TenantUpdatedResponses | mino-ai/app/api/auth.py:400-421 | no `tenant_id` is a 500 and a tenant without users a 404, both without writing; a plan-only update answers 200 with the user count |
| AuthProps.SyncTenantResponses | mino-ai/app/api/auth.py:424-444 | a falsy `tenant_id` is a 400 and a tenant without users a 404, both without writing; a plan-only sync answers 200 with the user count |
| TenantSync.PayloadKeys | mino-ai/app/services/tenant_sync.py:11-18 | the payload has a key exactly for each truthy argument, with its value unchanged, and no other key |
| TenantSync.BuildPayload | mino-ai/app/services/tenant_sync.py:11-18 | the key-by-key construction gives that payload |
| TenantSync.SyncUrlAddressesTenant | mino-ai/app/services/tenant_sync.py:22 | the URL is the base plus `/` plus the tenant id, and names exactly that tenant |
| TenantSync.SyncUpdateTenant | mino-ai/app/services/tenant_sync.py:10-51 | true exactly when the `PUT` of the payload to the tenant's URL answers 200; every exception is false |
| TenantService.TenantDomain | mino-ai/app/services/tenant_service.py:33 | a domain exactly when the email holds an `@` |
| TenantService.RequestOfEmail | mino-ai/app/services/tenant_service.py:28-35 | for `local@domain` the tenant is named after the username, else the local part, in that domain, on the free plan |
| TenantService.DomainIsSecondPiece | mino-ai/app/services/tenant_service.py:33 | of `a@b@c` only `b` is the domain |
| TenantService.RequestWithoutAt | mino-ai/app/services/tenant_service.py:28-35 | an email without `@` names the tenant after itself and gives no domain |
| TenantService.CreateTenantOutcomes | mino-ai/app/services/tenant_service.py:22-61 | an unconfigured URL fails before any request; otherwise a tenant is created exactly for a 201 with a JSON body, with its `tenant_id` (None when missing), and every other answer fails |
| Products.Column | vigyani_inventory/app/models/products.py:16-19 | a NULL column is None and a set column its text |
| Products.ProductsOfRows | vigyani_inventory/app/models/products.py:36-44 | one record per row when none raises |
| Products.ProductsInOrder | vigyani_inventory/app/models/products.py:36-44 | the records are read exactly when no row raises, and record k is built from row k |
| Products.FeaturesFromDescription | vigyani_inventory/app/models/products.py:23-31 | with JSON features, the four fields are the first four items (None past the end) and every other field is as given |
| Products.ExtraFeaturesIgnored | vigyani_inventory/app/models/products.py:28-31 | items past the fourth change nothing |
| Products.GivenFeaturesKept | vigyani_inventory/app/models/products.py:23 | when the first or second column is set, the description is never parsed |
| Products.NoFeaturesKept | vigyani_inventory/app/models/products.py:24-34 | a description that is not JSON, not an object, or without `features` leaves the record as given |
| Products.OddFeatures | vigyani_inventory/app/models/products.py:27-34 | a features value without `len` leaves the record as given; a string is read character by character |
| ProductsApi.IntegerPart | vigyani_inventory/app/api/products.py:32-33 | `int(float(x))` truncates toward zero |
| ProductsApi.TruncationUnique | vigyani_inventory/app/api/products.py:32-33 | the truncation is unique, so it specifies `int` |
| ProductsApi.BuildDescription | vigyani_inventory/app/api/products.py:19-27 | the four conditional appends give the truthy features in field order |
| ProductsApi.GetProductList | vigyani_inventory/app/api/products.py:9-44 | the loop gives the listing of `ListOutcome`: 404 for no products, 500 when a conversion raises, else one entry per product |
| ProductsApi.EntriesOfPrefixFails | vigyani_inventory/app/api/products.py:42-44 | once an entry raises, the whole request fails |
| ProductsApi.EntriesInOrder | vigyani_inventory/app/api/products.py:17-38 | the entries exist exactly when every product has amount and credit, one per product, in order |
| ProductsApi.EntryFigures | vigyani_inventory/app/api/products.py:29-38 | amount and credit are truncated toward zero, `year_credit` is twelve times `month_credit`, and the description has at most four truthy features |
| ProductsApi.TruthyFeaturesListed | vigyani_inventory/app/api/products.py:19-27 | truthy features are listed as they are |
| ProductsApi.FalsyFeatureDropped | vigyani_inventory/app/api/products.py:19-27 | a falsy feature is dropped and the rest keep their order |
| ProductsApi.EmptyTableNotFound | vigyani_inventory/app/api/products.py:13-14 | the 404 comes exactly for an empty table |
| ProductsApi.DescriptionFromJsonFeatures | vigyani_inventory/app/api/products.py:19-38 | a product whose JSON description lists at least four non-empty strings is listed with exactly the first four |
| LogsApi.AllLogsWithoutStatus | vigyani_inventory/app/api/logs.py:12-30 | without a status every row is listed unchanged, in table order, and only an empty table is a 404 |
| LogsApi.AllLogsWithStatus | vigyani_inventory/app/api/logs.py:12-30 | with a status the entries are exactly the rows of that status, and a 404 exactly when none has it |
| LogsApi.LookupByTxnid | vigyani_inventory/app/api/logs.py:38-54 | a 404 exactly when no txnid is given or no row has it; otherwise the (unique) row with it, unchanged |

## Left out

- Network, gateway and cloud calls (the Razorpay client, PayU, `requests` to the tenant service, S3, Redis and SMTP) are not executed: their answers are parameters, and an email is a `Notice` appended to a list.
- SHA-512 and SHA-256 digests, werkzeug hashing, JWT tokens, `imghdr`, JSON parsing, UTF-8 and base64 password decoding are function parameters. The base64 encoder of the data URL is modelled.
- The clock is one `now` per request. `isoformat`, the `created_at` strings of the log listing and the upload time of an upload reply are not modelled.
- Floating point is not modelled:
  - the float `amount` of a log is an integer;
  - `year_amount` (`* 0.85`) is left out of the product entry;
  - the stored price decimals are reals, truncated exactly;
  - file sizes in MB are whole numbers, which `math.ceil` gives exactly.
- Payments.WholeUnits: states the rounding of `amount / 100` into the INT column as within half a unit of it, not MySQL's exact rounding mode.
- Concurrency is not modelled: each request runs alone. `verify_payment` is a read-modify-write without a lock.
- Connection handling and `db.py` are not modelled. Each statement is atomic, and a raising statement inside `db_transaction` is rolled back. Of the DDL, only the unique and NOT NULL facts the code relies on are kept.
- AUTO_INCREMENT ids are modelled without gaps. InnoDB also uses up an id on an `INSERT ... ON DUPLICATE KEY UPDATE` that takes the update path (`logs.py`) and on an INSERT that fails on a unique column (`user.py`, `payment.py`); the model leaves `nextId` unchanged there. So "the next id" in `Payments.SavePayment`, `Users.SaveUser`, `Files.InsertReadsBack` and `RazorpayProperties.CreateOrderInserts` is the next unused id of a gap-free counter; uniqueness and freshness of ids are unaffected.
- MySQL's case-insensitive collation is not modelled: username, email and txnid uniqueness is exact string equality.
- `LIMIT` with a negative or missing `limit` is not modelled (`limit` is a `nat`; the default 10 is the caller's).
- Queries.SortDesc: rows with equal keys keep table order. `ORDER BY` leaves their order unspecified, so the contracts state only the descending order and membership.
- PaymentLogs.ByStatus: states membership only, since SQL gives no order.
- The response bodies that repeat a user (login, profile GET, profile PUT, image upload) are not modelled beyond their status and message. That includes their base64 images. The profile GET is left out.
- The login handler's 500 ("Login failed") is not modelled, because no modelled step past the password decode raises.
- The `str(e)` texts of error responses are one `Raised` value. The 500s of the logs and products endpoints for database failures are not modelled, apart from a product conversion that raises.
- `validate_image`'s `stream.seek(0)` is not modelled: the stream is its bytes.
- RazorpayFlow.OrderRequest, RazorpayFlow.VerifyRequest: a request field is None when its key is absent, and a JSON `null` is read the same way; a value of the wrong JSON type is not modelled, and neither is a body that is not a JSON object (no JSON, `null`, or an array). For such a body `verify_payment` raises at its first `data.get` (razorpay.py:129), before any log is built; its outer handler sets the user's latest payment, when there is one, to "pending", saves it and answers 400 with the error text (razorpay.py:305-323). `create_order` raises at `data.get('amount')` (razorpay.py:36) and answers 500 (razorpay.py:94-96). Within an object body, null fields lose nothing for `verify_payment`, since its code treats null as absent. For `create_order` the source answers 500 in three more cases the model does not express:
  - `"notes": null` makes `notes.get('tierName')` raise, where the model uses `{}`;
  - a notes value that is not an object raises at the same line;
  - `"currency": null` breaks the NOT NULL `currency` column on insert after the gateway order exists, where the model uses "INR".
- Auth.Body: a request body is a map from keys to strings, so a JSON `null`, a non-string value or a body that is not an object is not modelled. In the source, `PUT /profile` with `"password": null` makes the hashing setter raise, and `"email": null` breaks the NOT NULL email column on save; both answer 500.
- AuthProps.ProfileSaveFails: "fails exactly when another user holds the new email" holds for string-valued bodies only; a null email, which also fails the save in the source, cannot be expressed (see Auth.Body).
- AuthProps.ProfileUpdateStatus: "500 exactly for an email of another user" holds for string-valued bodies only; the 500s for a null password or email cannot be expressed (see Auth.Body).
- The `password` getter of `User`, which always raises `AttributeError`, is not modelled: nothing in the core reads it.
- A profile `image` given as a JSON string is stored as-is. Only the bytes case of `get_base64_image` is connected to the user table.
- `process_payment_response` calls a `Payment(txnid=…, email=…, payment_data=…)` that the shown `Payments` model does not accept, and a `..models.user` that does not exist in that service. It is modelled by what it relies on: one appended record and `update_credits` on the user found by email.
- The inventory service's `User` model is not part of this model. The mino-ai `User` table stands in for it, with `update_credits` as an increment.
- `Config.TENANT_API_URL` is not defined in the configuration, so the tenant API URL is a parameter.
- `generate_job_id` (SHA-256 of the name, user and time) is a parameter: the job id.
- `save_edited_file` is not modelled beyond the summary key it shares with `get_file_summary`, because its only effect is the S3 `put_object`.
- The markdown-to-PDF conversion, the chat and speech services, the `files.py` routes, health checks, configuration, app factories and run scripts are not modelled: they are libraries or wiring.

## Findings

| source | as written | input that shows it | evidently intended | confidence | as-written member | corrected member |
|---|---|---|---|---|---|---|
| vigyani_inventory/app/services/payment_service.py:41-45 | The response hash string puts 10 `|` after `status`, i.e. 9 empty fields before `email`. | `status = "success"`, plain values and no extra charges: the string is 1 `|` shorter than PayU's signed sequence `SALT|status|||||\|udf5|…|udf1|email|…|key`, so a genuine PayU response fails verification. | 11 `|` after `status`: five reserved and five `udf` fields, as the function's own docstring and PayU's reverse hash sequence list. | not executed | PayU.VerifyResponseHashAsWritten, PayU.AsWrittenFields, PayU.AsWrittenRejectsSignedResponse, PayU.Receiver.Process, PayU.SignedResponseCreditsNothing | PayU.VerifyResponseHash, PayU.ResponseHashFields, PayU.Receiver.ProcessCorrected, PayU.SuccessCreditsThePayer |
