# go-concurrency-project core, modelled in Dafny

go-concurrency-project is a subscription web service written in Go. A user picks a
plan. The store replaces the user's existing plan inside one database transaction.
The mailer builds a confirmation message, and a signer produces the signed links that
activation mails carry. This project models the parts of that service that decide
what happens to data, and proves properties about them:

- **`SubscriptionTx`** (`subscription_tx.dfy`) models the plan-replacement
  transaction.
  - The `user_plans` table is a class, `UserPlanTable`, whose `rows` field the queries
    change in place.
  - `SubscribeUserToPlan` runs `handleExistingPlan` (look up, then delete), then
    `createNewSubscription` (insert), wrapping each step's error. It returns the
    table to its snapshot when any step fails.
  - What the database does on each call is a `Driver` parameter: whether each
    statement fails, and which error value an empty lookup returns.
- **`Mailer`** (`mailer.dfy`) models `NewMailSender` and `SendEmail` up to the
  hand-off to the SMTP client.
  - `SendEmail` fills the defaults, then sets the headers.
  - It builds the `{"message": data}` template data and renders both bodies.
  - It attaches the listed files, then the attachment-map entries, taking the map in
    any order.
  - Every failing step writes one error to the error channel, and the method carries
    on with the next step.
  - The mail library's address checks and the template renderers are function
    parameters (`MailLib`).
  - The error channel is a class whose `sent` sequence each send extends.
- **`PlanFormat`** (`plan_format.dfy`) models `planAmountFormatted` and `getInvoice`.
  Prices are integer cents rendered as `$<units>.<two digits>`, and a parser reads
  them back.
- **`Signer`** (`signer.dfy`) models `GenerateTokenFromString`, `VerifyToken` and
  `TokenExpired`.
  - The signing library's sign, unsign and timestamp parsing are parameters, and so
    are the clock and the secret.
  - int64 wrap-around of `time.Duration(minutes) * time.Minute` is modelled.
  - So is the saturation of `time.Since`.
- **`PoolSettings`** (`pool_settings.dfy`) models `poolConfig`: six settings override
  the parsed pool configuration wherever they are nonzero.
- **`GoTypes`** and **`Settings`** hold the shared Go types (int32, int64,
  `time.Duration`, pgtype values) and the application configuration record.

## Model

| member | source | states |
|---|---|---|
| SubscriptionTx.UserPlanTable.SubscribeUserToPlan | data/sqlc/subscribe_to_plan_tx.go:20-43 | the returned error is the first failing step's error, wrapped with that step's context; on success the user's rows are replaced by the single new row and that row is returned; on any error the table is unchanged (rolled back) and the result is the zero value |
| SubscriptionTx.UserPlanTable.HandleExistingPlan | data/sqlc/subscribe_to_plan_tx.go:45-60 | a lookup that ends in `ErrNoRows` returns no error and deletes nothing; any other lookup error is returned and deletes nothing; a found row is deleted by the found row's user, and a delete error is returned |
| SubscriptionTx.UserPlanTable.CreateNewSubscription | data/sqlc/subscribe_to_plan_tx.go:62-75 | inserts the row (user, plan) with both columns non-NULL and returns it; on an insert error the table is unchanged and the zero row comes back |
| SubscriptionTx.UserPlanTable.GetOneUserPlan | data/sqlc/subscribe_to_plan_tx.go:46-49 | the lookup succeeds exactly when the statement does not fail and the user has a row, and the row it returns belongs to the user; a user without rows gets the driver's no-rows error; a failure gives the zero row |
| SubscriptionTx.UserPlanTable.DeleteUserPlan | data/sqlc/subscribe_to_plan_tx.go:59 | removes every row of the user and keeps all other rows in order, or fails and changes nothing |
| SubscriptionTx.UserPlanTable.InsertUserPlan | data/sqlc/subscribe_to_plan_tx.go:74 | appends the row and returns it, or fails, changes nothing and returns the zero row |
| SubscriptionTx.Lookup | data/sqlc/subscribe_to_plan_tx.go:46-56 | the three-way classification: the no-rows branch is taken exactly when the statement succeeds, the user has no row and the driver's empty-result error equals `ErrNoRows`; a found row belongs to the user; a failure is never the sentinel |
| SubscriptionTx.FirstRowOf | data/sqlc/subscribe_to_plan_tx.go:46-49 | the row found is one of the user's rows, and none is found exactly when the user has no row |
| SubscriptionTx.SubscribedUserHasOneRow | data/sqlc/subscribe_to_plan_tx.go:26-40 | after a committed subscription the user has exactly one row, the new one |
| SubscriptionTx.SubscribedOthersUnchanged | data/sqlc/subscribe_to_plan_tx.go:26-40 | a committed subscription leaves every other user's rows exactly as they were, in order |
| SubscriptionTx.SubscribedKeepsInvariant | data/sqlc/subscribe_to_plan_tx.go:26-40 | a table with at most one row per user keeps that property after a committed subscription |
| SubscriptionTx.SubsequenceDistinct | data/sqlc/subscribe_to_plan_tx.go:59 | deleting a user's rows keeps the at-most-one-row-per-user property |
| SubscriptionTx.SubscribeTwice | data/sqlc/subscribe_to_plan_tx.go:20-43 | subscribing to p1 and then to p2 leaves one row for the user, for p2 |
| SubscriptionTx.TxSucceedsIffNoStepFails | data/sqlc/subscribe_to_plan_tx.go:26-42 | the transaction returns no error exactly when the lookup statement does not fail, the insert does not fail, a user without rows gets exactly `ErrNoRows` from the driver, and the delete issued for a user with rows does not fail |
| SubscriptionTx.LookupFailureAborts | data/sqlc/subscribe_to_plan_tx.go:28-30 | a lookup failure is returned as "handling existing plan: " followed by the driver's message |
| SubscriptionTx.InsertFailureWrapped | data/sqlc/subscribe_to_plan_tx.go:28-36 | whenever the insert is reached (the user's row was found and deleted, or the user had none and the lookup ended in `ErrNoRows`), an insert failure is returned as "creating new subscription: " followed by the driver's message |
| SubscriptionTx.DeleteFailureAborts | data/sqlc/subscribe_to_plan_tx.go:28-30 | when the user's row is found but its delete fails, the delete error is returned as "handling existing plan: " followed by the driver's message, before any insert |
| SubscriptionTx.FirstSubscriptionNeedsSentinel | data/sqlc/subscribe_to_plan_tx.go:51-56 | for a user without a plan, an empty-result error that is not `==` to `ErrNoRows` makes the whole subscription fail with that error wrapped as "handling existing plan" |
| SubscriptionTx.NoRowsKeepsTable | data/sqlc/subscribe_to_plan_tx.go:51-53 | with no row for the user, deleting the user's rows is the identity, so the no-rows branch loses nothing by skipping the delete |
| SubscriptionTx.RowsOfWithoutOther | data/sqlc/subscribe_to_plan_tx.go:59 | deleting one user's rows does not change which rows another user has |
| SubscriptionTx.NoRowsOfRemoved | data/sqlc/subscribe_to_plan_tx.go:59 | after deleting a user's rows the user has none |
| Mailer.NewMailSender | cmd/web/mailer.go:53-70 | the "mailtrap" service, and only it, gives a sender: its host is sandbox.smtp.mailtrap.io, port 2525, plain SMTP auth, and its name, address, login, password and template directory come from the configuration; any other service is the "not implemented" error |
| Mailer.Defaulted | cmd/web/mailer.go:77-89 | template, sender name, sender address and attachment map are filled with "mail", the sender's values and an empty map exactly where the message leaves them empty or nil, and are kept otherwise |
| Mailer.DefaultedKeepsOtherFields | cmd/web/mailer.go:77-89 | filling the defaults changes no other field of the message |
| Mailer.DefaultedIdempotent | cmd/web/mailer.go:77-89 | filling the defaults twice is filling them once |
| Mailer.ApplyDefaults | cmd/web/mailer.go:77-89 | the four guarded assignments give the defaulted message |
| Mailer.TemplateData | cmd/web/mailer.go:106-109 | the template data has the single key "message", holding the message's data |
| Mailer.TemplatePathsShape | cmd/web/mailer.go:112-119 | both template paths are the directory, "/", the template name and a ".plain.gohtml" or ".html.gohtml" suffix, and the two paths differ |
| Mailer.RenderFault | cmd/web/mailer.go:113-122 | a render step reports an error exactly when rendering fails |
| Mailer.SetHeaders | cmd/web/mailer.go:91-103 | the channel receives the sender, To, Cc and Bcc errors in that order, one per failing call, and nothing else |
| Mailer.ReportFault | cmd/web/mailer.go:92-94 | one error is sent when the call fails, none when it succeeds |
| Mailer.BuildBodies | cmd/web/mailer.go:111-124 | each body is the renderer's output for its template path and the template data, or empty when rendering fails, and the channel receives the plain, then the HTML render error |
| Mailer.CollectAttachments | cmd/web/mailer.go:126-132 | the listed files are attached first, in order and without a file name; then every map entry is attached exactly once, its value as path and its key as file name |
| Mailer.AttachMapEntries | cmd/web/mailer.go:130-132 | every map entry is attached exactly once, in any order, and nothing else is |
| Mailer.SendEmail | cmd/web/mailer.go:72-133 | the prepared message is the defaulted one with the template data set; the channel receives exactly the setup errors in step order; the draft carries the defaulted sender, the recipients and subject, the two rendered bodies and the attachments |
| Mailer.SetupErrorsExact | cmd/web/mailer.go:91-123 | an error is written exactly for each setup step that fails, carrying that step's cause; the errors come in the order the steps run, so there are at most six |
| Mailer.SetupErrorsSplit | cmd/web/mailer.go:91-123 | the setup errors are the header errors followed by the body errors |
| Mailer.ErrorsIgnoreTemplateData | cmd/web/mailer.go:106-109 | setting the template data changes none of the steps' errors |
| Mailer.ReportsMembers | cmd/web/mailer.go:91-123 | for any list of steps, the errors written are exactly the failures of those steps, with their causes |
| Mailer.ReportsOrdered | cmd/web/mailer.go:91-123 | steps run in increasing order write their errors in that order |
| PlanFormat.FormatPlan | cmd/web/handlers.go:257-264 | the display record copies id, name, amount and both timestamps, and its price string reads back as the plan's amount in cents |
| PlanFormat.PlanAmountFormatted | cmd/web/handlers.go:254-268 | one display record per plan, in the same order, each the plan's display record |
| PlanFormat.FormatCentsRoundTrip | cmd/web/handlers.go:258 | every price string `$%.2f` of cents/100 parses back to the amount in cents, negative amounts included |
| PlanFormat.FormatCentsExamples | cmd/web/handlers.go:258 | 1000 cents is "$10.00", 5 is "$0.05" and -5 is "$-0.05" |
| PlanFormat.ParseDecimalOfDecimal | cmd/web/handlers.go:258 | the decimal numeral of a natural number reads back as that number |
| PlanFormat.GetInvoice | cmd/web/handlers.go:376-379 | never an error; the invoice is the same price string the plans page shows and reads back as the plan's amount |
| Signer.URLToSign | cmd/web/signer.go:14-21 | the signed string is the URL followed by `&hash=` when the URL has a `?` and by `?hash=` otherwise |
| Signer.URLToSignHasQuery | cmd/web/signer.go:17-21 | the signed string always has a query; a URL without one gets a `?` at its end and none before |
| Signer.URLToSignRecoversURL | cmd/web/signer.go:17-21 | dropping the six appended characters gives the URL back |
| Signer.GenerateTokenFromString | cmd/web/signer.go:12-27 | the token is the library's signature, with the secret and the current time, of the URL with its hash parameter |
| Signer.VerifyToken | cmd/web/signer.go:30-43 | true exactly when unsigning the token reports no error |
| Signer.TokenExpired | cmd/web/signer.go:46-53 | where neither duration overflows, a token is expired exactly when the time since its timestamp is strictly more than the given minutes |
| Signer.ExpiryBoundaryNotExpired | cmd/web/signer.go:52 | a token exactly at its limit is not expired, for every limit (negative ones included) whose duration does not wrap |
| Signer.TokenExpiredMonotone | cmd/web/signer.go:52 | a token expired under a limit is expired under any smaller limit |
| Signer.TokenExpiredOverflow | cmd/web/signer.go:52 | a limit of one minute past the int64 range of minutes wraps to a negative duration, so a freshly signed token counts as expired |
| Signer.Since | cmd/web/signer.go:52 | `time.Since` is the difference of the clock and the timestamp whenever that fits in an int64 |
| Signer.MinutesDuration | cmd/web/signer.go:52 | the duration is the minutes times one minute whenever that fits in an int64 |
| PoolSettings.Overridden | cmd/web/main.go:110-127 | each of the six pool settings is the configured value when nonzero and the parsed value otherwise; every other field is the parsed one |
| PoolSettings.PoolConfig | cmd/web/main.go:102-130 | the six guarded assignments give the overridden configuration |
| PoolSettings.ZeroSettingsKeepParsed | cmd/web/main.go:110-127 | with all six settings zero the parsed configuration is returned unchanged |
| PoolSettings.OnlySixSettingsChange | cmd/web/main.go:110-127 | only the six settings can differ from the parsed configuration |
| PoolSettings.OverriddenIdempotent | cmd/web/main.go:110-127 | applying the overrides again changes nothing |

## Left out

- `ListenForMail`, the goroutines that run `SendEmail`, the `WaitGroup` and the shutdown path are concurrency. They are not modelled; the error channel is a sequence of sent errors.
- The SMTP client, `DialAndSend`, and the errors they write to the channel (cmd/web/mailer.go:134-147) are network I/O and are not modelled.
- Template parsing and execution and the premailer inlining (cmd/web/mailer.go:150 onwards) are abstract renderers (`MailLib.renderPlain`, `MailLib.renderHtml`).
- The mail library's address parsing is abstract (`MailLib.fromFormat`, `MailLib.addresses`). Attaching a file is recorded as a call; whether the library later fails on an unreadable file is not modelled.
- `execTx` and the generated query bodies are not part of this model. The model assumes the following:
  - the transaction rolls back to the table as it was whenever the closure returns an error;
  - begin and commit do not fail;
  - `DeleteUserPlan` removes every row of the user;
  - `InsertUserPlan` appends one row.
- `UserPlan` holds only `user_id` and `plan_id`; the table's other columns are not modelled.
- Which error value pgx returns for an empty lookup is a parameter (`Driver.noRows`). The model does not claim whether it is `==` to database/sql's `ErrNoRows`; `FirstSubscriptionNeedsSentinel` shows what happens when it is not.
- PlanFormat.FormatCents: `"$%.2f"` of `float64(amount)/100` is modelled as exact decimal rendering of integer cents; floating-point rounding is not modelled.
- TokenExpiredMonotone: stated only where the minute counts do not overflow an int64 duration, because past that range the wrapped duration is not monotone (TokenExpiredOverflow).
- The signing library (go-alone) is abstract: `sign`, `unsign` and the timestamp it parses back are parameters, so nothing is claimed about the HMAC.
- The clock is a parameter (`now`), and the server's secret is passed in rather than read from the server's configuration.
- Parsing the connection string and the `log.Fatal` on a parse error (cmd/web/main.go:104-109) are not modelled: the parsed configuration is a parameter.
- The HTTP handlers, sessions, page rendering, PDF invoices, password hashing and configuration loading are outside this core and are not modelled.
