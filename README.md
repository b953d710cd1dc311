# Rockland order API: order gate and account flows, in Dafny

This project models the two controllers that hold the logic of the Rockland order
backend.

- **OrderController** decides whether a purchase-order submission is stored. The guards
  run in a fixed order, and the first one that fails decides the answer:
  1. the submission is null;
  2. a required shipping-address field is empty;
  3. the attached PDF does not start with `%PDF` or is not smaller than the size limit;
  4. the shipping option is unknown;
  5. the line totals plus shipping do not equal the order total, compared exactly;
  6. the caller's account id is missing or unknown.

  Only when all six pass is one `UserOrder` with status `New` appended to the order table.
- **AuthController** issues tokens on `Login`, answers `ConfirmEmail`, and runs `Register`.
  `Register` makes three checks and then, inside a database transaction, creates the
  account, sends the mail and builds the token. It commits only if all three succeed and
  rolls back otherwise. The claim list that `GenerateJwtToken` puts into a token is
  modelled exactly.

Files, one module each:
- `common.dfy` (`Common`): optional values and nullable C# strings.
- `data.dfy` (`Data`): the stored entities.
- `models.dfy` (`Models`): the request bodies.
- `order_controller.dfy` (`Orders`): the PDF check, the guard chain and the
  `OrderController` class.
- `jwt_claims.dfy` (`Tokens`): the claim list and reading it back.
- `auth_controller.dfy` (`Auth`): `Login`, `ConfirmEmail`, the outcome of `Register`, and
  the `AuthController` class whose `Register` method changes the account table in steps.

How the model represents the source:
- Money is a Dafny `real`. C# `decimal` is exact in base 10, so the total check is an
  exact comparison.
- The PDF is a `seq<bv8>`.
- A C# string that may be `null` is an `Option<string>`.
- Everything the controllers ask of outside code is given as a parameter:
  - the ShippingOptions table and the accounts by id, as maps;
  - the caller's `NameIdentifier` claim;
  - the clock;
  - whether `SaveChangesAsync` completes;
  - the identity library's answers (password check, e-mail confirmation, account
    creation, new account id), the time-zone lookup and the mail sending, as the
    function fields of `IdentityServices`.

Behaviour of the code worth knowing, which the model keeps:
- `CreateOrder` stores the submitted `Details` as given. It does not look each product up
  again.
- `CreateOrder` saves with a single `SaveChangesAsync` and opens no transaction of its own.
  The model assumes that a failed save stores nothing.
- `TimeZoneInfo.FindSystemTimeZoneById` throws on an unknown id. The outer `catch` then
  answers 500, not 400. Only a `null` result gives "Invalid time zone." Both outcomes are
  modelled (`ZoneThrows`, `ZoneNull`).
- A `Claim` cannot hold a `null` value. `Register` does not require the middle name, the
  suffix or the address fields. So a registration that leaves any of them out cannot get
  a token: once the account is created and the mail sent, building the claim list throws,
  the transaction is rolled back and the answer is 500. `OmittedOptionalFieldEndsInError`
  states this.
- Line items are not checked: a zero quantity or a negative price passes as long as the
  totals agree. `UncheckedLineItemAccepted` shows such an order being accepted.

## Model

| member | source | states |
|---|---|---|
| `Orders.DefaultLimitIsTwoMebibytes` | RocklandOrderAPI/Controllers/OrderController.cs:30 | with no configured value the PDF size limit is 2,097,152 bytes (2 MiB) |
| `Orders.FileSizeLimit` | RocklandOrderAPI/Controllers/OrderController.cs:30 | the limit is the configured value when one is given, and 2 MiB otherwise |
| `Orders.OrderController.constructor` | RocklandOrderAPI/Controllers/OrderController.cs:21-31 | the limit is the configured value, or 2,097,152 when none is given |
| `Orders.ReadBytes` | RocklandOrderAPI/Controllers/OrderController.cs:131 | reading the header gives a prefix of the file, of length 4 or the whole file if shorter |
| `Orders.ValidatePdf` | RocklandOrderAPI/Controllers/OrderController.cs:123-135 | accepts iff the file has at least 4 bytes, they are 25 50 44 46, and its length is strictly below the limit |
| `Orders.WrongSignatureRejected` | RocklandOrderAPI/Controllers/OrderController.cs:125-132 | a file not starting with "%PDF" is rejected whatever its size |
| `Orders.OversizedRejected` | RocklandOrderAPI/Controllers/OrderController.cs:132 | a file whose length equals or exceeds the limit is rejected even with a valid signature |
| `Orders.ShortOrTinyLimitRejected` | RocklandOrderAPI/Controllers/OrderController.cs:131-132 | files under 4 bytes are rejected, and every file is rejected when the limit is 4 or less |
| `Orders.SignedSmallFileAccepted` | RocklandOrderAPI/Controllers/OrderController.cs:123-133 | the signature and the size are the only two conditions: every signed file under the limit is accepted |
| `Orders.DetailsSum` | RocklandOrderAPI/Controllers/OrderController.cs:76 | the sum of a single line is its total, and the sum of non-negative line totals is non-negative |
| `Orders.TotalMatches` | RocklandOrderAPI/Controllers/OrderController.cs:76 | when the lines' totals are non-negative, a matching order total is at least the shipping amount |
| `Orders.DetailsSumAppend` | RocklandOrderAPI/Controllers/OrderController.cs:76 | the line-total sum over two runs of lines is the sum of their sums |
| `Orders.GuardOrderRunsEachGuardOnce` | RocklandOrderAPI/Controllers/OrderController.cs:55-92 | every guard is in the chain exactly once, and the caller check is the last |
| `Orders.AddressGivenIn` | RocklandOrderAPI/Controllers/OrderController.cs:60-63 | passing the address check means the first line, city, state and postal code are each present and non-empty |
| `Orders.Holds` | RocklandOrderAPI/Controllers/OrderController.cs:55-92 | every input guard passes only for a present submission, the total guard only with a known shipping option, and the caller guard only with an id of a known account |
| `Orders.Rejection` | RocklandOrderAPI/Controllers/OrderController.cs:57-91 | no guard answers Ok; the five input guards answer BadRequest, and only the caller guard answers Unauthorized |
| `Orders.FirstFailing` | RocklandOrderAPI/Controllers/OrderController.cs:55-92 | gives the position of the first failing guard: all guards before it hold, and the guard at that position fails |
| `Orders.Decide` | RocklandOrderAPI/Controllers/OrderController.cs:55-92 | an accepted submission is present, has all four required address fields, a valid PDF, a known shipping option and a matching total, and comes from a known caller; the verdict carries that option and that account |
| `Orders.RejectionsDistinct` | RocklandOrderAPI/Controllers/OrderController.cs:57-91 | two different guards never give the same answer |
| `Orders.AcceptedIffAllGuardsHold` | RocklandOrderAPI/Controllers/OrderController.cs:55-92 | a submission is accepted exactly when every guard holds |
| `Orders.FirstFailureDecides` | RocklandOrderAPI/Controllers/OrderController.cs:55-92 | when guard k fails and every earlier guard holds, the answer is guard k's, whatever the later guards would say |
| `Orders.UnauthorizedOnlyAfterInputChecks` | RocklandOrderAPI/Controllers/OrderController.cs:81-92 | the answer is Unauthorized exactly when all five input guards hold and the caller's id is missing, empty or unknown; it is never BadRequest in that case |
| `Orders.InputErrorIndependentOfCaller` | RocklandOrderAPI/Controllers/OrderController.cs:55-80 | a BadRequest stays the same whatever the caller's id and the account table are |
| `Orders.Address2NeverChecked` | RocklandOrderAPI/Controllers/OrderController.cs:60-63 | changing ShippingAddress2 never changes the verdict |
| `Orders.AcceptedTotalMatches` | RocklandOrderAPI/Controllers/OrderController.cs:76-79 | an accepted submission's line totals plus the shipping amount equal its order total exactly |
| `Orders.TotalMismatchExample` | RocklandOrderAPI/Controllers/OrderController.cs:76-79 | lines summing to 100.00 with 10.00 shipping and a total of 109.99 get "Order total does not match the expected amount." |
| `Orders.UncheckedLineItemAccepted` | RocklandOrderAPI/Controllers/OrderController.cs:76-97 | a line with quantity 0 and a negative price is accepted when the totals agree |
| `Orders.NewOrder` | RocklandOrderAPI/Controllers/OrderController.cs:94-108 | the built order is New, dated at the write time, references the given account and shipping option, holds the submitted lines and file, and keeps total == sum of lines + shipping whenever the total check passed |
| `Orders.AcceptedOrderWellFormed` | RocklandOrderAPI/Controllers/OrderController.cs:94-108 | the order built from an accepted submission keeps total == sum of lines + shipping, has status New, has the submission's number of lines and total, and references the caller's account |
| `Orders.OrderController.CreateOrder` | RocklandOrderAPI/Controllers/OrderController.cs:50-120 | gives the first failing guard's answer; otherwise Ok, or the generic error if the save fails; the table gains exactly the built order only when every guard passes and the save completes, and is unchanged otherwise |
| `Tokens.BoolToString` | RocklandOrderAPI/Controllers/AuthController.cs:220-221 | a flag's string is "True" exactly when the flag is set, and "False" exactly when it is not |
| `Tokens.ParseBool` | RocklandOrderAPI/Controllers/AuthController.cs:220-221 | a flag string that parses is the string form of the parsed value |
| `Tokens.ParseBoolToString` | RocklandOrderAPI/Controllers/AuthController.cs:220-221 | the string form of an opt-in flag parses back to that flag |
| `Tokens.UserClaims` | RocklandOrderAPI/Controllers/AuthController.cs:205-222 | the list exists iff every claimed string is non-null; it has exactly 15 claims, whose types are sub, unique_name, email, given_name, family_name and the ten profile names, in that order |
| `Tokens.GenerateJwtToken` | RocklandOrderAPI/Controllers/AuthController.cs:201-245 | a token is produced iff the claim list can be built, and it carries exactly that list |
| `Tokens.FindFirstValueAt` | RocklandOrderAPI/Controllers/OrderController.cs:81 | looking a claim type up returns the value of the first claim of that type |
| `Tokens.FindFirstValueSound` | RocklandOrderAPI/Controllers/OrderController.cs:81 | a value found belongs to some claim of the requested type, and nothing is found exactly when no claim has that type |
| `Tokens.ClaimTypesDistinct` | RocklandOrderAPI/Controllers/AuthController.cs:205-222 | no claim type occurs twice in the list |
| `Tokens.ClaimsRoundTrip` | RocklandOrderAPI/Controllers/AuthController.cs:205-222 | reading the claims back by type gives the account id as subject, every name and profile field unchanged, and opt-in flags that parse back to the account's booleans |
| `Auth.FindFirst` | RocklandOrderAPI/Controllers/AuthController.cs:78 | a found account is in the table and matches; nothing is found iff no account matches |
| `Auth.FindByName` | RocklandOrderAPI/Controllers/AuthController.cs:43 | a found account is in the table and has the user name; nothing is found iff no account has it |
| `Auth.FindByEmail` | RocklandOrderAPI/Controllers/AuthController.cs:78-82 | a found account is in the table and has the address; nothing is found iff the address is not in use |
| `Auth.FindByEmailUnique` | RocklandOrderAPI/Controllers/AuthController.cs:78-82 | when addresses are unique, the lookup by email returns the one account that holds the address |
| `Auth.Login` | RocklandOrderAPI/Controllers/AuthController.cs:38-58 | a token iff an account has the user name, its password check succeeds and its claims can be built; Unauthorized iff the account is missing or the password check fails; otherwise the generic error; a token is exactly the one GenerateJwtToken builds for the account found by name, so its subject is that account's id |
| `Auth.ConfirmEmail` | RocklandOrderAPI/Controllers/AuthController.cs:148-172 | NotFound iff no account has the address; Ok iff one does and the confirmation succeeds; BadRequest iff one does and it fails |
| `Auth.MissingRequiredField` | RocklandOrderAPI/Controllers/AuthController.cs:67-72 | passing the field check means the user name, password, first and last name, email and time-zone id are each present and non-empty |
| `Auth.NewUser` | RocklandOrderAPI/Controllers/AuthController.cs:95-111 | the new account has the given id, the request's email and an empty company name; its claims can be built exactly when every string the token carries was submitted |
| `Auth.RegisterOutcome` | RocklandOrderAPI/Controllers/AuthController.cs:61-146 | the answer is a token, a BadRequest with one of the four registration messages, or the generic 500 error; a token is only given for a request with all required fields, and it is exactly the one GenerateJwtToken builds for the new account |
| `Auth.RegisterGuardsInOrder` | RocklandOrderAPI/Controllers/AuthController.cs:66-88 | a missing required field wins over a taken address, which wins over a null time zone |
| `Auth.RegisterSucceedsIff` | RocklandOrderAPI/Controllers/AuthController.cs:66-132 | a token iff the six required fields are present, the address is free, the zone is found, creation succeeds, the mail is sent and every optional string the token carries is present |
| `Auth.RegisterFailureAnswers` | RocklandOrderAPI/Controllers/AuthController.cs:84-138 | past the field and address checks: a throwing zone lookup, a throwing creation, a failed mail and a throwing token build give the generic 500 error; a failed or null creation result gives "Registration failed." |
| `Auth.OmittedOptionalFieldEndsInError` | RocklandOrderAPI/Controllers/AuthController.cs:95-139 | a request without a middle name, suffix or address part that passes everything else ends in the generic 500 error |
| `Auth.RegisteredTokenCarriesRequest` | RocklandOrderAPI/Controllers/AuthController.cs:95-132 | the returned token's subject is the new account's id, and every profile claim reads back as the submitted field |
| `Auth.AuthController.BeginTransaction` | RocklandOrderAPI/Controllers/AuthController.cs:92 | records the rows as they stand and opens the transaction |
| `Auth.AuthController.Rollback` | RocklandOrderAPI/Controllers/AuthController.cs:117 | restores the rows recorded when the transaction began |
| `Auth.AuthController.Commit` | RocklandOrderAPI/Controllers/AuthController.cs:131 | keeps the rows written and closes the transaction |
| `Auth.AuthController.InsertUser` | RocklandOrderAPI/Controllers/AuthController.cs:113 | appends the created account; email addresses stay unique |
| `Auth.AuthController.Register` | RocklandOrderAPI/Controllers/AuthController.cs:61-146 | gives the answer RegisterOutcome describes; the table gains exactly the new account copied from the request when a token is returned, and is unchanged otherwise; addresses stay unique and no transaction is left open |

## Left out

- SMTP delivery (`SendVerificationEmail`) is network I/O. Together with the generation of
  the confirmation token and link, it is a collaborator that either completes or throws.
- JWT signing and serialisation are library internals. So are the issuer, the audience,
  the expiry computed from the clock, and the configuration reads. A token is its claim
  list, and signing is assumed not to throw.
- The identity library is left out: password hashing, normalisation of user names and
  addresses, creation of confirmation tokens and checking them, and the update of the
  account's confirmed flag by `ConfirmEmailAsync`. The lookups by name and email here
  compare exactly.
- Exceptions are modelled only from the collaborators listed above. The others end in 500
  through the `catch` blocks and are left out: `FindByEmailAsync`, `FindByNameAsync`,
  `CheckPasswordSignInAsync`, `ConfirmEmailAsync`, `ShippingOptions.FindAsync`,
  `FindByIdAsync`, and the transaction calls `BeginTransaction`, `CommitAsync` and
  `RollbackAsync`.
- Auth.AuthController.Commit: always succeeds. In the source a throwing `CommitAsync` is
  caught, the transaction is rolled back and the answer is 500.
- Auth.AuthController.Register: its promise that addresses stay unique (`EmailsUnique`)
  holds only when registrations run one at a time. In the source the address check and
  the insert are separate awaits, so two concurrent requests with the same address can
  both pass the check. Concurrency is not modelled. The constructor also requires
  unique addresses in the stored table, which the source never checks.
- A `null` Details collection, or a `null` line item, makes the sum throw and ends in 500.
  In the model, details are never null.
- C# `decimal` has 28–29 significant digits and can overflow. The model's amounts are
  unbounded exact reals.
- `GetShippingOptions` is a plain read of the table with a 500 fallback. It has no logic.
- DataController, the migrations and ApplicationDbContext are schema and platform
  plumbing. The database-generated keys of orders and lines, and the foreign-key fix-up of
  lines on save, are ORM behaviour and are not modelled.
- Product.cs is not part of this model. A product is kept by its id only.
- LoginModel.cs is not part of this model. Its two fields are the ones `Login` reads.
- Framework plumbing is left out: async tasks, routing, JSON and base64 binding, the
  `[Authorize]` middleware, the mapping of the token's `sub` claim to `NameIdentifier`,
  and logging.
