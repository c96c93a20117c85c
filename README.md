# deel-assignment server core, modelled in Dafny

The server is a small marketplace ledger. It has three tables:

- profiles: clients and contractors, each with a balance;
- contracts: between a client and a contractor, with a status of `new`, `in_progress` or `terminated`;
- jobs: on a contract, with a price, a `paid` flag and a payment date.

The caller is always an existing profile, identified by the authentication middleware. This model covers the following endpoints:

- `POST /jobs/:jobId/pay`: the caller, as the job's client, pays the job. The price moves from the caller's balance to the contractor's, and the job is marked paid. It runs as one exclusive transaction.
- `GET /jobs/unpaid`: the unpaid jobs on the caller's in-progress contracts.
- `POST /balances/deposit/:userId`: moves an amount from the caller's balance to another profile. The amount may be at most a quarter of what the caller still owes for unpaid jobs. It also runs as one exclusive transaction.
- `GET /contracts/:id`: one contract, if the caller is a party to it.
- `GET /contracts`: the caller's contracts that are not terminated.
- `GET /all-contracts`: all of the caller's contracts.
  - Each listed contract is tagged with the caller's role.
- `GET /admin/best-profession`: the contractor profession that earned the most in a date range.
- `GET /admin/best-clients`: the clients who paid the most in a date range, up to a limit.
  - Both admin reports share a validator for the `start` and `end` query parameters.
- `issuesToString`: renders the validation issues of a request body as one line.

The files are:

- `models.dfy`: the tables (`Store`), the error codes, the balance transfer, and the `Ledger` class. `Ledger` holds the tables as fields that the transactions update in place.
- `jobs.dfy` and `profiles.dfy`: each transaction is a pure transition function from the committed store to the reply and the next store (`Jobs.Pay`, `Profiles.Deposit`). The lemmas are proved about those functions. An imperative method on the `Ledger` (`Jobs.PayForJob`, `Profiles.DepositMoney`) runs the checks and then the writes in the order the controller does, and is proved equal to the function.
- `admin.dfy`: the date-range middleware, which is an imperative method proved equal to a function, and both reports. SQL `group by` / `sum` / `order by ... desc` / `limit` are modelled as sums over the keys of the jobs table, an insertion sort and a prefix.
- `contracts.dfy`: the three contract queries.
- `parsing.dfy`: JavaScript's `parseInt(string)`, and the id validator `z.preprocess(parseInt, z.number().nonnegative())` that every controller applies to its path parameters.
- `utils.dfy`: `issuesToString`.
- `keys.dfy` and `wrappers.dfy`: sorted key sets, sums, `Option` and `Result`.
- `scenarios.dfy`: the outcomes the server's test suite expects of the two transactions. The seeded rows are not part of the model. Each scenario requires only the rows its request reads and that the suite's own assertions reveal (for example, client 1's balance of 1150 and job 2's price of 201). Other rows are left free. The scenarios with valid ids and amounts hold for any request text that `parseInt` reads as the test's values. `PayHello`, `DepositBadUser` and `DepositBadAmount` are stated for the test's literal texts: "hello", "0" and "2".

Money is `real`. Ids are `nat`. A date is an `int` timestamp.

## Model

| member | source | states |
|---|---|---|
| Models.Transfer | server/src/controllers/jobs.js:97-115 | the payer's balance drops by the amount and the payee's rises by it; when no profile has the payee's id, nothing is added; a transfer to oneself changes nothing; no other profile changes and no row is added or removed |
| Models.TransferConserves | server/src/controllers/profiles.js:92-104 | a transfer between two existing profiles keeps the sum of all balances; towards a missing id, the amount leaves the ledger |
| Models.AddToBalance | server/src/controllers/profiles.js:94-99 | `update ... set balance = balance + amount where id = k`: only row k's balance changes, by exactly the amount, and its other columns stay; no row is added or removed, and every other row is unchanged; with no row k, nothing changes |
| Models.AddToBalanceTotal | server/src/controllers/profiles.js:97-103 | adding to one existing balance adds exactly that much to the total; an update of a missing id changes nothing |
| Models.Ledger.constructor | server/src/controllers/jobs.js:55 | the handle's tables are the given store |
| Jobs.UnpaidJobs | server/src/controllers/jobs.js:7-40 | lists a job exactly when it is not paid and its contract is in progress with the user as client or contractor; ascending, with no duplicates |
| Jobs.Pay | server/src/controllers/jobs.js:42-193 | an unreadable id gives `invalid_job_id`; every refusal leaves the store unchanged; success means the payer is the job's client, the contract is not terminated, the job was unpaid and its price is within the payer's balance; after success the job is paid with date `now`, the new profiles table is exactly the transfer of the price from the payer to the contractor (only the two balances change), and nothing else has changed |
| Jobs.PayNotFound | server/src/controllers/jobs.js:70-86 | a missing job and a job whose contract has another client both give `job_not_found`, with no change |
| Jobs.PayPrecedence | server/src/controllers/jobs.js:86-95 | a found job is refused as terminated, then as already paid with its date, then for insufficient funds; payment succeeds exactly when the contract is new or in progress, the job is unpaid and the balance covers the price |
| Jobs.PayConserves | server/src/controllers/jobs.js:97-115 | a payment keeps the total balance when the contractor exists; otherwise the total drops by the price |
| Jobs.PayTwice | server/src/controllers/jobs.js:89 | paying a paid job again gives `already_paid` with the first payment's date, and changes nothing |
| Jobs.PayKeepsConsistent | server/src/controllers/jobs.js:95-149 | balances stay non-negative, and every paid job has a payment date |
| Jobs.PayLeavesUnpaid | server/src/controllers/jobs.js:146-149 | the paid job leaves every user's unpaid list, and every other job's membership is unchanged |
| Jobs.PayForJob | server/src/controllers/jobs.js:42-153 | the in-place transaction's reply and new tables are those of `Jobs.Pay` |
| Profiles.ParseAmount | server/src/controllers/profiles.js:33-42 | the amount is accepted exactly when `parseInt` reads a positive number, and the amount is that number; NaN gives the issue "amount: Expected number, received nan"; zero or a negative number gives "amount: Number must be greater than 0" |
| Profiles.TotalOwed | server/src/controllers/profiles.js:70-73 | the debt is 0 when the sender owes no unpaid job; it is never negative on a consistent store |
| Profiles.Transact | server/src/controllers/profiles.js:48-106 | a refusal leaves the store unchanged; success means the recipient is another existing profile, and the amount is within both the balance and a quarter of the debt; the new profiles table is exactly the transfer of the amount, so only the two balances change |
| Profiles.Deposit | server/src/controllers/profiles.js:19-106 | the user id is validated first (`invalid_user_id`), then the body (`invalid_request_body` with the rendered issues); a refusal changes nothing; success moves the positive amount `parseInt` read, within the balance and the cap, from the caller to another existing profile; the new profiles table is exactly that transfer, and nothing else changes |
| Profiles.DepositPrecedence | server/src/controllers/profiles.js:56-89 | the checks run in order: self, then missing recipient, then insufficient funds, then over the cap; an amount exactly at the cap succeeds; `deposit_too_large` carries the debt |
| Profiles.DepositNeedsDebt | server/src/controllers/profiles.js:70-89 | a caller who owes nothing can never deposit |
| Profiles.DepositConserves | server/src/controllers/profiles.js:92-104 | a deposit keeps the total balance |
| Profiles.DepositKeepsConsistent | server/src/controllers/profiles.js:80-104 | no balance becomes negative |
| Profiles.OwedAtLeast | server/src/controllers/profiles.js:70-73 | when no owed job has a negative price, the debt is at least the price of each job the sender owes |
| Profiles.MarkPaidLowersDebt | server/src/controllers/profiles.js:70-73 | marking one owed job paid lowers the debt by exactly its price |
| Profiles.PayLowersDebt | server/src/controllers/jobs.js:146-149 | a successful payment lowers the payer's debt, and so the deposit cap, by the job's price |
| Profiles.DepositMoney | server/src/controllers/profiles.js:19-109 | the in-place transaction's reply and new tables are those of `Profiles.Deposit` |
| Parsing.TrimStart | server/src/controllers/jobs.js:44 | exactly the leading white space is removed: the result is a suffix of the text, everything dropped is white space, and the result does not start with white space |
| Parsing.ParseInt | server/src/controllers/jobs.js:44 | `parseInt` of empty or all-white-space text is NaN (`None`); a negative result comes only from text whose first non-space character is a minus sign |
| Parsing.ParseId | server/src/controllers/jobs.js:43-45 | the id schema accepts the text exactly when `parseInt` reads a number of 0 or more, and the id is that number; NaN and negative numbers are refused |
| Parsing.ParseIntDecimal | server/src/controllers/jobs.js:44 | decimal digits followed by any non-digit text read as their value, except that a lone "0" must not be followed by `x` or `X` ("0x5" is hexadecimal 5, "0xg" is NaN) |
| Parsing.ParseIntNegative | server/src/controllers/profiles.js:21 | a minus sign negates the value, and the id validator refuses it |
| Parsing.ParseIntNoDigits | server/src/controllers/contracts.js:6 | text such as "hello" that starts with no sign, space or digit is NaN and is refused |
| Parsing.ParseIdDecimal | server/src/controllers/contracts.js:5-14 | the id validator accepts the decimal text of every identifier, as that identifier |
| Utils.IssuesToString | server/src/utils.js:11-16 | no issues render as the empty text, and one issue as "path: message" |
| Utils.IssuesToStringAppend | server/src/utils.js:14 | each later issue appends ", path: message" |
| Utils.IssuesToStringIsJoin | server/src/utils.js:11-16 | the rendering is the issues' "path: message" texts joined by ", " |
| Utils.IssuesToStringStartsWithFirst | server/src/utils.js:13 | the rendering starts with the first issue |
| Admin.DateRange | server/src/controllers/admin.js:7-42 | an invalid start gives `invalid_start_time`, which is checked before `invalid_end_time`; a range is accepted exactly when both given dates are valid and the end is after the start; the bounds are the given dates, and a missing one is unbounded; `invalid_range` exactly when both dates are valid and the end is at or before the start |
| Admin.GetDatesFromQuery | server/src/controllers/admin.js:7-42 | the middleware's answer is `Admin.DateRange` |
| Admin.DateRangeNotEmpty | server/src/controllers/admin.js:32-37 | every accepted range contains some date |
| Admin.BestProfession | server/src/controllers/admin.js:44-73 | `no_paid_jobs` exactly when no paid job in range belongs to a contractor; otherwise the reported total is that profession's sum of paid prices in range |
| Admin.ProfessionsListed | server/src/controllers/admin.js:47-54 | every profession with a paid job in range forms a group |
| Admin.ProfessionsFromJoin | server/src/controllers/admin.js:47-54 | every group comes from a paid job in range of a contractor |
| Admin.BestProfessionIsBest | server/src/controllers/admin.js:55-56 | the reported profession has a paid job in range, and no profession earned more |
| Admin.SortByPaid | server/src/controllers/admin.js:104 | the rows are sorted by total, descending, and are a permutation of the input |
| Admin.InsertSorted | server/src/controllers/admin.js:104 | inserting into a descending list keeps it descending |
| Admin.BestClients | server/src/controllers/admin.js:91-115 | the report never has more rows than the limit; `Admin.BestClientsRanked` and `Admin.BestClientsTop` state which rows and in what order |
| Admin.BestClientsRanked | server/src/controllers/admin.js:91-115 | the report has min(limit, number of paying clients) rows; each row is a paying client's id, "first last" name and total paid in range; ids are distinct and totals descend |
| Admin.BestClientsTop | server/src/controllers/admin.js:103-105 | every paying client left out paid no more than any client listed |
| Admin.LeftOutClient | server/src/controllers/admin.js:104-105 | one left-out client paid no more than any listed client |
| Admin.ParseLimit | server/src/controllers/admin.js:76-89 | a missing limit is 2; text that `parseInt` reads as a number of 0 or more (after leading white space, a sign or a `0x` prefix) is accepted as that number; text that is not a number, or is negative, gives `invalid_limit` |
| Admin.ParseLimitDecimal | server/src/controllers/admin.js:76-79 | decimal text, even with a fraction or trailing non-digit text, gives its integer part, except that a lone "0" must not be followed by `x` or `X` |
| Admin.BestProfessionEndpoint | server/src/app.js:75-80 | a date error is reported before anything else; on a valid range the answer is `Admin.BestProfession` over that range; the only errors are the three date errors and `no_paid_jobs` |
| Admin.BestClientsEndpoint | server/src/app.js:82 | a date error beats a limit error; a bad limit gives `invalid_limit`; with a valid range and limit the answer is `Admin.BestClients` over that range and limit, so it never exceeds the limit |
| Contracts.GetContract | server/src/controllers/contracts.js:4-36 | `invalid_contract_id` exactly when the id is unreadable; a contract is returned exactly when it exists and the caller is its client or contractor, and it is that contract; otherwise `not_found` |
| Contracts.GetContractHidesOthers | server/src/controllers/contracts.js:29-34 | a contract of others answers exactly as a missing one |
| Contracts.ActiveIds | server/src/controllers/contracts.js:51-54 | selects exactly the caller's contracts that are not terminated, ascending |
| Contracts.VisibleIds | server/src/controllers/contracts.js:79-81 | selects exactly the caller's contracts, ascending |
| Contracts.RoleOf | server/src/controllers/contracts.js:61 | the role is "client" exactly when the caller is the contract's client; a party that is not its client is its contractor |
| Contracts.NonTerminatedContracts | server/src/controllers/contracts.js:38-64 | the listed contract ids are exactly the ids the `where` clause selects (the caller is a party and the status is not terminated), in ascending order; `Contracts.NonTerminatedTagged` gives each row's contents and role |
| Contracts.AllContracts | server/src/controllers/contracts.js:66-91 | the listed contract ids are exactly the ids of the caller's contracts, in ascending order; `Contracts.AllContractsTagged` gives each row's contents and role |
| Contracts.NonTerminatedExact | server/src/controllers/contracts.js:38-64 | the list holds exactly the caller's contracts that are not terminated, each once |
| Contracts.NonTerminatedTagged | server/src/controllers/contracts.js:59-62 | each row is the contract's own row, the caller is a party to it, and the role is "client" exactly when the caller is its client |
| Contracts.AllContractsExact | server/src/controllers/contracts.js:66-91 | the list holds exactly the caller's contracts, each once |
| Contracts.AllContractsTagged | server/src/controllers/contracts.js:86-89 | each row is the contract's own row, the caller is a party to it, and the role is "client" exactly when the caller is its client |
| Contracts.AllExtendsNonTerminated | server/src/controllers/contracts.js:51-54 | the two lists differ by exactly the terminated contracts |
| Contracts.GetContractAgreesWithList | server/src/controllers/contracts.js:20-30 | a contract found by id appears with the same row in the full list |
| Scenarios.PayJobTwo | server/src/tests/index.test.js:103-117 | on any store where client 1 has 1150, and job 2 (price 201, unpaid) is on in-progress contract 2 from client 1 to contractor 6 (who has 1214): paying job 2 succeeds, leaves balances 949 and 1415, changes no other profile, and stamps job 2 paid |
| Scenarios.PayTooPoor | server/src/tests/index.test.js:119-125 | with job 2's rows as above and client 1's balance set to 100, paying job 2 gives `insuffucient_funds` and changes nothing |
| Scenarios.PayTerminated | server/src/tests/index.test.js:127-132 | when job 1 is on a terminated contract of client 1, paying it gives `contract_terminated` and changes nothing, whoever the contractor is |
| Scenarios.PayJobTwoTwice | server/src/tests/index.test.js:134-140 | with job 2's rows as above, paying job 2 twice gives `already_paid` with the first payment's date the second time |
| Scenarios.PayHello | server/src/tests/index.test.js:142-147 | on any store, the job id "hello" gives `invalid_job_id` |
| Scenarios.Amount | server/src/tests/index.test.js:152-156 | the decimal text of a positive amount is accepted as that amount |
| Scenarios.DepositTen | server/src/tests/index.test.js:151-172 | when client 1 has 1150, profile 2 has 231.11, client 1 owes job 2 (price 201), and no owed price is negative: depositing 10 into profile 2 succeeds, leaves 1140 and 241.11, and changes no other profile |
| Scenarios.DepositBadUser | server/src/tests/index.test.js:174-181 | on any store, the user id "hello" gives `invalid_user_id` before the amount 0 is looked at |
| Scenarios.DepositBadAmount | server/src/tests/index.test.js:183-190 | on any store, the amount "hello" gives `invalid_request_body` with the message "amount: Expected number, received nan" |
| Scenarios.DepositMissingRecipient | server/src/tests/index.test.js:192-197 | when no profile has id 10, depositing into it gives `client_not_found` |
| Scenarios.DepositToSelf | server/src/tests/index.test.js:199-206 | on any store and for any valid amount, depositing to oneself gives `deposit_to_self_forbidden` |
| Scenarios.DepositTooMuch | server/src/tests/index.test.js:208-215 | with client 1's balance of 1150, depositing 10000 into an existing profile gives `insuffucient_funds` |
| Scenarios.DepositOverCap | server/src/tests/index.test.js:217-224 | with client 1's balance of 1150, 300 gives `deposit_too_large` carrying the debt exactly when client 1 owes less than 1200; otherwise it succeeds |

## Left out

- Raw ids in queries: `payForJob` validates `jobId` with `parseInt` but binds the raw path text in both SQL statements. The model uses the parsed id throughout. For text such as "2abc", SQLite's comparison would find no job while the model finds job 2. The same gap applies to the ids of `getContract`.
- Profiles.Deposit: reads the recipient id and the amount with `parseInt`, but the transaction re-reads both with `Number`. The model uses the `parseInt` values, so it is faithful only where `parseInt` and `Number` agree: plain signed decimal digits and `0x` hexadecimal. Text such as "5abc", "10.5", "1e3" (1 against 1000) or "0b101" (0 against 5) is read differently.
- Unexpected database errors and the resulting `transaction_failed` 500 reply are not modelled. The transactions are total functions of the store.
- Concurrency is left out: the exclusive transactions are single atomic steps, and row locks are not modelled.
- Authentication: the caller's existence is a precondition (`requires payer in s.profiles`). The `unauthorized` reply of the profile middleware is left out.
- Status codes, human-readable messages and their `Intl` currency and date formatting are left out. Replies carry the error kind, the payment date and the debt. The exception is the zod message of the amount issues, which is modelled.
- Zod's message for a refused path id is left out. `invalid_job_id`, `invalid_user_id` and `invalid_contract_id` carry no message.
- Dates: `Date.parse` is an input; each present query parameter comes with its timestamp or with "invalid". Stored payment dates and bounds are compared as integers, not as SQLite date text.
- Floating point: balances and prices are exact reals, so IEEE rounding (e.g. of 231.11 + 10) is not modelled. `parseInt` of numbers above 2^53, and of JSON numbers that print in exponent form, is not modelled.
- Row order: unordered queries (`findAll`, `group by`) are listed in ascending id order. Ties in `order by ... desc` resolve to the first profession found and to the insertion sort's order. The lemmas about the reports state only what holds for any tie order, except for the ids chosen among equal totals.
- Unused columns are left out: `description`, `createdAt`, `updatedAt`, and profile columns other than type, profession, names and balance. `Jobs.UnpaidJobs` returns job ids.
- The JSON text of the role (`Contracts.RoleName`) and of the error codes (`Models.Code`) are plain tables with nothing to prove.
- The `client/` front end, `server.js` and the database seeding are left out. The scenarios state the few seeded rows they read as preconditions. The seeded debt of client 1 is not visible in the test text, so `Scenarios.DepositOverCap` states the outcome for every debt.
