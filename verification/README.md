# TranscribeBR subscription and credits bookkeeping, in Dafny

TranscribeBR sells transcription credits on three plans: free, premium and business. Paid plans are monthly or annual, and payment is by PIX through the Asaas gateway. This project models the bookkeeping behind that and proves properties of it:

- the two renewal sweeps:
  - the monthly `GET /api/check-subscriptions` route over `subscriptions.credits_remaining`;
  - the older daily `checkSubscriptionRenewal` over a separate `credits` table;
- the soft and the hard cancellation;
- the subscription status read-out;
- the per-user credits store and the check-then-deduct server actions;
- the plan catalogs;
- profile provisioning at registration and login;
- the PIX checkout, which reuses a pending charge or records a new one;
- the redirect decision of the two middleware files;
- the input masks and submit checks of the sign-up form and the registration form.

Conventions of the model:

- **Database tables are values.** Each remote call takes the current table and returns the new one: a sequence of rows, or a map keyed by the primary key.
- **Remote failures are parameters.** Every failure of a remote call (select, lookup, update, insert) is a parameter: a flag, or the set of subscription ids whose call fails.
- **External replies are parameters.** The auth service's answers and the gateway's answers are parameters. The credits helpers imported by `src/app/actions/credits.ts` are oracle functions given as a parameter.
- **Units.** Times are milliseconds since the Unix epoch, and the server's time zone is UTC. The `Calendar` module gives ECMAScript's `MakeDay`/`MakeDate`, including the roll-over of an out-of-range month or day, and the year/month/date read-back of `getFullYear`/`getMonth`/`getDate`. Money is integer centavos.

Modules, one per source file:

| module | source |
|---|---|
| `Common`, `Calendar`, `Schema` | shared vocabulary: `Option`, JavaScript truthiness, ECMAScript dates, table rows |
| `Types` | `src/lib/types.ts` |
| `PlanConfig` | `src/lib/plans.ts` |
| `CheckSubscriptions` | `src/app/api/check-subscriptions/route.ts` |
| `LegacySubscription` | `src/lib/actions/subscription.ts` |
| `HardCancel` | `src/lib/actions/cancel-subscription.ts` |
| `Credits` | `src/lib/credits.ts` |
| `CreditActions` | `src/app/actions/credits.ts` |
| `Auth` | `src/app/actions/auth.ts` |
| `PixCheckout` | `src/app/planos/actions.ts` |
| `RouteGuard`, `SrcMiddleware`, `RootMiddleware` | `src/middleware.ts`, `middleware.ts` |
| `FichaCadastral` | `src/app/ficha-cadastral/page.tsx` |
| `Cadastro` | `src/app/cadastro/page.tsx` |

## Model

| member | source | states |
|---|---|---|
| Common.OrElse | src/app/planos/actions.ts:135 | `a \|\| b` on strings: `a` when it is non-empty, else `b` |
| Types.Plans | src/lib/types.ts:42-79 | every plan grants a positive number of credits; only the free plan costs nothing |
| Types.PlansStrictlyIncreasing | src/lib/types.ts:42-79 | a higher tier gives strictly more credits for a strictly higher price (free < premium < business) |
| Types.CreditCosts | src/lib/types.ts:81-87 | every action costs a positive number of credits |
| Types.SummaryAdvancedCostsMore | src/lib/types.ts:27-33 | the advanced summary costs more than the basic one |
| PlanConfig.Config | src/lib/plans.ts:1-24 | every tier grants at least 30 credits; a tier has a discount exactly when it is annual |
| PlanConfig.AnnualTiersGrantMore | src/lib/plans.ts:6-23 | each annual tier grants more credits than its monthly counterpart, and both carry the same 60% discount |
| CheckSubscriptions.CreditsToAddByPlan | src/app/api/check-subscriptions/route.ts:11-17 | renewal credits per plan and type: free 30 (no `free_<type>` key, falls back to `free`), premium 300/1000, business 1000/3000 |
| CheckSubscriptions.UnsetSecretAcceptsUndefined | src/app/api/check-subscriptions/route.ts:22-25 | with `CRON_SECRET` unset the header `Bearer undefined` is accepted; a missing header is refused |
| CheckSubscriptions.ApprovedThisMonth | src/app/api/check-subscriptions/route.ts:62-70 | the rows the payment query matches are exactly the user's approved payments created inside the month window |
| CheckSubscriptions.HasPaymentIff | src/app/api/check-subscriptions/route.ts:79 | `hasPayment` holds iff some approved payment of the user lies in the window |
| CheckSubscriptions.WindowStart | src/app/api/check-subscriptions/route.ts:28 | the window starts on day 1 of the current month at 00:00, not after `now` |
| CheckSubscriptions.WindowEnd | src/app/api/check-subscriptions/route.ts:29 | the window ends on the last day of the current month at 00:00 sharp |
| CheckSubscriptions.LastDayAfterMidnightMissed | src/app/api/check-subscriptions/route.ts:29 | a payment 1 ms after the window's end is still in the current month yet outside the window |
| CheckSubscriptions.NextMonthAfter | src/app/api/check-subscriptions/route.ts:90-94 | any day of the month after `now`'s month lies after `now` |
| CheckSubscriptions.NextRenewAt | src/app/api/check-subscriptions/route.ts:90-94 | the new `renew_at` is strictly after `now` |
| CheckSubscriptions.RenewalKeepsDayOfMonth | src/app/api/check-subscriptions/route.ts:90-94 | when the next month has that day, the new `renew_at` is in the next month on the old day of month |
| CheckSubscriptions.RenewalRollsOver | src/app/api/check-subscriptions/route.ts:90-94 | when the next month lacks that day, the date rolls into the month after it by the excess days |
| CheckSubscriptions.RowTransitions | src/app/api/check-subscriptions/route.ts:51-128 | per row: not fetched iff not `active`; a null `renew_at` is always due; skipped, failed and unfetched rows are unchanged; renew iff due, lookup ok, paid, write ok (credits added to the balance, a null balance counting as 0; `renew_at` after now; plan kept); downgrade iff due, lookup ok, unpaid, write ok (free, inactive, monthly, 30, null) |
| CheckSubscriptions.HandleSubscription | src/app/api/check-subscriptions/route.ts:52-128 | one loop iteration leaves the row as the per-row transition makes it and adds that row's outcome to the counters |
| CheckSubscriptions.Sweep | src/app/api/check-subscriptions/route.ts:43-129 | the loop leaves every row as the per-row transition makes it and the counters as the tally of the outcomes |
| CheckSubscriptions.Get | src/app/api/check-subscriptions/route.ts:19-135 | wrong header: 401 with nothing read or written; select error: 500 with nothing written; otherwise 200 with the swept table and its tally |
| CheckSubscriptions.TallyAccounts | src/app/api/check-subscriptions/route.ts:52 | `checked` is the number of fetched rows, and equals not-due + `renewed` + `downgraded` + \|`errors`\| |
| CheckSubscriptions.SettledRowIsQuiet | src/app/api/check-subscriptions/route.ts:57-59 | a row renewed, downgraded or skipped is left alone by a second sweep at the same instant |
| CheckSubscriptions.NoErrorsNoFailures | src/app/api/check-subscriptions/route.ts:72-77 | a sweep that reports no error had no failing row |
| CheckSubscriptions.QuietSweep | src/app/api/check-subscriptions/route.ts:51-59 | a sweep whose rows are all unfetched or not due changes nothing and counts only skips |
| CheckSubscriptions.SecondSweepIsNoOp | src/app/api/check-subscriptions/route.ts:87-127 | after an error-free sweep, a second sweep at the same instant renews, downgrades and changes nothing |
| CheckSubscriptions.FailureIsIsolated | src/app/api/check-subscriptions/route.ts:100-106 | a failing update of one subscription leaves every other row as it would have been |
| CheckSubscriptions.CheckedIgnoresFaults | src/app/api/check-subscriptions/route.ts:52 | `checked` does not depend on payments or failures |
| LegacySubscription.LegacyTablesDisagreeWithCatalog | src/lib/actions/subscription.ts:7-17 | `PLAN_CREDITS` gives fewer credits than the catalog for every plan, and `PLAN_VALUES` prices business higher |
| LegacySubscription.UserRows | src/lib/actions/subscription.ts:78-82 | the rows `.eq("user_id")` matches are exactly the user's rows |
| LegacySubscription.UserCredits | src/lib/actions/subscription.ts:40-44 | the credits rows the lookup matches are exactly the user's rows |
| LegacySubscription.MatchingPayments | src/lib/actions/subscription.ts:164-170 | the payments matched are exactly this user's, for this subscription, dated today or later |
| LegacySubscription.DuplicatePaymentExpires | src/lib/actions/subscription.ts:172 | `.single()` finds no payment unless exactly one row matches, so a subscription paid twice expires |
| LegacySubscription.CreditsBalanceAfterUpdate | src/lib/actions/subscription.ts:187-219 | renewal resets to total = available = plan credits and used = 0; expiry keeps `used_credits`, so available exceeds total − used whenever any were used |
| LegacySubscription.UpdateUserCredits | src/lib/actions/subscription.ts:188-196 | the credits update changes exactly the user's rows |
| LegacySubscription.CheckSubscriptionRenewal | src/lib/actions/subscription.ts:133-229 | a select error gives `{false, 0, 0}` and no writes; otherwise both tables as the per-row transitions leave them, and the counts of renewed and expired rows |
| LegacySubscription.RenewedPlusExpired | src/lib/actions/subscription.ts:158-223 | `renewed + expired` equals the number of selected subscriptions, whatever writes fail |
| LegacySubscription.NothingSelectedIsQuiet | src/lib/actions/subscription.ts:154-156 | with no row selected both tables are unchanged and both counts are 0 |
| LegacySubscription.UnselectedRowsCountZero | src/lib/actions/subscription.ts:142-147 | a table with no selected row selects nothing |
| LegacySubscription.SameDayRerunIsNoOp | src/lib/actions/subscription.ts:174-209 | after a run whose subscription writes succeeded, a re-run on the same day selects nothing and changes nothing |
| LegacySubscription.RowTransitions | src/lib/actions/subscription.ts:172-209 | renewal bills 30 days after today and keeps plan and status; expiry makes the row `expirado`, free and unbilled |
| LegacySubscription.CancelledRows | src/lib/actions/subscription.ts:100-106 | the update sets `cancelado` on exactly the user's rows |
| LegacySubscription.CancelSubscription | src/lib/actions/subscription.ts:73-119 | no single row: not found; already `cancelado`: refused; update error: failure; otherwise the user's rows are cancelled |
| LegacySubscription.SoftCancelKeepsPlan | src/lib/actions/subscription.ts:100-106 | the soft cancel changes only status and `updated_at`: plan and billing date are kept, other users untouched |
| LegacySubscription.UserRowsOfCancelled | src/lib/actions/subscription.ts:78-106 | after the cancel, the user's rows are the same rows, cancelled |
| LegacySubscription.CancelTwice | src/lib/actions/subscription.ts:92-97 | a second cancel after a successful one is refused as already cancelled |
| LegacySubscription.GetSubscriptionStatus | src/lib/actions/subscription.ts:23-62 | null unless both lookups find exactly one row; otherwise the two rows' fields one to one, with `valor` from `PLAN_VALUES` |
| HardCancel.CancelledTable | src/lib/actions/cancel-subscription.ts:15-25 | the update rewrites exactly the user's rows |
| HardCancel.CancelSubscription | src/lib/actions/cancel-subscription.ts:10-38 | a store error gives 'Erro ao cancelar assinatura' and no change; otherwise success and the updated table |
| HardCancel.CancelledRowsAreFree | src/lib/actions/cancel-subscription.ts:17-24 | every row of the user is inactive, free, monthly, with null `renew_at` and 30 credits; others untouched |
| HardCancel.CancelIsIdempotent | src/lib/actions/cancel-subscription.ts:15-25 | cancelling twice equals cancelling once at the later time |
| HardCancel.CancelledRowsLeaveTheSweep | src/lib/actions/cancel-subscription.ts:18 | a hard-cancelled row is no longer fetched by the renewal sweep |
| Credits.CreditsTable.constructor | src/lib/credits.ts:5-34 | the store starts with the given amounts |
| Credits.CreditsTable.GetCredits | src/lib/credits.ts:5-15 | a failed read, a missing row and a null amount all read as 0; otherwise the stored amount |
| Credits.CreditsTable.SetCredits | src/lib/credits.ts:17-22 | the upsert makes the user's amount exactly `amount` and changes no other row |
| Credits.CreditsTable.AddCredits | src/lib/credits.ts:24-27 | the balance becomes the previous balance (0 after a failed read) plus `amount`, nothing else changes |
| Credits.CreditsTable.DeductCredits | src/lib/credits.ts:29-34 | refused with nothing written iff the balance read is below `amount`; otherwise balance − `amount`, never negative; non-negativity is preserved |
| Credits.Deduct | src/lib/credits.ts:31-32 | a deduction goes through iff `amount` ≤ balance and leaves a non-negative remainder that adds back to the balance |
| Credits.SpendExactBalance | src/lib/credits.ts:31-32 | spending exactly the balance leaves 0; one more is refused |
| Credits.DeductThenAdd | src/lib/credits.ts:24-34 | a successful deduction followed by adding the amount back restores the balance; no other row changes |
| CreditActions.CheckThenDeduct | src/app/actions/credits.ts:15-45 | the check comes first; without credits the result is 'Créditos insuficientes' and nothing is deducted; the deduction uses the same user and cost; its failure is passed on and its `remainingCredits` returned |
| CreditActions.UseTranscriptionShort | src/app/actions/credits.ts:15-45 | deducts only after a passing check, with the short transcription cost |
| CreditActions.UseTranscriptionLong | src/app/actions/credits.ts:50-78 | deducts only after a passing check, with the long transcription cost |
| CreditActions.UseSummary | src/app/actions/credits.ts:83-111 | deducts only after a passing check, with the summary cost |
| CreditActions.FetchUserProfile | src/app/actions/credits.ts:116-130 | the profile unchanged when present, otherwise 'Perfil não encontrado' |
| CreditActions.ToUpper | src/app/actions/credits.ts:148 | `toUpperCase` maps each ASCII letter to upper case and keeps the length |
| CreditActions.ToUpperIdempotent | src/app/actions/credits.ts:148 | upper-casing leaves no lower-case letter and is idempotent |
| CreditActions.UpgradePlan | src/app/actions/credits.ts:135-150 | success iff `updateUserPlan` succeeds; its error is passed on; success names the plan upper-cased |
| CreditActions.UpgradeToPremiumMessage | src/app/actions/credits.ts:148 | the premium upgrade message is 'Plano atualizado para PREMIUM com sucesso!' |
| Auth.DefaultName | src/app/actions/auth.ts:14 | `email.split('@')[0]` is the prefix of the address before its first '@' |
| Auth.DefaultNameOfAddress | src/app/actions/auth.ts:14 | the default name of `local@domain` is `local` |
| Auth.DisplayName | src/app/actions/auth.ts:48 | the given name when non-empty, else the default name |
| Auth.InsertProfile | src/app/actions/auth.ts:29-41 | the insert adds the profile iff the store does not fail and the id is new; otherwise nothing changes and the store's message is returned |
| Auth.RegisterUser | src/app/actions/auth.ts:6-52 | auth error or missing user: failure, no profile; otherwise the free/30 profile under the user's id, or the insert's error |
| Auth.LoginUser | src/app/actions/auth.ts:60-128 | sign-in error or missing user: failure, no write; an existing profile is returned unchanged; a failed or empty lookup creates the free/30 profile and returns it |
| Auth.LoginWithFailedLookup | src/app/actions/auth.ts:78-98 | a failed lookup of an existing profile makes login fail on the duplicate key |
| Auth.LoginTwice | src/app/actions/auth.ts:85-128 | login is get-or-create: a second login returns the same user and writes nothing |
| Auth.RegisterProvisions | src/app/actions/auth.ts:29-52 | registration writes the user's free/30 profile iff it succeeds, and nothing else |
| PixCheckout.PendingFor | src/app/planos/actions.ts:40-46 | the rows the pending lookup matches are exactly the user's pending payments for the plan key |
| PixCheckout.CreatePixPayment | src/app/planos/actions.ts:23-156 | no user: failure, no call; a single pending charge with a code is reused with no call; missing settings: failure, no call; rejection: failure, no insert; otherwise a `pending` row with the plan key, amount and code is recorded, or the insert fails |
| PixCheckout.PendingForAppend | src/app/planos/actions.ts:128-139 | a recorded row joins the pending rows exactly when it matches |
| PixCheckout.RecordedChargeIsPending | src/app/planos/actions.ts:40-56 | each recorded charge adds a pending row; once two exist, `.single()` never reuses one |
| PixCheckout.RecordedPixCode | src/app/planos/actions.ts:135 | the stored `pix_code` is the copy-paste payload when present, else the QR image |
| PixCheckout.PaymentsWithId | src/app/planos/actions.ts:175-179 | the rows the status lookup matches are exactly those with that id |
| PixCheckout.CheckPaymentStatus | src/app/planos/actions.ts:169-185 | the stored status iff exactly one row matches and the lookup succeeds; otherwise `"error"` with 'Pagamento não encontrado' |
| RouteGuard.GuardCases | src/middleware.ts:51-72 | login redirect iff signed out on a protected prefix, carrying the path; dashboard redirect iff signed in on an auth prefix; pass-through otherwise |
| RouteGuard.MatchesAnyExtends | src/middleware.ts:52-54 | a path extending a protected prefix is protected |
| RouteGuard.MatchesAnySameRoutes | middleware.ts:66-70 | only the set of routes matters, not their order |
| RouteGuard.SeparatedDisjoint | src/middleware.ts:52-66 | prefix lists whose second characters differ never both match |
| SrcMiddleware.Middleware | src/middleware.ts:12-90 | a path the matcher skips passes through (the guarded branch is `SrcMiddleware.MatchedPathIsGuarded`) |
| SrcMiddleware.MatchedPathIsGuarded | src/middleware.ts:50-72 | on a matched path: login redirect with the path iff signed out below a protected prefix, dashboard redirect iff signed in below an auth prefix, else pass-through |
| SrcMiddleware.DotlessHasNoExtension | src/middleware.ts:88 | a path without '.' does not end with an image extension |
| SrcMiddleware.NotExcluded | src/middleware.ts:88 | the matcher's exclusion does not apply to a path without '.', '_' prefix or `favicon` |
| SrcMiddleware.RouteListsDisjoint | src/middleware.ts:51-66 | no path is both protected and an auth route |
| SrcMiddleware.ProtectedBelowPrefix | src/middleware.ts:51-60 | a signed-out request below a protected prefix goes to login with its path; a signed-in one passes |
| SrcMiddleware.AssetsSkipGuard | src/middleware.ts:88 | for every path below `/_next/static` or `/_next/image`, or ending in `.svg`, `.png`, `.jpg`, `.jpeg`, `.gif` or `.webp`, the request passes through, signed in or not |
| SrcMiddleware.AssetExamples | src/middleware.ts:88 | `/dashboard/logo.png` and `/_next/static/app.js` pass through, signed in or not |
| RootMiddleware.Middleware | middleware.ts:87-95 | only the five listed paths reach the guard (the guarded branch is `RootMiddleware.MatchedPathIsGuarded`) |
| RootMiddleware.MatchedPathIsGuarded | middleware.ts:66-82 | on the five paths: login redirect with the path iff signed out below a protected prefix, dashboard redirect iff signed in below a public prefix, else pass-through |
| RootMiddleware.AgreesOnMatchedPaths | middleware.ts:63-95 | on its five paths the root middleware decides as the one under `src/` |
| RootMiddleware.ExactPathDecisions | middleware.ts:73-82 | signed in at `/login`: dashboard; signed out at `/dashboard`: login with `redirect=/dashboard` |
| RootMiddleware.RouteListsSeparated | middleware.ts:66-67 | no path is both protected and public |
| RootMiddleware.NestedPathsDiffer | middleware.ts:87-95 | below a protected prefix the two files differ: `/dashboard/x` signed out is redirected by one and passed by the other |
| FichaCadastral.OnlyDigits | src/app/ficha-cadastral/page.tsx:56 | `replace(/\D/g, '')` leaves only digits, no more characters, and keeps an all-digit text |
| FichaCadastral.OnlyDigitsAppend | src/app/ficha-cadastral/page.tsx:56 | stripping non-digits distributes over concatenation |
| FichaCadastral.FirstDigitRun | src/app/ficha-cadastral/page.tsx:57-59 | a non-global replace acts at the leftmost run of the pattern's digits, if any |
| FichaCadastral.FirstTail | src/app/ficha-cadastral/page.tsx:60 | the anchored tail pattern matches at its leftmost place, if any |
| FichaCadastral.FormatCPFLayout | src/app/ficha-cadastral/page.tsx:54-61 | `formatCPF` equals the layout `DDD`, `DDD.D…`, `DDD.DDD.D…`, `DDD.DDD.DDD-D…` of the first eleven digits |
| FichaCadastral.FormatPhoneLayout | src/app/ficha-cadastral/page.tsx:63-69 | `formatPhone` equals the layout `DD`, `(DD) D…`, `(DD) DDDDD-D…` of the first eleven digits |
| FichaCadastral.CpfDigitsKept | src/app/ficha-cadastral/page.tsx:54-61 | the digits of `formatCPF(s)` are exactly the first min(11, n) digits of `s`; other characters are '.' and '-' |
| FichaCadastral.PhoneDigitsKept | src/app/ficha-cadastral/page.tsx:63-69 | the digits of `formatPhone(s)` are exactly the first min(11, n) digits of `s`; other characters are '(', ')', ' ', '-' |
| FichaCadastral.CpfShape | src/app/ficha-cadastral/page.tsx:57-60 | with at least eleven digits the CPF reads `DDD.DDD.DDD-DD` |
| FichaCadastral.PhoneShape | src/app/ficha-cadastral/page.tsx:66-68 | with at least eleven digits the phone reads `(DD) DDDDD-DDDD` |
| FichaCadastral.FormatCPFIdempotent | src/app/ficha-cadastral/page.tsx:74-75 | masking a masked CPF changes nothing |
| FichaCadastral.FormatPhoneIdempotent | src/app/ficha-cadastral/page.tsx:76-77 | masking a masked phone changes nothing |
| FichaCadastral.InitialFormMasked | src/app/ficha-cadastral/page.tsx:15-23 | the initial form satisfies the masks |
| FichaCadastral.InputKeepsMasks | src/app/ficha-cadastral/page.tsx:71-81 | every input event keeps the masks, and a masked field never holds more than eleven digits |
| FichaCadastral.SubmitError | src/app/ficha-cadastral/page.tsx:90-106 | in order: a required field empty gives 'Preencha todos os campos obrigatórios'; else a CPF not of eleven digits 'CPF inválido'; else a phone under ten digits 'Telefone inválido'; else no error (each iff) |
| FichaCadastral.MaskedCpfTooShort | src/app/ficha-cadastral/page.tsx:96-100 | on a form filled through its inputs the CPF check rejects only too few digits |
| FichaCadastral.TypedFormPasses | src/app/ficha-cadastral/page.tsx:71-106 | eleven CPF digits and ten phone digits typed, with the other required fields filled, pass every check |
| Cadastro.SignupError | src/app/cadastro/page.tsx:26-42 | in order: an empty field, then differing passwords, then a password under six characters; no error iff all pass (each iff) |
| Cadastro.HandleSubmit | src/app/cadastro/page.tsx:19-53 | `registerUser` is called iff all checks pass, with the form's email, password and name; a failed check shows its message and writes nothing; a failure shows '❌ Erro ao criar conta: ' and the error; success shows the account-created notice and writes the free profile |
| Cadastro.FailureMessageNamesError | src/app/cadastro/page.tsx:52 | the failure message is the fixed prefix followed by the whole error, so distinct errors show distinctly |
| Cadastro.SubmitProvisions | src/app/cadastro/page.tsx:26-53 | a submission writes at most the new user's free profile, and only after every check passed |

## Left out

- Time zone: the server's local time zone is taken to be UTC. `Date.prototype` methods in another zone would shift every window and renewal date.
- Dates before 1970 are not represented: times are natural numbers.
- `LegacySubscription`: `next_billing_date` and `payment_date` are day numbers. The source compares `YYYY-MM-DD` strings, which order the same way; the ISO formatting itself is not modelled.
- Thrown exceptions and their `catch` blocks are not modelled: 'Internal server error', 'Erro interno ao cancelar assinatura', 'Erro ao processar cancelamento', 'Erro interno ao processar pagamento', 'Erro ao verificar status', the `null` of `getSubscriptionStatus`, and the sign-up page's 'Tente novamente mais tarde' are all paths taken only on a thrown exception.
- Message texts that embed numbers or remote messages are not modelled character for character: the `errors[]` strings of the renewal route, the "crédito(s) descontado(s)" messages and `message` fields of the credit actions, and `console.error` logging. The model keeps which error occurred and its subject.
- `revalidatePath`, the JSON bodies and headers of HTTP responses, the `timestamp` of the renewal response, and the Asaas request bodies: description, due date (`Date.now() + 24h`) and `billingType`. The model keeps the requests' customer, value and external reference.
- Session cookies and Supabase client construction in both middleware files; `getUser` is modelled by its signed-in flag. The `redirect` query parameter is the pathname, without URL encoding.
- Concurrency: `addCredits` and `deductCredits` are read-then-write sequences without atomicity. The model runs every call to completion before the next starts.
- `src/app/api/cron/renewal/route.ts`, the HTTP wrapper around `checkSubscriptionRenewal`, is not part of this model.
- `CheckSubscriptions.Sweep`: the `id` of `subscriptions` is assumed to be its primary key, so `.eq("id", subscription.id)` rewrites exactly the row being handled. Two rows sharing an `id` would both be rewritten, while the model rewrites only the row at its position.
- `LegacySubscription.CheckSubscriptionRenewal`: the `id` of `subscriptions` is assumed to be its primary key, so `.eq("id", …)` rewrites exactly the row being handled. One instant, `now`, stands for every clock read of the sweep: the select's `today`, each renewal's fresh `new Date()` plus 30 days for `next_billing_date`, and each `updated_at`. The source counts a renewal's `next_billing_date` from the day of its own write, so a sweep that runs past midnight UTC bills later rows one day later than the model's `today` + 30, and it stamps each row with its own write time.
- `Credits.CreditsTable.SetCredits`: the `credits` table is assumed to have `user_id` as its primary key, so the upsert overwrites the user's row. With another key, each upsert would insert a new row, and `getCredits`'s `.single()` would then read 0. `Credits.CreditsTable.AddCredits` and `Credits.CreditsTable.DeductCredits` rely on the same assumption.
- `PixCheckout.CreatePixPayment`: `amount` is passed through unchanged as an integer, and the insert's generated id is a parameter. A null `pix_code` is the empty string, which the code treats the same way.
- `Auth.InsertProfile`: the message of an insert refused for an existing id is taken to be Postgres's unique-violation text for `profiles_pkey`. The store chooses that text; `Auth.LoginWithFailedLookup` and the sign-up failure message depend on it.
- `CreditActions`: `getUserProfile`, `hasEnoughCredits`, the object-returning `deductCredits`, `updateUserPlan` and the costs `transcription_short`, `transcription_long` and `summary` are not defined in `src/lib/credits.ts` as shipped. They are oracle parameters, so nothing ties them to the `Credits` store.
- `CreditActions.ToUpper`: upper-cases ASCII letters only; JavaScript's `toUpperCase` also maps other Unicode letters.
- `Cadastro.SignupError`: the password length counts characters (code points). JavaScript's `length` counts UTF-16 code units, so the two differ only for passwords with characters outside the Basic Multilingual Plane.
- The registration form's `getCurrentUser` redirect effect (`src/app/ficha-cadastral/page.tsx:28-37`), its `planDetails` display constants, the WhatsApp message with `encodeURIComponent`/`window.open`, and the `loading`/`error` React state are not modelled. `InitialForm` takes the user's name and email as given.
- The sign-up page's `setTimeout` redirect to `/dashboard` and the `loading` state are not modelled.
- The third CPF step's `\d{1,2}` is greedy. It changes how much the match spans, not where the dash is inserted, so the model inserts at the same place.
