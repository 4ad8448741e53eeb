# Polls and name generation: a Dafny model of the rule logic

The application is a React front end over a hosted Postgres database and two serverless
functions. Users create polls with at least two options and vote on them, either anonymously
(with an optional display name) or signed in. A premium subscription, bought through a payment
processor, unlocks unlimited AI name suggestions; free users get two. This project lifts the
rule logic out of the components and functions and models it over in-memory tables.

- `wrappers.dfy`: `Option`.
- `numbers.dfy`: `Math.min` and `Math.max`.
- `text.dfy`: JavaScript's `trim()` over the ECMAScript white-space and line-terminator code
  points, and truthiness of a nullable string.
- `seqs.dfy`: `Array.prototype.filter` and `Array.prototype.find`, and a reference
  de-duplication that keeps first occurrences.
- `records.dfy`: the row shapes of `src/types.ts`.
- `poll_view.dfy` (`PollView`): the tally, descending stable sort and total of the poll page.
  Also the named-voter chips, voter-name normalisation, and the one-vote-per-session guard of
  `handleVote`, as a class over the votes table.
- `poll_detail.dfy` (`PollDetail`): the fold of joined rows into the de-duplicated
  insertion-ordered options map, written as a loop. Also vote and unvote keyed by user, adding
  an option, and the owner-only edit predicates.
- `create_poll.dfy` (`CreatePoll`): the option draft with its floor of two entries, submission
  validation, and the trimmed poll and option inserts. The form is a class whose submit step
  writes the polls and options tables.
- `navigation.dfy` (`Navigation`): the three-view state machine of `App.tsx`, as an `App` class
  whose handlers follow a pure step function, and the invariant linking view and selection.
- `stripe_webhook.dfy` (`StripeWebhook`): the payment webhook as a transition function on
  `user_subscriptions`: the signature gate, then the dispatch on the event type.
- `usage.dfy` (`Usage`): the used / remaining / premium summary, defined once. Both the
  name-generation endpoint and the banner use it.
- `generate_names.dfy` (`GenerateNames`): the name-generation endpoint's ordered checks and the
  counter bump after success.
- `subscription_banner.dfy` (`SubscriptionBanner`), `subscription_status.dfy`
  (`SubscriptionStatus`), `stripe_config.dfy` (`StripeConfig`): the banner, the plan label and
  the product catalogue.

Services the code calls are parameters:
- the token check, the limit check and the counter bump;
- the AI reply and the payment processor's signature verdict and subscription lookup;
- whether the poll page's vote insert and the create-poll form's two inserts succeed.

Nothing is read from a clock, the network or the environment.

## Model

| member | source | states |
|---|---|---|
| Text.TrimIsInfix | src/components/CreatePoll.tsx:34-37 | `trim()` yields a contiguous slice of its input with only white space removed on either side, and no white space at either end of the result |
| Text.BlankIffAllWhite | src/components/CreatePoll.tsx:34-37 | a string trims to the empty string exactly when every character of it is white space |
| Text.TrimIdempotent | src/pages/PollDetailPage.tsx:95-102 | trimming an already trimmed string changes nothing |
| Seqs.FilterCount | src/components/PollView.tsx:66-70 | `filter` keeps exactly as many elements as there are positions satisfying the predicate |
| Seqs.FilterMultiset | src/components/PollView.tsx:66-70 | `filter` keeps every element satisfying the predicate as often as it occurs, and no other |
| Seqs.DedupSpec | src/pages/PollDetailPage.tsx:52-64 | the reference de-duplication keeps exactly the elements of its input, each once |
| Seqs.Find | src/stripe-config.ts:23-29 | `find` returns nothing exactly when no element matches, and otherwise the first match in list order |
| PollView.Tally | src/components/PollView.tsx:66-70 | one entry per fetched option, in fetched order, each carrying its option and a count equal to the length of its vote list |
| PollView.TallyCounts | src/components/PollView.tsx:66-70 | an option's count is the number of fetched vote rows naming it, and its vote list holds exactly those rows, with multiplicity |
| PollView.SortByVotes | src/components/PollView.tsx:72 | the sorted list has the same entries, as a multiset, ordered by non-increasing count |
| PollView.SortIsStable | src/components/PollView.tsx:72 | entries with equal counts keep their fetched order (the sort is stable) |
| PollView.LoadPollData | src/components/PollView.tsx:66-72 | the displayed list has one entry per fetched option and is sorted by non-increasing count |
| PollView.TotalVotes | src/components/PollView.tsx:112 | the total is at least every option's count |
| PollView.NamedVoters | src/components/PollView.tsx:228-231 | the chips are at most the option's votes, each one of them and each with a non-empty voter name |
| PollView.LoadPollDataSpec | src/components/PollView.tsx:66-72 | the displayed list is sorted by non-increasing count, a permutation of the tallied entries and of the fetched options, and stable among ties |
| PollView.TotalOfSort | src/components/PollView.tsx:112 | sorting does not change the total |
| PollView.TotalOfTally | src/components/PollView.tsx:66-112 | with distinct option ids, the total is the number of vote rows naming one of the listed options |
| PollView.TotalVotesSpec | src/components/PollView.tsx:112 | the total is at most the number of fetched vote rows, and equal to it when every vote names a listed option |
| PollView.NormalizedVoterName | src/components/PollView.tsx:87 | no name exactly when the typed name is all white space; otherwise the trimmed name, non-empty and unpadded |
| PollView.NamedVotersSpec | src/components/PollView.tsx:228-231 | an option's chips are exactly its votes with a non-empty voter name, in their fetched order |
| PollView.NamedVoteShowsChip | src/components/PollView.tsx:87-231 | a vote cast under a typed name shows a chip exactly when the name is not all white space |
| PollView.PollSession.constructor | src/components/PollView.tsx:20-23 | a session starts not voted, with no picker shown, no name and no selection |
| PollView.PollSession.InitiateVote | src/components/PollView.tsx:101-104 | selecting an option opens the name prompt and touches nothing else |
| PollView.PollSession.CancelVote | src/components/PollView.tsx:191-195 | cancelling closes the prompt and clears the name and selection, keeping votes and the voted flag |
| PollView.PollSession.HandleVote | src/components/PollView.tsx:80-99 | once voted, or when the insert fails, nothing changes; otherwise exactly one vote row with the normalised name is appended, and the session becomes voted with the prompt closed, keeping the typed name and the selection |
| PollView.PollSession.SubmitVote | src/components/PollView.tsx:106-110 | submitting without a selection does nothing; with one it is `HandleVote` for the selected option, and the typed name and the selection are kept |
| PollDetail.BuildOptionsMap | src/pages/PollDetailPage.tsx:52-64 | the `forEach` loop computes the options map of the rows |
| PollDetail.OptionsMapSpec | src/pages/PollDetailPage.tsx:52-64 | an option id is in the map exactly when some row with that id has both option id and name set; its entry comes from the first such row, with count 0, not voted, owned by that row's option owner; the id list equals the de-duplicated list of qualifying ids in row order, so each id appears once, in first-seen order |
| PollDetail.OptionsMap | src/pages/PollDetailPage.tsx:52-64 | the map's id list is the de-duplicated list of qualifying ids, in row order |
| PollDetail.FoldOrder | src/pages/PollDetailPage.tsx:52-64 | folding the rows from the empty map lists each qualifying id once, in the order its first row appears |
| PollDetail.FoldFromSnoc | src/pages/PollDetailPage.tsx:52-64 | folding rows and then one more row is the same as one more step of the loop |
| PollDetail.NonQualifyingRowsIgnored | src/pages/PollDetailPage.tsx:55 | rows with a null option id or name do not affect the map |
| PollDetail.FoldFromAt | src/pages/PollDetailPage.tsx:56-64 | an id already present keeps its entry whatever rows follow |
| PollDetail.CastVote | src/pages/PollDetailPage.tsx:76-84 | casting appends one vote row carrying the option and the signed-in user's id, keeping all earlier rows |
| PollDetail.CastVoteCounts | src/pages/PollDetailPage.tsx:76-84 | casting adds one vote to the chosen option and none to any other |
| PollDetail.Unvote | src/pages/PollDetailPage.tsx:86-93 | the table never grows; every remaining row was in it and is not that user's vote for that option |
| PollDetail.UnvoteSpec | src/pages/PollDetailPage.tsx:86-93 | unvoting removes exactly the rows for that option and that user, and keeps every other row with its multiplicity |
| PollDetail.CastThenUnvote | src/pages/PollDetailPage.tsx:76-93 | starting from no vote of that user on that option, casting then unvoting restores the table |
| PollDetail.AddedOption | src/pages/PollDetailPage.tsx:95-102 | an added option belongs to the poll and the signed-in user, and its name is trimmed |
| PollDetail.AddedOptionNamed | src/pages/PollDetailPage.tsx:95-201 | when the add button is enabled, the stored name is non-empty |
| PollDetail.CanEditOption | src/pages/PollDetailPage.tsx:108-110 | an option is editable exactly when a user is signed in and owns it; an option without an owner never is |
| PollDetail.CanEditPoll | src/pages/PollDetailPage.tsx:112-114 | a poll is editable exactly when both user and poll exist and the user owns the poll |
| PollDetail.EditRightsExclusive | src/pages/PollDetailPage.tsx:108-114 | at most one user can edit a given option or poll |
| CreatePoll.InitialOptions | src/components/CreatePoll.tsx:12 | the draft starts with exactly two empty options |
| CreatePoll.AddOption | src/components/CreatePoll.tsx:15-17 | adding appends one empty option and keeps the others |
| CreatePoll.ExceptAt | src/components/CreatePoll.tsx:19-23 | filtering out index i removes exactly that index, keeping the rest in order; an index out of range removes nothing |
| CreatePoll.RemoveOption | src/components/CreatePoll.tsx:19-23 | removal acts only above two entries, removes exactly index i, and never leaves fewer than two |
| CreatePoll.UpdateOption | src/components/CreatePoll.tsx:25-29 | updating changes only index i and keeps the length |
| CreatePoll.DraftFloor | src/components/CreatePoll.tsx:12-29 | no draft operation takes a draft of two or more entries below two |
| CreatePoll.SubmissionAccepted | src/components/CreatePoll.tsx:34-37 | an accepted draft has a title that is not all white space and at least two entries |
| CreatePoll.OptionInserts | src/components/CreatePoll.tsx:60-69 | one insert per non-blank draft entry, never more than the draft has, each carrying the new poll id and the user id and a non-empty name |
| CreatePoll.PollRow | src/components/CreatePoll.tsx:49-56 | the poll row has the new id, the signed-in user as owner, and a trimmed title, non-empty when the typed title is not blank |
| CreatePoll.InsertsFor | src/components/CreatePoll.tsx:60-69 | one insert per name, in order, each trimmed and carrying the new poll id and the user id |
| CreatePoll.OptionInsertsSpec | src/components/CreatePoll.tsx:34-69 | an accepted submission inserts at least two options, each non-empty, trimmed and derived from a draft entry; a draft of only trimmed, non-blank entries is inserted entry for entry |
| CreatePoll.CreatePollForm.constructor | src/components/CreatePoll.tsx:11-13 | the form starts with an empty title, the two empty options, and not submitting |
| CreatePoll.CreatePollForm.AddOptionEntry | src/components/CreatePoll.tsx:15-17 | the options become `AddOption` of the old options, keeping the floor |
| CreatePoll.CreatePollForm.RemoveOptionEntry | src/components/CreatePoll.tsx:19-23 | the options become `RemoveOption` of the old options, keeping the floor |
| CreatePoll.CreatePollForm.UpdateOptionEntry | src/components/CreatePoll.tsx:25-29 | the options become `UpdateOption` of the old options, keeping the floor |
| CreatePoll.CreatePollForm.HandleSubmit | src/components/CreatePoll.tsx:31-80 | an invalid submission changes nothing; otherwise submitting ends false; no user inserts nothing; a failed poll insert inserts nothing; otherwise the poll row is stored, and the option rows are stored, or not when their insert fails |
| Navigation.Step | src/App.tsx:12-29 | after any handler the list view has no selection and the poll page has one; "create new" moves to the create view and keeps the selection |
| Navigation.StepIdempotent | src/App.tsx:12-29 | firing the same handler twice is the same as firing it once |
| Navigation.StepForgetsHistory | src/App.tsx:16-29 | apart from "create new", the state after a handler does not depend on the state before it |
| Navigation.Render | src/App.tsx:33-41 | exactly one screen per view; the poll screen shows only in the detail view with a non-empty selection |
| Navigation.StepKeepsConsistent | src/App.tsx:12-41 | each transition the current view offers keeps "a poll is selected exactly in the detail view" |
| Navigation.RunKeepsConsistent | src/App.tsx:9-41 | from the initial state, any run of offered transitions keeps that invariant and always renders a screen |
| Navigation.UnwiredCreateBreaksConsistency | src/App.tsx:12-14 | the invariant rests on the wiring: "create new" from the detail view would leave a stale selection |
| Navigation.App.constructor | src/App.tsx:9-10 | the app starts in the list view with no selection |
| Navigation.App.HandleCreateNew | src/App.tsx:12-14 | moves to the create view and keeps the selection |
| Navigation.App.HandlePollCreated | src/App.tsx:16-19 | moves to the detail view with the new poll selected |
| Navigation.App.HandleSelectPoll | src/App.tsx:21-24 | moves to the detail view with the chosen poll selected |
| Navigation.App.HandleBackToList | src/App.tsx:26-29 | moves to the list view and clears the selection |
| StripeWebhook.HandleWebhook | supabase/functions/stripe-webhook/index.ts:11-173 | a preflight answers exactly the OPTIONS request; any answer but 200 "received" leaves the table unchanged; a missing API key gives 500 "Stripe not configured"; a 400 comes only from a configured secret and a signature that fails; a 200 comes from a parsed event whose dispatch produced the new table |
| StripeWebhook.Dispatch | supabase/functions/stripe-webhook/index.ts:69-148 | dispatch fails only for a checkout whose subscription cannot be retrieved; every event but a checkout keeps the set of users with rows; a checkout adds at most its own user's row |
| StripeWebhook.HandleWebhookStrict | supabase/functions/stripe-webhook/index.ts:45-63 | with a secret configured, a delivery that lacks a valid signature leaves the table unchanged |
| StripeWebhook.BadSignatureRejected | supabase/functions/stripe-webhook/index.ts:45-60 | a secret and a signature that does not verify give 400 "Invalid signature" and an unchanged table |
| StripeWebhook.UnsignedEventAccepted | supabase/functions/stripe-webhook/index.ts:45-63 | as written, an unsigned delivery is processed although a secret is configured (one that cancels a subscription) |
| StripeWebhook.StrictGateSpec | supabase/functions/stripe-webhook/index.ts:45-63 | the corrected gate refuses every unsigned or badly signed delivery once a secret is configured, and agrees with the handler on every other delivery |
| StripeWebhook.UnhandledIsNoOp | supabase/functions/stripe-webhook/index.ts:146-159 | an unrecognised event type gives 200 with the table unchanged |
| StripeWebhook.CheckoutIgnored | supabase/functions/stripe-webhook/index.ts:72-93 | a checkout without a user id, not in subscription mode, or without a subscription changes nothing |
| StripeWebhook.CheckoutUpserts | supabase/functions/stripe-webhook/index.ts:79-92 | a subscription checkout upserts its user's row with customer, subscription id, status and period end ×1000, leaving other users' rows alone |
| StripeWebhook.UpdatedSpec | supabase/functions/stripe-webhook/index.ts:96-115 | an update never adds a row, changes only status and period end, and does so only on the rows with that subscription id when exactly one such row exists |
| StripeWebhook.DeletedSpec | supabase/functions/stripe-webhook/index.ts:118-128 | a deletion sets `canceled` on the rows with that subscription id, keeps their period end, and touches no other row |
| StripeWebhook.PaymentFailedSpec | supabase/functions/stripe-webhook/index.ts:131-143 | a failed payment sets `past_due` on the named subscription's rows, and changes nothing when the invoice names none |
| StripeWebhook.DispatchIdempotent | supabase/functions/stripe-webhook/index.ts:69-148 | applying an event twice with the same retrieved subscription leaves the table as applying it once |
| StripeWebhook.HandleStrictIdempotent | supabase/functions/stripe-webhook/index.ts:45-159 | delivering the same request twice, with the same retrieved subscription, gives the same response and table as delivering it once |
| Usage.Summary | supabase/functions/generate-names/index.ts:236-238 | used defaults to 0; premium users have -1 remaining; others have remaining in [0, 2], 0 exactly when used ≥ 2, and used + remaining = 2 up to the limit |
| Usage.SummaryAgreesWithRule | supabase/functions/generate-names/index.ts:81-238 | a user may generate under the free-tier rule exactly when the summary shows premium or a generation left |
| GenerateNames.RemoveFirst | supabase/functions/generate-names/index.ts:45 | removing the first occurrence shortens the header by the pattern's length, or leaves it whole |
| GenerateNames.RemoveFirstOccurrence | supabase/functions/generate-names/index.ts:45 | at the first position where the pattern occurs, removal cuts out exactly that occurrence |
| GenerateNames.BearerInsideHeader | supabase/functions/generate-names/index.ts:45 | a `Bearer ` inside the header is removed from there, not only from its start |
| GenerateNames.BearerTokenOfHeader | supabase/functions/generate-names/index.ts:45 | a `Bearer <token>` header yields the token |
| GenerateNames.RemoveFirstAbsent | supabase/functions/generate-names/index.ts:45 | a header without the prefix anywhere is passed on whole |
| GenerateNames.ApiErrorMessage | supabase/functions/generate-names/index.ts:164-174 | the reported message is the JSON error message, or the default when there is none; a non-JSON body is cut to its first 200 characters, so it is kept whole when it is no longer than that |
| GenerateNames.Increment | supabase/functions/generate-names/index.ts:211-215 | the bump adds one to the user's count, a missing row counting as 0, and touches no other user |
| GenerateNames.HandleRequest | supabase/functions/generate-names/index.ts:15-256 | checks run in order: auth gives 401, limit-check error 500, limit reached 403 with upgrade flag (before the body is read), unreadable body 500 "Internal server error", blank title 400, missing AI key 500 "OpenAI API key not configured". The AI is asked only after every check passes, with count defaulting to 5. A failed or malformed AI reply gives 500 "Internal server error", an error status is passed on with its message, and a reply that is not an array gives 500 "Invalid response from AI". Names come back only for an array reply, unchanged. The counter is bumped exactly on success with a working increment; a failed bump still gives 200. The usage reflects the new count. A free user within the allowance stays within it |
| SubscriptionBanner.BannerFor | src/components/SubscriptionBanner.tsx:90-130 | no banner exactly while loading or without usage; the premium banner exactly for a loaded premium usage; the used-up banner shows the used count of a free user; the trial banner shows a non-zero remaining count |
| SubscriptionBanner.PremiumBannerAlways | src/components/SubscriptionBanner.tsx:98-111 | a premium user gets the premium banner whatever the usage count |
| SubscriptionBanner.FreeBannerSpec | src/components/SubscriptionBanner.tsx:39-130 | for a free user the limit is reached exactly when used ≥ 2, the used-up banner shows the used count, and the trial banner shows one or two remaining |
| SubscriptionBanner.BannerState.constructor | src/components/SubscriptionBanner.tsx:16-92 | the banner starts loading with no usage and shows nothing |
| SubscriptionBanner.BannerState.LoadUsageData | src/components/SubscriptionBanner.tsx:24-53 | loading ends either way; a completed load stores the usage summary for the user, after which a banner shows, the premium one exactly when an active subscription row exists |
| SubscriptionStatus.Display | src/components/subscription/SubscriptionStatus.tsx:48-99 | nothing is shown exactly without a user; the loading label exactly for a signed-in user while loading; a plan label has a record, a non-empty product name, and the crown exactly with green |
| SubscriptionStatus.StatusColor | src/components/subscription/SubscriptionStatus.tsx:74-79 | one of four colours, gray exactly for a status other than active, past due or canceled |
| SubscriptionStatus.StatusText | src/components/subscription/SubscriptionStatus.tsx:81-89 | a known status gives one of the four labels, any other status reads as itself, and "Canceling" comes from an active plan that cancels at period end |
| SubscriptionStatus.ProductName | src/components/subscription/SubscriptionStatus.tsx:69-95 | the name is never empty: "Premium" or the name of the catalogue product with that price id |
| SubscriptionStatus.FreePlanSpec | src/components/subscription/SubscriptionStatus.tsx:61-67 | "Free Plan" shows exactly when there is no record or its status is `not_started` |
| SubscriptionStatus.StatusLabels | src/components/subscription/SubscriptionStatus.tsx:81-89 | an active plan reads "Canceling" exactly when it cancels at period end, else "Active"; "Past Due" and "Canceled" for those statuses; any other status as it is |
| SubscriptionStatus.StatusColours | src/components/subscription/SubscriptionStatus.tsx:74-93 | green, yellow, red for active, past due, canceled, gray otherwise, each exactly; the crown shows exactly with green |
| SubscriptionStatus.ProductNameSpec | src/components/subscription/SubscriptionStatus.tsx:69-95 | a known price id names its product; no price id or an unknown one shows "Premium"; the shipped price id shows "Bolt Namer" |
| SubscriptionStatus.StatusState.constructor | src/components/subscription/SubscriptionStatus.tsx:16-17 | the label starts loading with no subscription |
| SubscriptionStatus.StatusState.Refresh | src/components/subscription/SubscriptionStatus.tsx:19-46 | loading always ends; a successful query replaces the subscription, a failed one keeps it, and a signed-in user is then shown a plan or "Free Plan" |
| StripeConfig.GetProductById | src/stripe-config.ts:23-25 | a result has the requested id and is the first product with it; none exactly when no product has it |
| StripeConfig.GetProductByPriceId | src/stripe-config.ts:27-29 | a result has the requested price id and is the first product with it; none exactly when no product has it |
| StripeConfig.ShippedPriceResolves | src/stripe-config.ts:11-21 | the shipped price id resolves to "Bolt Namer", a subscription product |

## Left out

- Database queries, inserts, deletes and realtime channels are in-memory tables and sequences.
  Their filtering, atomicity and error reporting belong to the database. The poll page's vote
  insert and the create-poll form's poll and option inserts take their outcome as a boolean
  input. The subscription label's query error is an input, and it keeps the earlier record.
- SubscriptionBanner.BannerState.LoadUsageData: the banner reads only the data of its two
  queries and ignores their errors. A failed query reads as "no row", which the model expresses
  by passing tables without the user's row; the user then shows as 0 used and not premium. Only
  a thrown exception keeps the earlier usage, and that is the `threw` input.
- GenerateNames.HandleRequest: the usage and subscription reads after a generation are modelled
  as succeeding. The code ignores their errors, so a failed read would report 0 used and not
  premium in the 200 reply.
- StripeWebhook.Dispatch: the `maybeSingle` lookup of the subscription update is modelled as
  succeeding. On a query error the code skips the update, the same as when no single row matches.
- PollView.LoadPollData: models a successful fetch only. When any of the three reads fails, the
  page throws, keeps the poll and the list shown before, and only ends loading; that path is not
  modelled.
- PollDetail.CastVote, PollDetail.Unvote, PollDetail.AddedOption: model the write as successful.
  On a database error the page throws and the table stays as it was; that path is not modelled.
- The limit-check and increment database functions are not part of this model. The limit check
  is an input; the increment is a counter bump in which a missing row counts as 0.
  No atomicity is claimed.
- The AI call and its prompt text are a reply value. `AiPrompt` records only the title and count
  the prompt is built from.
- Payment-processor calls (signature verification, subscription retrieval, customers, checkout
  sessions) are inputs. The checkout-session function is not part of this model, being almost
  wholly such calls.
- The auth session, sign-up, success, subscription and card pages, the poll list and the poll
  list page are rendering and network glue.
- The subscription gate component refers to names it never defines, so it has no behaviour to
  model.
- The create-poll page repeats the create-poll component.
- `handleUpgrade` in the banner starts a checkout and redirects; it is a foreign call.
- Floating point: the vote percentage bars and the formatted prices. Product prices are whole
  cents.
- Timestamps: `updated_at`, `created_at` and the ISO date conversion. A period end is kept as
  milliseconds. The range error `toISOString` raises on an out-of-range date is not modelled.
- The JSON bodies are abstract: a body is either a well-formed event or request, or "not
  parseable". A parsed reply is a sequence of strings; the element type of the array is not
  checked.
- The vote counts and voted flags of the poll detail page are set in code that is not part of
  this model. Its entries are modelled with count 0 and not voted, as they are first created.
- PollView.PollSession.HandleVote: the anonymous vote carries no user id, as in the code.
- CreatePoll.UpdateOption: requires an index inside the list. The page only calls it for an
  index it rendered.
- StripeWebhook.Dispatch: the table is keyed by user id, which is assumed to be the conflict key
  of the checkout upsert. The webhook's upsert and updates are modelled as always applied; the
  code ignores their errors, so a failed write would leave the table unchanged and still answer 200.
- GenerateNames.ApiErrorMessage: cuts a non-JSON body at 200 characters (code points), whereas
  JavaScript's `substring(0, 200)` counts UTF-16 code units and can split a surrogate pair.
- Console logging and `alert` messages.
- Concurrency, such as realtime reloads racing a vote, and "vote at most three times" or "one
  vote per option per user": the code enforces neither, so the model does not claim them.

## Findings

| source | as written | input that shows it | evidently intended | confidence | as-written member | corrected member |
|---|---|---|---|---|---|---|
| supabase/functions/stripe-webhook/index.ts:45 | the signature is checked only when a secret is configured and a `stripe-signature` header is present; without the header, the body is parsed and processed unverified | secret configured, no `stripe-signature` header, body a `customer.subscription.deleted` event for an existing subscription: 200 and the subscription is marked canceled | once a secret is configured, every delivery must carry a signature that verifies | not executed | StripeWebhook.UnsignedEventAccepted | StripeWebhook.StrictGateSpec |
