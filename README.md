# LexiForge front-end domain logic, in Dafny

LexiForge is a paraphrase marketplace. Sponsors post projects made of
subjects, miners write paraphrases, and inspectors vote on them, with gems
as the currency. The React front end keeps its domain logic inside event
handlers that talk to a hosted document store. This project lifts that
logic out of the store calls and proves what it does:

- **Inspection workflow** (`InspectPage`):
  - the vote/quorum evaluator: one vote increments one counter, and the verdict is recomputed against `validations_needed * 0.1`;
  - the inspection record built per vote, and the template reset after it;
  - the session cursor over the paraphrases of one subject, which stops at the last item.
- **Gem wallet** (`AccountPage`):
  - buying and selling gems updates `current_gems` and `total_gems` and prepends to a newest-first transaction list;
  - a sale larger than the balance is refused;
  - the single-field profile update.
- **New project form** (`NewProject`): the closed-form gem cost with its zero guard, appending a draft subject, deleting a subject by id, the non-blank check that enables "Add Subject", and the creator stamp and reset after posting.
- **Project lists** (`Projects`, `OngoingProjects`):
  - the filter that hides every "jain project" after the first (titles compared case-insensitively);
  - the cleanup that deletes those duplicates, and what triggers it;
  - the creator-only delete;
  - the dashboard's "my projects" restriction.
- **Wallet card** (`Wallet`): the balance change over the last seven days, the three most recent transactions, and the sign label.
- **ESM loader hook** (`EsmLoader`): which module specifiers are treated as Windows paths and converted to file URLs, and which pass through unchanged.

Where the source works by changing state step by step, the model does the
same:

- The inspection session, the gem account, the project form and the project list are classes whose methods update fields.
- The duplicate filter and the cleanup are loops, proved against reference definitions (the recursive `Projects.Dedup`, and `Projects.CleanupTargets` built on a recursive filter).
- OngoingProjects.jsx carries its own copy of the duplicate filter, identical to the one in Projects.jsx. `OngoingProjects.GetProjects` therefore calls the same `Projects.FilterDuplicates`.

The store never appears as such:

- A listing, a fetched document and a write's success or failure are parameters.
- A written document is a returned value.
- The clock is an integer parameter (`now`, in milliseconds).
- `pathToFileURL` is an uninterpreted function parameter.

Two behaviours that may look surprising are modelled as written and proved:

- A vote whose own side stays below the threshold writes an unresolved verdict over an earlier approval or rejection (`InspectPage.VerdictNotSticky`).
- After the first vote of a session, the template is reset to `{ paraphrase_id: "", isValid: null }`. Every later record therefore lacks `subject_id`, `project_title` and `gem_payout` (`InspectPage.LaterRecordsLackSubject`).

Shared helpers:

- `Strings`: the ASCII part of `toLowerCase`, `trim` over the ECMAScript whitespace set, and decimal rendering.
- `Seqs`: filter and subsequence.
- `Wrappers`: `Option`, with `GetOr` for `x || default`.

## Model

| member | source | states |
|---|---|---|
| InspectPage.CastVote | src/pages/InspectPage.jsx:160-180 | The voted side goes up by exactly one and the other stays. The total grows by one. An approve vote approves iff 10·approvals ≥ validations needed, and a reject vote rejects iff 10·rejections ≥ validations needed. A vote never sets the opposite verdict. Text, subject and every other field are preserved. |
| InspectPage.VotesTally | src/pages/InspectPage.jsx:163-173 | Over any sequence of votes applied in turn, approvals grow by the number of approve votes, rejections by the number of reject votes, and the total by the number of votes. |
| InspectPage.VerdictFromLastVote | src/pages/InspectPage.jsx:161-171 | After any non-empty run of votes, the verdict is the one the last vote alone computes from the counters before it. |
| InspectPage.TenValidationsBoundary | src/pages/InspectPage.jsx:163-166 | With ten validations needed, a fresh paraphrase is unresolved and is approved by its first approve vote. |
| InspectPage.VerdictNotSticky | src/pages/InspectPage.jsx:161-177 | An approved paraphrase becomes unresolved after one reject vote that stays below the threshold, and rejected after one that reaches it. |
| InspectPage.BuildItems | src/pages/InspectPage.jsx:82-94 | The loaded triples are exactly the subject's paraphrases in store order (text, key, approvals + rejections). An item is present iff some listed document of the subject yields it. |
| InspectPage.Record | src/pages/InspectPage.jsx:116-121 | The record carries the inspector's key, the vote, and the key of the current paraphrase. Every other template field is copied. |
| InspectPage.LaterRecordsLackSubject | src/pages/InspectPage.jsx:137-141 | The first record of a session carries the subject id. A record built from the reset template has no subject id and no project title. |
| InspectPage.Session.constructor | src/pages/InspectPage.jsx:20-44 | The session starts with no paraphrases, cursor 0, count 0, not submitted, and the initial template holding the subject id. |
| InspectPage.Session.LoadProject | src/pages/InspectPage.jsx:63-64 | The project's `validations_needed` becomes the session's. |
| InspectPage.Session.Load | src/pages/InspectPage.jsx:76-101 | If listing the store fails, nothing is stored. If the cursor has an item in the fresh list, the list and that item's count are stored. Otherwise, for example when the subject has no paraphrases, nothing is stored. |
| InspectPage.Session.Vote | src/pages/InspectPage.jsx:112-157 | The fetched document, when there is one, is the current item's. A record is written iff there is a user, there is a current item and the ledger write succeeds. Updated counters are written iff in addition the paraphrase document was fetched: they are `CastVote` of it, with key and store metadata kept, and the progress shows the new total. After a written record, the template is reset and the item is marked submitted. Otherwise the template and the submitted flag are unchanged. |
| InspectPage.Session.Advance | src/pages/InspectPage.jsx:194-246 | If listing the store fails, or the fresh list has no item after the cursor, nothing changes. Otherwise the cursor moves up by one, the list is replaced, the count becomes the new item's total and the submitted flag is cleared. The cursor stays within the list. |
| InspectPage.Session.Display | src/pages/InspectPage.jsx:313-315 | With no paraphrases the page shows "Loading...". Otherwise it shows the text of the current paraphrase. |
| AccountPage.Purchased | src/pages/AccountPage.jsx:120-133 | The history gains one Purchase of +amount in front, with the earlier transactions behind it in order. Current and total gems, missing ones counted as 0, each grow by the amount, and the change in current gems equals the new transaction's amount. The profile is untouched. |
| AccountPage.Sold | src/pages/AccountPage.jsx:167-180 | The history gains one Sale of −amount in front, with the earlier transactions behind it. Current gems fall by the amount, which equals the new transaction's amount. Total gems and the profile are untouched. |
| AccountPage.PurchaseKeepsLedger | src/pages/AccountPage.jsx:128-133 | If the balance is the net of the history and the total is the sum of the purchases, a purchase keeps it so. |
| AccountPage.SaleKeepsLedger | src/pages/AccountPage.jsx:176-180 | The same ledger invariant survives a sale. |
| AccountPage.GemAccount.constructor | src/pages/AccountPage.jsx:19-41 | The initial page state: an empty profile, zero gems, an empty history, amounts of 100, and not processing. |
| AccountPage.GemAccount.InputChange | src/pages/AccountPage.jsx:83-86 | Only the profile field named by the input id changes, to the typed value. |
| AccountPage.GemAccount.SetBuyAmount | src/pages/AccountPage.jsx:358 | The buy amount becomes the entered number. |
| AccountPage.GemAccount.SetSellAmount | src/pages/AccountPage.jsx:389 | The sell amount becomes the entered number. |
| AccountPage.GemAccount.BuyGems | src/pages/AccountPage.jsx:112-152 | With no user, a transaction already processing, or an amount ≤ 0, nothing happens. Otherwise the purchased document is written and replaces the local one only on success, with the success or failure message. Processing ends false. |
| AccountPage.GemAccount.SellGems | src/pages/AccountPage.jsx:154-199 | Guarded like a purchase. A sale above the balance writes nothing and reports "Not enough gems to sell!". Otherwise the sold document is written and adopted only on success. Processing ends false, and a non-negative balance stays non-negative. |
| NewProject.GemCost | src/components/marketplace/NewProject.jsx:119-136 | The cost is 0 when there are no subjects or a payout or quota is 0. Otherwise it is subjects × paraphrases × (miner payout + inspector payout × validations). |
| NewProject.CostLinear | src/components/marketplace/NewProject.jsx:132-135 | When the guard passes, n subjects cost n times one subject. |
| NewProject.DefaultCost | src/components/marketplace/NewProject.jsx:20-30 | With the default payouts and quotas (10, 1, 20, 10), every subject costs 400 gems. |
| NewProject.WithoutId | src/components/marketplace/NewProject.jsx:89-91 | A subject survives iff it was listed and its id differs from the deleted one. Every survivor keeps all its listed copies and no copy of a deleted subject remains, and the survivors keep their order. |
| NewProject.WithoutAbsentId | src/components/marketplace/NewProject.jsx:89-91 | Deleting an id that no subject has changes nothing. |
| NewProject.DeleteUndoesAdd | src/components/marketplace/NewProject.jsx:62-97 | Deleting a subject just appended with a new id restores the earlier list. |
| NewProject.Form.constructor | src/components/marketplace/NewProject.jsx:20-39 | The form starts at the defaults (payouts 10 and 1, 20 paraphrases, 10 validations) with a blank draft. |
| NewProject.Form.SubjectTextChange | src/components/marketplace/NewProject.jsx:50-59 | The draft's title changes and the draft gets a fresh id. Nothing else changes. |
| NewProject.Form.CanAddSubject | src/components/marketplace/NewProject.jsx:81-83 | "Add Subject" is enabled iff the draft title has a character other than whitespace. |
| NewProject.Form.AddSubject | src/components/marketplace/NewProject.jsx:62-79 | The draft goes to the end of the list with the earlier subjects in order. The draft is cleared, title "" included, and the rest of the form is untouched. |
| NewProject.Form.DeleteSubject | src/components/marketplace/NewProject.jsx:87-97 | The subjects become `WithoutId` of the old ones, and the rest of the form is untouched. |
| NewProject.Form.PostNewProject | src/components/marketplace/NewProject.jsx:138-180 | With a user, the form is written with `creator_id` set to the user's key and the posting time, and on success the form and draft are reset to the defaults. Without a user, or when the write fails, the state is unchanged. |
| NewProject.IsFilled | src/components/marketplace/NewProject.jsx:81-83 | A draft is filled iff its title has a character other than whitespace. |
| Strings.TrimEmptyIff | src/components/marketplace/NewProject.jsx:83 | `trim()` yields a non-empty string iff the string has a non-whitespace character. |
| Projects.FilterDuplicates | src/components/marketplace/Projects.jsx:18-37 | The loop with its `seen` map computes exactly the reference filter `Dedup`. |
| Projects.DedupSeenIsNotJain | src/components/marketplace/Projects.jsx:24-29 | Once a "jain project" has been kept, the filter keeps exactly the other projects that follow. |
| Projects.DedupIsSubsequence | src/components/marketplace/Projects.jsx:22-34 | The filtered list is an order-preserving subsequence of the input. |
| Projects.DedupKeepsOthers | src/components/marketplace/Projects.jsx:30-33 | Every project that is not a "jain project", untitled ones included, is kept, in order. |
| Projects.DedupKeepsFirstJain | src/components/marketplace/Projects.jsx:24-29 | Of the "jain project"s exactly the first in input order is kept, and none if there is none. |
| Projects.AtMostOneJain | src/components/marketplace/Projects.jsx:24-29 | At most one "jain project" survives the filter. |
| Projects.DedupFixes | src/components/marketplace/Projects.jsx:18-37 | A list with at most one "jain project" passes the filter unchanged. |
| Projects.DedupIdempotent | src/components/marketplace/Projects.jsx:18-37 | Filtering a filtered list returns it unchanged. |
| Projects.CleanupDeletesDropped | src/components/marketplace/Projects.jsx:49-65 | The cleanup's targets (the "jain project"s from position 1 on) and the filtered list together are the listing, with multiplicity. So the targets number exactly the projects the filter drops. |
| Projects.CleanupNeededIff | src/components/marketplace/Projects.jsx:94 | The filtered list is shorter than the listing iff there are at least two "jain project"s. |
| Projects.CleanupTargets | src/components/marketplace/Projects.jsx:49-58 | There are no targets iff the listing holds at most one "jain project". Every target is a "jain project". |
| Projects.CleanupTargetsListed | src/components/marketplace/Projects.jsx:49-51 | Every target is a project of the listing. |
| Projects.DeleteDuplicates | src/components/marketplace/Projects.jsx:49-65 | The deletions are a prefix of the targets, each accepted by the store. They are complete iff all targets were deleted, and otherwise stop at the first target the store refused. |
| Projects.MayDelete | src/components/marketplace/Projects.jsx:187 | The delete button acts iff a user is signed in and is the project's creator, and never without a user. |
| Projects.ProjectList.constructor | src/components/marketplace/Projects.jsx:14-15 | The list starts empty and no cleanup is running. |
| Projects.ProjectList.GetProjects | src/components/marketplace/Projects.jsx:77-101 | The shown items are the filtered listing, and the reported count is its length. A cleanup starts iff the filter dropped something and the calling handler sees no cleanup running. A failed listing changes nothing and starts nothing. |
| Projects.ProjectList.DeleteDuplicateJainProjects | src/components/marketplace/Projects.jsx:40-74 | A failed listing deletes nothing. Otherwise the targets are deleted in order, each one the store accepted, and the cleanup stops early only at a target whose delete the store refused. Only a complete cleanup whose refresh listing succeeds replaces the items and the reported count by the filtered fresh listing and its length; otherwise both stay. The refresh asks for another cleanup iff duplicates remain, because its closure saw no cleanup running. A cleanup is not left marked as running. |
| Projects.ProjectList.DeleteProject | src/components/marketplace/Projects.jsx:107-120 | A project is deleted iff the signed-in user is its creator (the guard at line 187) and the store accepts the delete. A deletion whose refresh listing succeeds replaces the items and the reported count; otherwise both stay. The refresh asks for a cleanup iff duplicates remain and no cleanup is running. |
| OngoingProjects.GetProjects | src/components/Dashboard/OngoingProjects.jsx:32-51 | A failed listing leaves the shown list as it was. With the toggle off the result is the filtered listing. With it on, the result is the filtered listing restricted to the user's projects, and every item has the user as creator. With the toggle on and no user, an empty filtered listing is shown as empty, and otherwise reading `user.key` fails and the shown list stays as it was. Every result is a subsequence of the listing. |
| OngoingProjects.OwnLaterDuplicateHidden | src/components/Dashboard/OngoingProjects.jsx:40-45 | The duplicate filter runs before the creator filter, so a user's own "jain project" is hidden when someone else's came first. |
| Wallet.WeeklyChange | src/components/Dashboard/Wallet.jsx:46-62 | An empty list leaves the weekly change at its previous value. Otherwise the weekly change is the sum of the amounts dated at or after now minus seven days. |
| Wallet.WindowBoundary | src/components/Dashboard/Wallet.jsx:52-55 | A transaction dated exactly at the cutoff counts, and one dated before it does not affect the sum wherever it stands. |
| Wallet.WeeklyChangeOfNewWallet | src/components/Dashboard/Wallet.jsx:46-62 | For a ledgered wallet whose whole history lies within the week, the weekly change equals the balance. |
| Wallet.RecentActivity | src/components/Dashboard/Wallet.jsx:101 | Recent activity is the first min(3, n) transactions of the list, in list order. |
| Wallet.RecentAfterPurchase | src/components/Dashboard/Wallet.jsx:101 | After a purchase, the new transaction is shown first, followed by the two that led before. So what is shown is the most recently recorded. |
| Wallet.ChangeLabel | src/components/Dashboard/Wallet.jsx:73-74 | The label starts with "+" iff the value is ≥ 0 and with "-" iff it is negative, followed by the digits of its magnitude. |
| EsmLoader.Resolve | esm-loader.mjs:4-17 | The context is always forwarded unchanged. The specifier is converted iff `Converts` holds, that is, iff one of the two tests accepts it. A specifier without a one-letter drive prefix passes through. A drive prefix followed by a slash or backslash, or with no `://` anywhere, is converted. A drive prefix with `://` elsewhere passes through. |
| EsmLoader.NoColonSecondPassesThrough | esm-loader.mjs:11-16 | A specifier whose second character is not a colon is never converted. |
| EsmLoader.DriveTestWins | esm-loader.mjs:6-8 | `C://x` is converted although it contains `://`, because the path test runs first. |
| EsmLoader.DriveRelativeConverted | esm-loader.mjs:11-13 | A drive-relative specifier such as `c:a` is converted. |
| EsmLoader.SchemeAfterDrivePassesThrough | esm-loader.mjs:11-16 | A one-letter prefix with `://` later, as in `C:x://y`, passes through. |
| EsmLoader.SchemesPassThrough | esm-loader.mjs:16 | `node:fs` and `http://x` pass through unchanged. |

## Left out

- Store calls (`listDocs`, `getDoc`, `setDoc`, `deleteDoc`) are foreign network calls. Listings and fetched documents are `Option` parameters (`None` when the call failed), a write's outcome is a boolean, and written documents are returned. Store versioning is not modelled.
- Generated keys (`nanoid`) are not modelled, for the record key in a vote, the project key in a post and the document keys they produce. Only the draft subject's fresh id appears, and only as a parameter.
- Concurrency and lost updates are not modelled. The unawaited counter update after a vote is taken to finish before the next step, and concurrent read-modify-write races between inspectors are ignored. `ApplyVotes` assumes each vote reads the counters the previous one wrote.
- InspectPage.CastVote: the threshold is compared in integers, as 10·count ≥ validations needed, where the source compares `count >= validationsNeeded * 0.1` in doubles. The two agree for every integer `validationsNeeded` below 2^48. The double nearest 0.1 exceeds it by a relative 2^-54, which is too little to carry the product across an integer: a multiple of ten rounds back to its exact tenth, and any other value stays strictly between two integers. Larger quotas are not modelled as doubles.
- InspectPage.Session.Vote: the counter write's own success is not a parameter, because nothing after it depends on it. The vote buttons that the page hides once an item is submitted are not a precondition.
- `getSubject` (project and subject titles for display) is not modelled. Only the hand-over of `validations_needed` is (`InspectPage.Session.LoadProject`).
- The progress percentage (`Math.round`) is floating point and display only.
- The `cost` and `received` USD strings on wallet transactions are built with `toFixed(2)` on floats. They are display text, and `GemTx` omits them.
- AccountPage.GemAccount.SetBuyAmount: amounts are integers. `parseInt` of non-numeric text yields NaN, which passes the `<= 0` guard; that path is not modelled. The same holds for `SetSellAmount`.
- NewProject.GemCost: payouts and quotas are integers. The form's `textChange` stores typed numbers as strings. JavaScript coerces them in the formula, and they also change the zero guard: `!x` is true only for a numeric 0, a missing value or a cleared field "", not for a typed "0". So with a typed "0" miner payout, inspector payout 1, 20 paraphrases and 10 validations, one subject costs 200 in the source, where `GemCost` gives 0. `textChange` and `selectChange` (title, language, payouts) are not modelled.
- Numbers are unbounded integers. In the source they are doubles: gem sums above 2^53 round (`AccountPage.Purchased`, `AccountPage.Sold`, `Wallet.WeeklyChange`), and magnitudes of 10^21 or more are rendered in exponent form such as "1e+21", not as the digits `Strings.IntString` and `Strings.Decimal` give (the purchase and sale messages, `Wallet.ChangeLabel`).
- Dates are integer millisecond timestamps instead of ISO strings. `creation_date: ""` is 0 in `InitialForm`.
- Wallet.WeeklyChange: the cutoff is `now` minus `WeekMs`. The source uses `setDate(getDate() - 7)` in local calendar time, which across a daylight-saving change differs from seven days of milliseconds by an hour.
- `Strings.Lower` lowers ASCII letters only. For the comparison with "jain project", this decides exactly what full Unicode `toLowerCase` decides. No non-ASCII character lower-cases to a single character of that string. The only character whose lower case has several characters, U+0130, becomes "i" followed by U+0307, and U+0307 does not occur in "jain project".
- `pathToFileURL` is a Node library call and stays uninterpreted (the `fileHref` parameter).
- Projects.ProjectList.GetProjects: the `isDeleting` a handler sees is passed in as `deletingSeen`. Which render's closure a handler runs in is not modelled. The cleanup's refresh passes false, and the other callers pass the field.
- Requests for a cleanup (`startCleanup`, `again`) are returned. Running the cleanup they ask for is a separate call, not chained into the method that asked.
- The parent's optional `onProjectCountChange` callback is taken to be present (`reportedCount`).
- `fetchUserData`, `saveUserData` and `handleImageUpload` on the account page and `fetchUserData` on the wallet card are store reads and writes with no logic beyond them, and are not modelled.
- Rendering, routing, modals, alerts and the reload event are not modelled. ProjectPage.jsx, Toolbar.jsx, FeedbackButton.jsx and the Details input components are UI-only and not part of this model, and neither are vite.config.js and the authentication context.
