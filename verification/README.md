# Niche Navigator — a Dafny model of the client-side logic

Niche Navigator is a React single-page app for founders. They collect micro-SaaS
ideas, attach pain points and validation signals to them, ask a language model for
pricing, acquisition and validation plans, and pay for a "pro" plan that lifts the
free limits. The server is a hosted Postgres (Supabase). Every rule the app itself
decides runs in the browser, and this project models those rules as pure Dafny
functions over immutable data.

- **Validation scoring** (`Validation.Analyze`) turns an idea's signals into a
  0–100 score, a confidence band and an ordered list of recommendations.
- **Subscription gate** (`Subscription`) covers the plan predicates, the feature
  table, `canPerformAction` and the usage limits.
- **Idea store** (`IdeaStore`) is the `useIdeas` hook:
  - how each mutator changes the local list on success, on a database error and
    when nobody is signed in;
  - the stage and category lookups, and the two running totals.
- **Idea service** (`IdeaService`, with `Csv` and `Decimal` underneath):
  - the JSON export summary;
  - the CSV text, with a parser it reads back through;
  - the duplicate payload;
  - the statistics object, including the per-category histogram.
- **Components**, with the clock, the language model and the backend turned into
  parameters:
  - `AuthForm`: the auth dialog;
  - `Routing`: the protected route;
  - `Selection`: the idea picker the three planners share;
  - `Monetization`, `Acquisition` and `ValidationTools`: the three planners;
  - `Generator`: the problem generator;
  - `Dashboard`: the dashboard counters and the recent-ideas strip.

JavaScript semantics are written out where they matter:

- `x || 0` on a nullable number;
- the truthiness of `""` and of a zero projection;
- `find` returns the first match;
- `replace` with a string pattern changes only the first match;
- `slice(-3)`;
- `trim` uses the ECMAScript white-space set;
- `filter(p => p !== problem)` compares object identity, modelled by a `handle`.

## Model

| member | source | states |
|---|---|---|
| Validation.Analyze | src/hooks/useValidation.js:176-240 | No signals (absent or empty) gives score 0, Low, and the two "start with" recommendations. Otherwise the score is the raw score capped at 100, the tally holds the four kind counts, and the recommendations are those for the counts. Always 0 ≤ score ≤ 100, and the confidence is the band of the score. |
| Validation.ConfidenceOf | src/hooks/useValidation.js:224-227 | Low iff score < 30, Medium iff 30–59, High iff 60–79, Very high iff ≥ 80. |
| Validation.Recommendations | src/hooks/useValidation.js:210-221 | Each recommendation appears iff its condition holds: no surveys; fewer than 3 interviews; no landing page; no prototype and score > 40. They always come in the fixed order. |
| Validation.RawScoreNonNegative | src/hooks/useValidation.js:196-207 | The uncapped score is never negative. |
| Validation.CountAppend | src/hooks/useValidation.js:191-194 | Appending a signal raises exactly its own kind's count by one. |
| Validation.CountsPartition | src/hooks/useValidation.js:191-194 | The four counted kinds plus `other` add up to the number of signals. |
| Validation.AppendSignalScore | src/hooks/useValidation.js:196-207 | The marginal effect of one more signal of each kind: +20 for the first survey, +30 for the third interview, +25 for the first landing page plus its conversion bonus, +25 for the first prototype, nothing for `other`. |
| Validation.AppendNeverLowersScore | src/hooks/useValidation.js:196-230 | Recording another signal never lowers the reported score. |
| Validation.OtherSignalIsIgnored | src/hooks/useValidation.js:191-238 | A signal of kind `other` changes nothing in a non-empty analysis. |
| Validation.PermutationInvariant | src/hooks/useValidation.js:186-238 | The analysis depends only on the multiset of signals, not their order. |
| Validation.HighConvertingLandingPage | src/hooks/useValidation.js:199-206 | A single landing page with a 12 % conversion scores 25+10+10 = 45, which is Medium. |
| Subscription.ProAndFreeExclusive | src/hooks/useSubscription.js:11-12 | No profile is both pro and free; a missing profile counts as free. |
| Subscription.GetFeatures | src/hooks/useSubscription.js:15-37 | Pro: unlimited ideas and validations and every flag on. Otherwise: 3 ideas, 5 validations, every flag off. |
| Subscription.CanPerformAction | src/hooks/useSubscription.js:40-58 | `create_idea` is allowed iff pro or the count is below 3, and `create_validation` iff pro or the count is below 5. The four feature actions are allowed iff pro. Any unknown action is allowed. |
| Subscription.ProMayDoAnything | src/hooks/useSubscription.js:40-58 | A pro profile may perform every action at any count. |
| Subscription.FreeIdeaCap | src/hooks/useSubscription.js:28-45 | A non-pro user may create an idea iff they hold at most 2. |
| Subscription.GetUsageLimits | src/hooks/useSubscription.js:62-73 | `unlimited` is true iff the limit is −1, and that holds iff the profile is pro. Free limits are 3 and 5. |
| IdeaStore.FetchIdeas | src/hooks/useIdeas.js:12-39 | Signed out gives the empty list. A failed query keeps the list. A successful one replaces it, with `null` read as empty. |
| IdeaStore.CreateIdea | src/hooks/useIdeas.js:42-66 | Signed out throws "User not authenticated" and keeps the list. An error keeps the list. Success prepends the inserted row. |
| IdeaStore.Merge | src/hooks/useIdeas.js:85 | All nine table columns come from the returned row. The joined children, both strategies and the validation data stay as they were. |
| IdeaStore.UpdateIdea | src/hooks/useIdeas.js:69-93 | On success every idea with the id is exactly its merge with the returned row. Others are untouched. Errors keep the list. |
| IdeaStore.MergeLastWins | src/hooks/useIdeas.js:85 | Merging a second row overwrites everything the first one set. |
| IdeaStore.UpdateIdeaIdempotent | src/hooks/useIdeas.js:84-86 | Applying the same returned row a second time changes nothing. |
| IdeaStore.UpdateWhere | src/hooks/useIdeas.js:84-86 | The `map` pattern: the same length, the ideas with the id transformed, the rest unchanged. |
| IdeaStore.DeleteIdea | src/hooks/useIdeas.js:96-114 | On success exactly the ideas with the id leave, in order. Errors and signed-out calls keep the list. |
| IdeaStore.DeleteUndoesCreate | src/hooks/useIdeas.js:60-109 | Deleting a freshly created idea whose id was new restores the previous list. |
| IdeaStore.AddPainPoints | src/hooks/useIdeas.js:117-145 | The matched ideas' pain points become the old ones (missing read as none) followed by the inserted rows. Nothing else changes. |
| IdeaStore.AddValidationSignal | src/hooks/useIdeas.js:148-177 | The matched ideas' signals become the old ones followed by the inserted signal. Nothing else changes. |
| IdeaStore.AddSignalNeverLowersScore | src/hooks/useIdeas.js:166-170 | After recording a signal, no idea's validation score went down. |
| IdeaStore.IdeasByStage | src/hooks/useIdeas.js:180-182 | Exactly the ideas whose stage matches are returned. |
| IdeaStore.IdeasByCategory | src/hooks/useIdeas.js:185-187 | Exactly the ideas whose category matches are returned. |
| IdeaStore.LookupsKeepOrder | src/hooks/useIdeas.js:180-187 | Both lookups distribute over concatenation, so list order is kept. |
| IdeaStore.TotalRevenue | src/hooks/useIdeas.js:190-192 | No ideas give 0. When no revenue potential is negative, neither is the total. |
| IdeaStore.TotalTargetUsers | src/hooks/useIdeas.js:195-197 | No ideas give 0. When no target-user count is negative, neither is the total. |
| IdeaStore.TotalsAreRunningSums | src/hooks/useIdeas.js:190-197 | Both totals start at 0 and add each idea's value, with a missing value counted as 0. |
| IdeaService.Summarize | src/services/ideaService.js:22-27 | `total_ideas` is the list length, validated ≤ total, and an empty list gives all zeros. |
| IdeaService.ExportIdeasToJson | src/services/ideaService.js:4-35 | A query error is rethrown. Otherwise the export carries exactly the fetched ideas, the given user id and export date, and their summary. |
| IdeaService.CsvFields | src/services/ideaService.js:86-95 | Eight fields in header order. The text fields are copied. Both numbers read back to the value, or 0 when missing. The dates go through the locale formatter. |
| IdeaService.CsvTable | src/services/ideaService.js:74-97 | The header row followed by one 8-field row per idea, in order. |
| IdeaService.ExportIdeasToCsv | src/services/ideaService.js:63-107 | A query error is rethrown. Otherwise the result is the quoted, comma- and newline-joined table. |
| IdeaService.CsvReadsBack | src/services/ideaService.js:97-100 | When no text field holds a double quote, parsing the CSV gives back the table exactly. |
| IdeaService.TableAvoids | src/services/ideaService.js:86-95 | A character absent from the idea texts, dates and headers (and not a digit or '-') is absent from every cell. |
| IdeaService.CsvLineCount | src/services/ideaService.js:97-100 | Without newlines in the texts the document has exactly one line per idea plus the header. |
| Csv.RoundTrip | src/services/ideaService.js:98-100 | Parsing the quoted, joined document of a table with non-empty rows and no quotes returns the table. |
| Csv.EmbeddedQuoteBreaksRoundTrip | src/services/ideaService.js:99 | A one-field document whose field holds a double quote not followed by `,` or a newline does not read back at all, because the source does not escape quotes. |
| Csv.NewlineCount | src/services/ideaService.js:100 | Rows without newlines give a document with one fewer newline than rows. |
| Decimal.IntRoundTrip | src/services/ideaService.js:90-91 | A number printed in decimal reads back as the same integer. |
| IdeaService.DuplicatePayload | src/services/ideaService.js:148-155 | The copy is named "<name> (Copy)", is back at stage `initial`, and has no id or timestamps. Every other field equals the original's. |
| IdeaService.DuplicateIdea | src/services/ideaService.js:135-170 | A fetch error stops before any insert. Otherwise the payload above is sent and the insert's outcome returned. |
| IdeaService.CategoryDistribution | src/services/ideaService.js:201-206 | The histogram has exactly the categories that occur. Each entry is that category's count, at least 1. The entries add up to the number of ideas. |
| IdeaService.DistributionTotal | src/services/ideaService.js:201-206 | Any map that counts every category of a list sums to the list's length. |
| IdeaService.Average | src/services/ideaService.js:197-199 | 0 for no ideas. Otherwise the value that, times the count, gives the total. |
| IdeaService.GetIdeasStatistics | src/services/ideaService.js:173-213 | A query error is rethrown. Otherwise the total, the four stage counts, the category histogram, the revenue and user totals, the signal count and the average are filled in as described. |
| IdeaService.StageCountsCover | src/services/ideaService.js:186-192 | The four stage counts never exceed the total, and equal it when every stage is one of the four allowed values. |
| IdeaService.SummaryAgreesWithStatistics | src/services/ideaService.js:186-196 | The export summary and the statistics report the same total, validated count and sums. |
| AuthForm.ResetForm | src/components/auth/AuthModal.jsx:15-20 | The email, both passwords and the banner are cleared. The mode and loading flag are kept. |
| AuthForm.HandleSubmit | src/components/auth/AuthModal.jsx:27-75 | Loading is false at the end on every path. Sign-up calls the server iff the passwords match and have ≥ 6 characters. A mismatch is reported before a short password. Sign-in and reset always call. The dialog closes iff a sign-in succeeds, and then the form is reset. A rejected call shows the server's error message, and a thrown error shows "An unexpected error occurred". A successful sign-up or reset shows its check-your-email text. |
| AuthForm.RejectedSignUpIsStable | src/components/auth/AuthModal.jsx:33-41 | A locally rejected sign-up makes no call, and resubmitting it changes nothing. |
| Routing.Route | src/components/ProtectedRoute.jsx:5-78 | Spinner iff loading. Welcome (sign-up dialog) iff loaded and signed out. Upgrade prompt iff signed in, the route requires pro, and the user is not pro. The page iff signed in and pro is not required or held. |
| Routing.ProSeesEverything | src/components/ProtectedRoute.jsx:50-78 | A route without `requiresPro` never prompts for an upgrade, and a signed-in pro user sees every page. |
| Selection.FindIdea | src/components/MonetizationPlanner.jsx:13 | None iff no idea has the id. Otherwise an idea of the list carrying it. |
| Selection.FindIdeaIsFirst | src/components/ValidationTools.jsx:15 | `find` returns the earliest idea with the id. |
| Selection.SelectedIdea | src/components/AcquisitionPlanner.jsx:10-14 | Nothing is selected iff the picker is empty or no idea has the id. A selected idea carries the id and is in the list. |
| Monetization.GenerateStrategy | src/components/MonetizationPlanner.jsx:10-68 | The guard keeps the old strategy. When it passes there is a strategy afterwards, the generator's reply if it succeeded and the sample one (month 12 = 8900) if it threw. |
| Monetization.ApplyPricing | src/components/MonetizationPlanner.jsx:70-82 | Without a choice or a strategy nothing changes. Ideas with another id are untouched. Matched ideas get the strategy, and their revenue becomes the month-12 projection unless that is missing or zero. |
| Monetization.ApplyPricingIdempotent | src/components/MonetizationPlanner.jsx:70-82 | Applying the same strategy twice equals applying it once. |
| Monetization.FallbackSetsRevenue | src/components/MonetizationPlanner.jsx:60-82 | After a failed generation, applying sets the chosen idea's revenue potential to 8900. |
| Acquisition.GenerateStrategy | src/components/AcquisitionPlanner.jsx:10-88 | The guard keeps the old strategy. When it passes there is a strategy afterwards, the generator's reply if it succeeded and the five-step sample if it threw. |
| Acquisition.ApplyStrategy | src/components/AcquisitionPlanner.jsx:90-98 | Without a choice or a strategy nothing changes. Matched ideas get the strategy and nothing else. Other ideas are untouched. |
| Acquisition.ApplyStrategyIdempotent | src/components/AcquisitionPlanner.jsx:90-98 | Applying the same strategy twice equals applying it once. |
| Acquisition.TimelineRows | src/components/AcquisitionPlanner.jsx:281-288 | One row per timeline entry, in order: the key's label beside its action. |
| Acquisition.FallbackLastRowLabel | src/components/AcquisitionPlanner.jsx:284 | The sample's `week_5_8` is shown as "WEEK 5_8": only the first underscore is replaced. |
| Text.ReplaceFirst | src/components/AcquisitionPlanner.jsx:284 | The same length. Only the first occurrence (if any) changes, and it becomes the replacement. |
| Text.LabelShape | src/components/ValidationTools.jsx:147 | A label keeps the key's length and has no lower-case ASCII letter. It has exactly one underscore fewer when the key had one. |
| Text.TimelineLabelExample | src/components/AcquisitionPlanner.jsx:284 | `week_5_8` is labelled "WEEK 5_8". |
| Text.QuestionTypeLabelExample | src/components/ValidationTools.jsx:147 | `problem_validation` is labelled "PROBLEM VALIDATION". |
| Text.TrimEmpty | src/components/IdeaGenerator.jsx:25 | Trimming leaves nothing iff every character is white space. |
| Generator.CanGenerate | src/components/IdeaGenerator.jsx:24-25 | Generation starts iff the keywords hold a character that is not white space. |
| Generator.HandleGenerate | src/components/IdeaGenerator.jsx:24-46 | Blank keywords change nothing. Otherwise the list is the generator's problems, or the one sample problem if it threw. |
| Generator.NewIdea | src/components/IdeaGenerator.jsx:49-54 | The problem's own id wins over the timestamp id, the creation time is the clock's, and every other field is the problem's. |
| Generator.AddToIdeas | src/components/IdeaGenerator.jsx:49-57 | The new idea is appended after the unchanged list. The chosen problem, by identity, leaves the generated list, and every other problem stays, in order. |
| Generator.RemovalKeepsOrder | src/components/IdeaGenerator.jsx:56 | Removing the chosen problem from a concatenation gives the two shortened lists concatenated, so the other problems keep their order. |
| Generator.AddRemovesExactlyOne | src/components/IdeaGenerator.jsx:56 | With distinct problem objects, adding one shortens the generated list by exactly one. |
| ValidationTools.GenerateValidation | src/components/ValidationTools.jsx:12-48 | The guard keeps the old toolkit. Success stores the reply. A throw stores the three sample questions and a survey titled with the idea's name. |
| ValidationTools.FallbackBadge | src/components/ValidationTools.jsx:147 | The first sample question's badge reads "PROBLEM VALIDATION". |
| ValidationTools.RecordValidationResult | src/components/ValidationTools.jsx:54-66 | The result is stored under the id, replacing any older one and keeping other keys. Matched ideas take the result's stage and keep it as validation data. Others are untouched. |
| ValidationTools.ResultsPanel | src/components/ValidationTools.jsx:195 | Exactly the ideas with validation data are listed. |
| ValidationTools.ResultsPanelKeepsOrder | src/components/ValidationTools.jsx:195 | The panel of a concatenation is the two panels concatenated, so ideas appear in list order and as often as in the list. |
| ValidationTools.PanelShownIffNonEmpty | src/components/ValidationTools.jsx:189-195 | The `some` test is true iff the filtered list is non-empty. |
| ValidationTools.RecordedIdeaIsListed | src/components/ValidationTools.jsx:189-195 | After recording a result for an idea in the list, the panel is shown and lists that idea with its new stage. |
| Dashboard.DashboardStats | src/components/Dashboard.jsx:5-36 | Active = list length, validated ≤ active, and an empty list shows all zeros. |
| Dashboard.DashboardMatchesExportSummary | src/components/Dashboard.jsx:5-36 | The four cards show the same numbers as the export summary. |
| Dashboard.SliceFrom | src/components/Dashboard.jsx:38 | JavaScript `slice(start)`: a negative start counts from the end and is clamped at 0. An oversized start gives the empty list. |
| Dashboard.RecentIdeas | src/components/Dashboard.jsx:38 | At most three ideas, exactly the last ones of the list. |
| Dashboard.RecentSlides | src/components/Dashboard.jsx:38 | Appending an idea moves the window: it is the old window's tail (when full) plus the new idea. |
| Dashboard.AddedIdeaIsMostRecent | src/components/Dashboard.jsx:38 | An idea just added from the generator is the last recent idea. |

## Left out

- Network and database I/O. Every Supabase query, insert and delete, every call to
  the language model and Stripe, and the auth hook are parameters (`Result`
  replies, the current user, the `isPro` and `loading` flags).
  `src/utils/openaiService`, `src/hooks/useAuth` and `src/services/stripeService.js`
  are not part of this model.
- The loading and error state setters, console logging, and React rendering.
  Only the decisions that choose what is shown are modelled.
- `getSubscriptionStatus`, `getPricingInfo`, `upgradeToPro`, `manageSubscription`,
  `cancelSubscription` and `handleSubscriptionSuccess`. These are display constants
  and Stripe redirects.
- `searchIdeas`, `downloadIdeasJSON` and `downloadIdeasCSV`. These are a server-side
  query and browser downloads.
- The insert payloads of `addPainPoints` and `addValidationSignal`: spreading
  `idea_id` into each row only matters to the database.
- The `user_id` column and the `user_pain_points` text-array column of `ideas`, and
  the pain-point list in the generator's sample problem. The modelled code copies
  them through unread: the spread in `duplicateIdea`, the spread of the problem in
  `addToIdeas`, and the `ideas` of the JSON export. Because `Idea` has no such fields,
  the "every other field is kept" clauses of IdeaService.DuplicatePayload and
  Generator.NewIdea say nothing about them.
- Clocks and locale: `Date.now()`, `toISOString()` and `toLocaleDateString()` are
  parameters.
- Concurrency: React state updates are applied one at a time, in call order.
- Validation.Analyze: conversion rates are exact reals, not IEEE doubles. A
  non-numeric or NaN rate is not represented.
- IdeaService.GetIdeasStatistics: the average is an exact real quotient, not a
  rounded double.
- IdeaService.CsvFields: numbers are printed as plain decimal integers, so
  JavaScript's exponent form above 1e21 is not modelled.
- Text.ToUpper: only the ASCII letters a–z are upper-cased. `toUpperCase` also maps
  other Unicode letters, including some that change length.
- AuthForm.HandleSubmit: password length counts Unicode scalar values, whereas
  JavaScript counts UTF-16 code units, so astral characters count once here and
  twice there.
- Spreading an object whose key holds `undefined` cannot be expressed, because an
  absent field is `None`. `{...problem}` with `id: undefined` is treated as having
  no id.
- IdeaService.CategoryDistribution: the source counts categories in a plain `{}`
  object. A category named after an inherited `Object.prototype` key behaves
  differently there. "constructor" starts from the inherited function and becomes
  a string. "__proto__" is never stored. The `map<string, nat>` model counts these
  like any other name, so for such categories IdeaService.DistributionTotal and
  IdeaService.GetIdeasStatistics describe the intended count, not the program's.
- Monetization.ApplyPricing: `month_12` of a generated strategy is typed `int`. The
  source copies any truthy value the language model returns, such as the string
  "8,900" or a fraction, into `revenue_potential`. The dashboard's `reduce` would
  then concatenate strings. Such values cannot be written in this model, so the
  exact totals hold only for integer projections.
- Generator.NewIdea: the generated problem's `revenue_potential` and `target_users`
  are typed `int`. The source copies whatever the language model returned, so
  non-integer or string values, and the totals they would produce, are not
  represented.
- Acquisition.TimelineRows: the timeline is a sequence of pairs in the order given.
  `Object.entries` lists integer-like keys first, in ascending order, before the
  other keys in insertion order. Timeline keys such as "week_1" are not integer-like,
  so this matters only for keys made of digits alone.
