# Bulk SMS campaign engine, modelled in Dafny

This project models the campaign engine of a bulk-SMS web app with two ways
of sending. In the browser, a React dashboard loops over uploaded CSV rows.
It renders each message from a template with random variants ("spintax") and
`{{column}}` placeholders, pauses 45-90 seconds between sends, and can be
stopped and resumed. On the server, a serverless worker sends up to five
queued messages of a due campaign per call and marks the campaign completed
once nothing is left. A creation endpoint stores a campaign and its message
queue.

The modules:

- `Wrappers`: `Option`.
- `JsText`: the JavaScript string built-ins the core relies on (`trim`, ASCII `toLowerCase`, `includes`, UTF-16 `length`).
- `PhoneUtils`: `normalizePhoneNumber` and `formatPhoneDisplay` (`src/lib/phone-utils.js`).
- `MessageEditor`: the character and segment counters and variable insertion of the composer (`src/components/MessageEditor.jsx`).
- `Interpolation`: `interpolate` of the dashboard. Phase 1 is a left-to-right scan that matches the spintax regular expression. Phase 2 is one case-insensitive global replacement per column.
- `ForegroundSender`: the dashboard's sending handlers. A class `Dashboard` holds the React state as fields, and its methods are proved against the pure functions `StartSpec`/`Sweep`, `Drive` and `TestSpec`.
- `CampaignStore`: the two tables of `api/init-db.js` as records, plus a class `Database` whose methods perform the single-row writes. The store invariant is `StoreValid`: unique keys, the foreign key, and counters bounded by settled messages and by `total_messages`.
- `BatchWorker`: one invocation of `api/worker.js`, the function `StepAt`, and the method `Work` proved against it. Also what repeated invocations do (`DrainFollowsPlan`).
- `CampaignCreation`: `api/create-campaign.js` as `CreateSpec`, and the method `Create` proved against it.

Everything the code waits for is a parameter ("oracle"):

- the provider's answers;
- the random delay and variant draws;
- whether Stop was pressed when the loop looked at the flag;
- the keys `gen_random_uuid()` hands out;
- the current time;
- how many SQL writes succeed before one throws;
- whether the worker's connection and campaign query succeed.

## Model

| member | source | states |
|---|---|---|
| JsText.TrimStart | src/components/Dashboard.jsx:112 | the result is a suffix of the input; what was removed is whitespace; the result does not start with whitespace |
| JsText.TrimEnd | src/components/Dashboard.jsx:112 | the result is a prefix of the input; what was removed is whitespace; the result does not end with whitespace |
| JsText.Trim | src/components/MessageEditor.jsx:10 | the result is a contiguous slice of the input that neither starts nor ends with whitespace |
| JsText.BlankIffAllSpace | src/components/Dashboard.jsx:112 | `!s.trim()` holds exactly when every character of s is whitespace |
| JsText.LowerAscii | src/components/Dashboard.jsx:149 | upper-case ASCII letters map to their lower-case letter; every other character is kept |
| JsText.Lower | src/components/Dashboard.jsx:149 | same length, lower-cased character by character |
| JsText.ContainsAt | src/components/Dashboard.jsx:149 | a substring occurring at any position makes `includes` true |
| JsText.Utf16Length | src/components/MessageEditor.jsx:14 | between one and two code units per character; exactly one per character for Basic Multilingual Plane text |
| JsText.Utf16LengthAppend | src/components/MessageEditor.jsx:14 | the UTF-16 length of a concatenation is the sum of the lengths |
| PhoneUtils.Clean | src/lib/phone-utils.js:11 | keeps only digits and '+', and never grows the input; text made only of those is unchanged; without '+' only digits remain |
| PhoneUtils.DigitsOf | src/lib/phone-utils.js:49 | digits only; digit-only text is unchanged; text without digits gives "" |
| PhoneUtils.Normalize | src/lib/phone-utils.js:7-39 | the result is "" exactly when the input is ""; the result has only digits and '+'; a non-empty result starts with '+' |
| PhoneUtils.NormalizeReference | src/lib/phone-utils.js:13-38 | only three outcomes occur: a cleaned value starting with '+' is kept; ten characters get "+1"; anything else gets "+" (the branches at lines 29 and 38 are never the ones that decide) |
| PhoneUtils.NormalizeIdempotent | src/lib/phone-utils.js:7-39 | normalising a normalised number changes nothing |
| PhoneUtils.CleanIsDigitsWithoutPlus | src/lib/phone-utils.js:10-11 | without '+', cleaning is taking the digits |
| PhoneUtils.NormalizeTenDigits | src/lib/phone-utils.js:23-26 | ten digits (no '+') become "+1" followed by those digits |
| PhoneUtils.NormalizeElevenDigits | src/lib/phone-utils.js:18-26 | eleven digits starting with 1 become "+" followed by the eleven digits |
| PhoneUtils.NormalizeNoDigits | src/lib/phone-utils.js:33-36 | non-empty input without digits or '+' becomes "+" |
| PhoneUtils.FormatDisplay | src/lib/phone-utils.js:41-69 | `formatPhoneDisplay`: the display form of the normalised number; specified by `FormatDisplayCases`, `FormatDisplayTenDigits` and `ExampleDisplay` |
| PhoneUtils.Display | src/lib/phone-utils.js:41-69 | the formatting branches after normalisation; specified by `DisplayEleven` and `DisplayUsNumber` |
| PhoneUtils.FormatDisplayCases | src/lib/phone-utils.js:45-69 | the display differs from the normalised number exactly when its digits are 11 starting with 1, or 10; it is then the 14-character "(AAA) PPP-LLLL" over the last ten digits |
| PhoneUtils.DigitsOfAppend | src/lib/phone-utils.js:49 | digit extraction distributes over concatenation |
| PhoneUtils.FormatDisplayTenDigits | src/lib/phone-utils.js:45-65 | a ten-digit input is shown as "(AAA) PPP-LLLL" over its own digits |
| PhoneUtils.ExamplePunctuated | src/lib/phone-utils.js:2-4 | "(555) 123-4567" normalises to "+15551234567" |
| PhoneUtils.ExampleElevenDigits | src/lib/phone-utils.js:18-26 | "15551234567" normalises to "+15551234567" |
| PhoneUtils.ExampleNoDigits | src/lib/phone-utils.js:33-36 | "abc" normalises to "+" |
| PhoneUtils.E164Digits | src/lib/phone-utils.js:13-16 | "+15551234567" is a fixed point and has the digits "15551234567" |
| PhoneUtils.ExampleDisplay | src/lib/phone-utils.js:41-56 | "+15551234567" is displayed as "(555) 123-4567" |
| MessageEditor.CharCount | src/components/MessageEditor.jsx:14 | between the number of characters and twice that (in code units); exactly the number of characters for Basic Multilingual Plane text |
| MessageEditor.SegmentCount | src/components/MessageEditor.jsx:13 | at least 1; 1 for the empty template; otherwise the least k with length ≤ 160k |
| MessageEditor.SegmentBoundary | src/components/MessageEditor.jsx:13 | 160 characters take one segment; 161 take two |
| MessageEditor.SegmentCountMonotone | src/components/MessageEditor.jsx:13 | appending text never lowers the segment count |
| MessageEditor.InsertVariable | src/components/MessageEditor.jsx:10 | the old template is kept as the prefix, followed by " {{" + trimmed name + "}}" |
| MessageEditor.InsertVariableCharCount | src/components/MessageEditor.jsx:10-14 | inserting grows the character count by 5 plus the trimmed name's length |
| Interpolation.BraceFreePrefix | src/components/Dashboard.jsx:92 | the longest brace-free prefix: brace-free, and followed by a brace or by the end |
| Interpolation.GroupAt | src/components/Dashboard.jsx:92 | a found group is a brace-free interior with a '\|' that has a character on each side, and fits in the text |
| Interpolation.GroupAtIff | src/components/Dashboard.jsx:92 | the group with interior t is found at the front exactly when t is a valid interior (brace-free, with an inner '\|') and the text starts with "{" + t + "}" |
| Interpolation.Scan | src/components/Dashboard.jsx:92 | the left-to-right, non-overlapping scan of the variant regular expression; specified by `ScanRoundTrip`, `ScanVariantsBraceFree`, `ScanLiteralRun`, `ScanVariantGroup`, `NoPipeNoVariants` and `NestedScan` |
| Interpolation.ScanRoundTrip | src/components/Dashboard.jsx:92 | writing the scanned pieces back gives the template |
| Interpolation.ScanVariantsBraceFree | src/components/Dashboard.jsx:90-92 | every matched variant interior is brace-free, so no `{{key}}` lies inside a variant |
| Interpolation.Split | src/components/Dashboard.jsx:93 | at least one part; no part contains the separator; joining the parts gives the input |
| Interpolation.SplitNoSeparator | src/components/Dashboard.jsx:93 | text without the separator splits into itself |
| Interpolation.SplitAtSeparator | src/components/Dashboard.jsx:93 | splitting proceeds part by part at each separator |
| Interpolation.Variants | src/components/Dashboard.jsx:92-93 | every group offers at least one option |
| Interpolation.Pick | src/components/Dashboard.jsx:94 | the picked word is one of the options |
| Interpolation.PickIndex | src/components/Dashboard.jsx:94 | a draw below the number of options picks that option |
| Interpolation.PicksOf | src/components/Dashboard.jsx:92-95 | the draws select exactly one option per group |
| Interpolation.Resolve | src/components/Dashboard.jsx:92-95 | each group replaced by the option its draw selects; specified by `ResolveFills`, `FillReachable`, `ResolveAppend` and `ResolveNoVariants` |
| Interpolation.ResolveSpintax | src/components/Dashboard.jsx:92-95 | phase 1 of `interpolate`; specified by `SpintaxIdentity`, `ResolveLeadingGroup`, `ExampleVariantPick` and `NestedGroupInnerOnly` |
| Interpolation.ResolveFills | src/components/Dashboard.jsx:92-95 | phase 1 replaces each group by one of its own options and keeps every other character |
| Interpolation.DrawsFor | src/components/Dashboard.jsx:94 | one draw per group |
| Interpolation.FillReachable | src/components/Dashboard.jsx:94 | every combination of one option per group is produced by some draws |
| Interpolation.VariantsAppend | src/components/Dashboard.jsx:92 | the groups of joined pieces are the groups of each part |
| Interpolation.ResolveAppend | src/components/Dashboard.jsx:92 | resolution distributes over a split of the pieces |
| Interpolation.ResolveNoVariants | src/components/Dashboard.jsx:92 | without groups, phase 1 writes the template back whatever the draws |
| Interpolation.NoPipeNoVariants | src/components/Dashboard.jsx:92 | no '\|' means no group |
| Interpolation.SpintaxIdentity | src/components/Dashboard.jsx:92 | a template without '\|' leaves phase 1 unchanged, placeholders included |
| Interpolation.ScanLiteralRun | src/components/Dashboard.jsx:92 | text before the first '{' scans to literal characters |
| Interpolation.LitsOf | src/components/Dashboard.jsx:92 | literal pieces hold no group and write back to their text |
| Interpolation.ScanVariantGroup | src/components/Dashboard.jsx:92 | a group at the front scans to one variant piece |
| Interpolation.NestedNoGroup | src/components/Dashboard.jsx:92 | no group starts at an outer `{` whose brace-free run ends at another `{` |
| Interpolation.NestedScan | src/components/Dashboard.jsx:92 | a group nested in another scans as the outer `{` and text as literal characters, the inner group, and the outer `}` |
| Interpolation.NestedGroupInnerOnly | src/components/Dashboard.jsx:91-95 | the one pass resolves only the inner group of a nested pair; the outer braces and the outer text stay |
| Interpolation.Renderable | src/components/Dashboard.jsx:100-101 | the rows whose column names make `new RegExp` match `{{key}}` literally and whose cells hold no `$` replacement patterns; assumed by `SubstituteEveryOccurrence`, `OneColumnEveryOccurrence` and `InterpolateSingleCell`, and made concrete by `LetterKeyIsPlain` |
| Interpolation.FoldPrefix | src/components/Dashboard.jsx:100 | the `i` flag's match of the pattern at the front of the text; used by `ReplaceAllAtMatch`, `ReplaceAllSkip`, `ReplaceAllClear`, `Decompose` and `FoldPrefixSelf` |
| Interpolation.ReplaceAll | src/components/Dashboard.jsx:100-101 | `replace` with a global, case-insensitive literal pattern; specified by `ReplaceAllAbsent`, `ReplaceAllLiteralRun`, `ReplaceAllAtMatch`, `ReplaceAllSkip`, `ReplaceAllClear`, `ReplaceEvery` and `Decompose` |
| Interpolation.ReplaceAllAbsent | src/components/Dashboard.jsx:100-101 | a pattern that occurs nowhere (in any letter case) leaves the text unchanged |
| Interpolation.ReplaceAllLiteralRun | src/components/Dashboard.jsx:100-101 | text before the first '{' is copied as it is |
| Interpolation.ReplaceAllAtMatch | src/components/Dashboard.jsx:100-101 | a case-insensitive occurrence at the front is replaced and the scan resumes after it |
| Interpolation.Substitute | src/components/Dashboard.jsx:98-102 | phase 2, one `replace` per column in column order; specified by `SubstituteUntouched`, `SubstituteEveryOccurrence` and `OneColumnEveryOccurrence` |
| Interpolation.Interpolate | src/components/Dashboard.jsx:86-104 | phase 1, then phase 2 on its result; specified by `GreetingTemplate`, `InterpolateSingleCell`, `ExampleVariantAndName`, `ExampleValueNotSpun` and `ExampleUndefinedCell` |
| Interpolation.SubstituteUntouched | src/components/Dashboard.jsx:98-102 | if none of the row's placeholders occurs, phase 2 changes nothing, so placeholders of absent columns stay |
| Interpolation.LetterKeyIsPlain | src/components/Dashboard.jsx:100 | a column name made of ASCII letters is matched literally |
| Interpolation.ReplaceAllClear | src/components/Dashboard.jsx:100-101 | text inside which no case-insensitive occurrence starts is copied, and the replacement continues after it |
| Interpolation.ReplaceEvery | src/components/Dashboard.jsx:100-101 | for any split of a text into gaps and the occurrences the `/gi` scan finds, the replacement puts `rep` in place of every occurrence and keeps every gap |
| Interpolation.Decompose | src/components/Dashboard.jsx:100-101 | every text splits into the occurrences the left-to-right, non-overlapping `/gi` scan finds and the gaps between them |
| Interpolation.BraceFreeGaps | src/components/Dashboard.jsx:100-101 | when the gaps hold no `{`, every sequence of case-insensitive matches of `{{key}}` placed between them is exactly what the scan finds |
| Interpolation.SubstituteEveryOccurrence | src/components/Dashboard.jsx:98-102 | for any message, the first column replaces every scanned case-insensitive `{{key}}` by `value \|\| ''`, leaves the text between them as it was, and then the other columns run on the result |
| Interpolation.OneColumnEveryOccurrence | src/components/Dashboard.jsx:98-102 | for any message and a one-column row, phase 2 replaces every scanned case-insensitive `{{key}}` by `value \|\| ''` and changes nothing else |
| Interpolation.ResolveLeadingGroup | src/components/Dashboard.jsx:92-95 | a leading group followed by '\|'-free text resolves to the picked option followed by that text |
| Interpolation.ExampleVariantPick | src/components/Dashboard.jsx:92-95 | on "{Hi\|Hello} {{Name}}", phase 1 gives "Hi" or "Hello" followed by " {{Name}}" |
| Interpolation.ExampleNameFill | src/components/Dashboard.jsx:100-101 | phase 2 turns any brace-free word followed by " {{Name}}" into that word, a space and "Sam" |
| Interpolation.GreetingTemplate | src/components/Dashboard.jsx:86-104 | for any two brace-free, bar-free options a and c and a plain key set to a value v without "$", "{a\|c} {{key}}" renders as the drawn option (a on an even draw, c on an odd one), a space and v |
| Interpolation.ExampleVariantAndName | src/components/Dashboard.jsx:86-104 | "{Hi\|Hello} {{Name}}" with Name = Sam renders "Hi Sam" or "Hello Sam" |
| Interpolation.ExampleCaseInsensitive | src/components/Dashboard.jsx:100 | column "name" fills "{{NAME}}" |
| Interpolation.ExampleValueNotSpun | src/components/Dashboard.jsx:92-102 | a cell value that looks like spintax is inserted as written, since phase 1 runs first |
| Interpolation.ExampleUndefinedCell | src/components/Dashboard.jsx:101 | an undefined cell empties its placeholder |
| ForegroundSender.RoundSeconds | src/components/Dashboard.jsx:163 | `Math.round(ms / 1000)`: the nearest whole second, halves rounded up |
| ForegroundSender.PhoneKey | src/components/Dashboard.jsx:149 | the first column whose lower-cased name contains "phone" or "mobile"; none when no column qualifies |
| ForegroundSender.PhoneOf | src/components/Dashboard.jsx:149 | the recipient: the cell of `PhoneKey`'s column, or '' for every falsy value; used by `Phones` and `SweepReachesEveryRow` |
| ForegroundSender.Phones | src/components/Dashboard.jsx:149-150 | each row's recipient, as the loop looks it up |
| ForegroundSender.Bodies | src/components/Dashboard.jsx:146 | each row's message, rendered with its own draws |
| ForegroundSender.AllRowsSeen | src/components/Dashboard.jsx:145-150 | the recipient and message lists match every row |
| ForegroundSender.Visit | src/components/Dashboard.jsx:140-186 | one iteration of the loop body; specified by `VisitFacts` and `DriveStep`, and run by `HandleRow` |
| ForegroundSender.Drive | src/components/Dashboard.jsx:139-187 | the loop from row i; specified by `DriveStep`, `DriveEnd`, `DriveCounts`, `DriveTrace`, `EffectsSound` and `EffectsComplete`, and run by `SendRows` |
| ForegroundSender.Launch | src/components/Dashboard.jsx:122-137 | the run as the loop starts it, from the progress read when the handler was made; specified by `LaunchProgress` and `RestartAfterFullRun`, and run by `Begin` |
| ForegroundSender.Conclude | src/components/Dashboard.jsx:189-190 | the screen after the loop: idle, the end logged, counters as the loop left them; specified by `ConcludeBound` and `SweepBound`, and run by `End` |
| ForegroundSender.StartSpec | src/components/Dashboard.jsx:107-191 | `startSending`: unchanged when a guard returns, otherwise `Sweep`; run by `StartSending` |
| ForegroundSender.Sweep | src/components/Dashboard.jsx:107-191 | the run past the guards; specified by `SweepBound`, `SweepSends`, `SweepReachesEveryRow`, `RestartAfterFullRun` and `StaleProgressSendsNothing`, and run by `Campaign` |
| ForegroundSender.TestSpec | src/components/Dashboard.jsx:193-224 | `sendTestMessage`: unchanged when a guard returns, otherwise `TestRun`; specified by `TestNeutral`, and run by `SendTestMessage` |
| ForegroundSender.TestRun | src/components/Dashboard.jsx:193-224 | one test message rendered with the first row, and its log lines; specified by `TestNeutral`, and run by `TestOnce` |
| ForegroundSender.VisitFacts | src/components/Dashboard.jsx:140-186 | one iteration: it breaks exactly on a stop at the top, or a stop after the pause of a row with a phone, and otherwise counts the row once; `sent` rises only for a delivered call; the trace gains exactly the row's effects; logs are only added in front |
| ForegroundSender.DriveStep | src/components/Dashboard.jsx:139-187 | the loop is one iteration followed by the loop from the next row, unless that iteration broke |
| ForegroundSender.DriveEnd | src/components/Dashboard.jsx:139-187 | the loop ends at the first row that halts it, or after the last row; it broke exactly when it ended early |
| ForegroundSender.DriveCounts | src/components/Dashboard.jsx:139-187 | every finished row is counted once: `sent` by the delivered rows; `sent + failed` by the number of rows finished |
| ForegroundSender.DriveTrace | src/components/Dashboard.jsx:158-173 | the pauses and provider calls are exactly those of `Effects`, and logs are only added in front |
| ForegroundSender.EffectsSound | src/components/Dashboard.jsx:149-173 | every effect belongs to one visited row: a call goes to that row's recipient with its message; a pause has that row's delay and comes only after the first row |
| ForegroundSender.EffectsComplete | src/components/Dashboard.jsx:152-173 | every row that has a phone and is before the end is called with its recipient and message |
| ForegroundSender.SweepBound | src/components/Dashboard.jsx:126-187 | a run keeps the rows and template, and `sent + failed` stays within the number of rows |
| ForegroundSender.SweepSends | src/components/Dashboard.jsx:137-173 | a run only appends to the trace; calls go only to rows from `sent + failed` on that have a phone, with that row's rendered message; pauses are 45-90 s and only after the first row of the run |
| ForegroundSender.SweepReachesEveryRow | src/components/Dashboard.jsx:139-187 | the run stops exactly when some row from the start index on saw Stop; a run that did not stop called every such row that has a phone |
| ForegroundSender.RestartAfterFullRun | src/components/Dashboard.jsx:126-137 | starting after a completed run clears counters and log, but sends nothing, since the start index was read before the reset |
| ForegroundSender.StaleProgressSendsNothing | src/components/Dashboard.jsx:137-139 | with more progress than rows, a start only logs its begin and end |
| ForegroundSender.TestNeutral | src/components/Dashboard.jsx:193-224 | the test message leaves the counters, rows, template and flags alone, only adds logs in front, and calls the provider once, unless a guard returns |
| ForegroundSender.Dashboard.constructor | src/components/Dashboard.jsx:12-34 | the initial state: no rows, empty template and test phone, zero progress, empty log, all flags false |
| ForegroundSender.Dashboard.LoadRows | src/components/Dashboard.jsx:12 | replaces the rows and nothing else |
| ForegroundSender.Dashboard.SetTemplate | src/components/Dashboard.jsx:13 | replaces the template and nothing else |
| ForegroundSender.Dashboard.SetTestPhone | src/components/Dashboard.jsx:31 | replaces the test phone and nothing else |
| ForegroundSender.Dashboard.AddLog | src/components/Dashboard.jsx:80-83 | the new entry goes first, and nothing else changes |
| ForegroundSender.Dashboard.StopSending | src/components/Dashboard.jsx:226-228 | sets the stop flag and nothing else |
| ForegroundSender.Dashboard.Reset | src/components/Dashboard.jsx:418-423 | clears progress, log, rows and template, and nothing else |
| ForegroundSender.Dashboard.RecordOutcome | src/components/Dashboard.jsx:175-186 | a delivery counts as sent; a rejection or an exception counts as failed; one log entry is added |
| ForegroundSender.Dashboard.HandleRow | src/components/Dashboard.jsx:140-186 | performs exactly one iteration `Visit` on the row's recipient and message |
| ForegroundSender.Dashboard.SendRows | src/components/Dashboard.jsx:139-187 | the loop from the start index ends where `Drive` ends, in its state |
| ForegroundSender.Dashboard.StartSending | src/components/Dashboard.jsx:107-191 | the new screen is `StartSpec`: unchanged when a guard returns, otherwise the run `Sweep` |
| ForegroundSender.Dashboard.Campaign | src/components/Dashboard.jsx:122-190 | the reset, loop and final log together give `Sweep` |
| ForegroundSender.Dashboard.Begin | src/components/Dashboard.jsx:122-132 | busy, stop cleared, a completed run reset, the start logged |
| ForegroundSender.Dashboard.End | src/components/Dashboard.jsx:189-190 | idle, the end logged, the counters kept |
| ForegroundSender.Dashboard.SendTestMessage | src/components/Dashboard.jsx:193-224 | the new screen is `TestSpec`: unchanged when a guard returns, otherwise one test send and its log lines |
| ForegroundSender.Dashboard.TestOnce | src/components/Dashboard.jsx:203-223 | one call to the test phone with the first row's rendering, and the matching log lines |
| CampaignStore.Queue | api/worker.js:33-37 | the positions of exactly the campaign's pending messages, in increasing store order |
| CampaignStore.CountSplit | api/init-db.js:26-31 | a campaign's messages are its pending ones plus its settled ones |
| CampaignStore.AppendCounts | api/create-campaign.js:32-35 | an inserted row adds one to its campaign's count, and counts as settled only if it is not pending |
| CampaignStore.SettleCounts | api/worker.js:53-64 | settling a pending message keeps the count and moves one message from the queue to the settled ones |
| CampaignStore.CountersWithinTotal | api/init-db.js:16-18 | in a valid store, `sent_count + failed_count <= total_messages` |
| CampaignStore.WithStatus | api/worker.js:27 | changes only the status of campaign k |
| CampaignStore.CountSent | api/worker.js:58 | adds one to campaign k's `sent_count` and changes nothing else |
| CampaignStore.CountFailed | api/worker.js:65 | adds one to campaign k's `failed_count` and changes nothing else |
| CampaignStore.MarkSent | api/worker.js:53-57 | message m becomes sent, with `sent_at` and the provider's id; no other row changes |
| CampaignStore.MarkFailed | api/worker.js:60-64 | message m becomes failed, with the error text; no other row changes |
| CampaignStore.AddCampaign | api/create-campaign.js:18-22 | appends one campaign row |
| CampaignStore.AddMessage | api/create-campaign.js:32-35 | appends one message row |
| CampaignStore.StatusKeepsValid | api/worker.js:27 | a status change keeps the store valid |
| CampaignStore.SettleKeepsValid | api/worker.js:53-64 | settling a pending message under a fresh or unchanged key keeps the store valid, and leaves room for one more counter increment |
| CampaignStore.SettleKeepsKeys | api/init-db.js:27 | under a fresh or unchanged key, message ids stay unique |
| CampaignStore.BumpKeepsValid | api/worker.js:58-65 | with room left, one counter increment keeps the store valid |
| CampaignStore.Database.constructor | api/init-db.js:8-36 | the tables start empty, which is a valid store |
| CampaignStore.Database.SetStatus | api/worker.js:27 | the store becomes `WithStatus` of the old store |
| CampaignStore.Database.BumpSent | api/worker.js:58 | the store becomes `CountSent` of the old store |
| CampaignStore.Database.BumpFailed | api/worker.js:65 | the store becomes `CountFailed` of the old store |
| CampaignStore.Database.SetSent | api/worker.js:53-57 | the store becomes `MarkSent` of the old store |
| CampaignStore.Database.SetFailed | api/worker.js:60-64 | the store becomes `MarkFailed` of the old store |
| CampaignStore.Database.InsertCampaign | api/create-campaign.js:18-22 | the store becomes `AddCampaign` of the old store |
| CampaignStore.Database.InsertMessage | api/create-campaign.js:32-35 | the store becomes `AddMessage` of the old store |
| BatchWorker.Batch | api/worker.js:33-38 | the first min(5, pending) of the campaign's pending messages |
| BatchWorker.Eligible | api/worker.js:14-15 | the campaign query's condition: 'pending' or 'sending', and scheduled at or before now; `Work` picks only such a campaign, and `StepShrinks` and `OnlyDueCampaign` say when it stays so |
| BatchWorker.Opened | api/worker.js:26-28 | the 'pending' to 'sending' UPDATE: only the picked campaign's status changes, and the messages are untouched; used by `StatusPreservesQueue` and `SendingBeforeMessages` |
| BatchWorker.Settle | api/worker.js:52-64 | an accepted message becomes sent with the provider's id and `sent_at` set to now, and keeps its error; a refused one becomes failed with the provider's error, and keeps its id and `sent_at`; phone, content and campaign are kept |
| BatchWorker.BatchFacts | api/worker.js:33-38 | at most 5 distinct in-range positions, each a pending message of the campaign |
| BatchWorker.Deliver | api/worker.js:52-66 | one message's provider reply and its two UPDATEs, which fail on a taken id or when the writes run out; specified by `DeliverFacts` and `DeliverKeepsValid`, and run by `SendOne` |
| BatchWorker.Process | api/worker.js:49-72 | the loop over the batch from message j, with the report so far; specified by `ProcessShape`, `ProcessReport`, `ProcessKeepsValid`, `ProcessDrains`, `AbortPrefix` and `RunsThrough`, and run by `SendBatch` |
| BatchWorker.StepAt | api/worker.js:23-77 | `handler` after selection; specified by `StepKeepsValid`, `StepWithinTotal`, `StepCampaignFrame`, `StepMessageFrame`, `SettledIsFinal`, `SendingBeforeMessages`, `CompletesOnlyWhenEmpty`, `ProcessedCounts`, `ProcessedReport`, `AbortKeepsWrites`, `StepShrinks` and `StepIds`, and run by `Serve` |
| BatchWorker.DeliverFacts | api/worker.js:52-66 | one message's two writes: both land exactly when two writes remain and the provider's id is not another row's key; the message is settled or untouched; only campaign k's matching counter rises |
| BatchWorker.DeliverKeepsValid | api/worker.js:52-66 | settling one pending message of the campaign keeps the store valid |
| BatchWorker.ProcessShape | api/worker.js:49-72 | the loop changes only the campaign's counters and a settled prefix of the batch; counters never fall; a full pass settles the whole batch, raises `sent_count` by the acceptances and the two counters together by the batch size |
| BatchWorker.ProcessReport | api/worker.js:68 | a full pass reports one entry per message, in batch order, with its phone and success |
| BatchWorker.ProcessKeepsValid | api/worker.js:49-72 | the loop keeps the store valid |
| BatchWorker.ProcessDrains | api/worker.js:49-72 | a full pass shrinks the queue by the batch size and keeps the message count |
| BatchWorker.StepCampaignFrame | api/worker.js:23-66 | a step changes only the picked campaign's status and counters |
| BatchWorker.StepMessageFrame | api/worker.js:33-72 | a step touches at most the 5 batch messages, all pending and of this campaign, each left alone or settled by its own reply |
| BatchWorker.SettledIsFinal | api/worker.js:33-38 | a sent or failed message is never written again |
| BatchWorker.StatusPreservesQueue | api/worker.js:26-28 | the status update does not change the messages |
| BatchWorker.SendingBeforeMessages | api/worker.js:25-28 | messages change only once the campaign is 'sending'; an invocation that does not fail leaves the picked campaign out of 'pending' |
| BatchWorker.CompletesOnlyWhenEmpty | api/worker.js:40-44 | "completed" is answered exactly when no message is pending and the writes succeed; only the status then changes |
| BatchWorker.ProcessedCounts | api/worker.js:49-72 | a processed batch has 1 to 5 messages; `sent_count` rises by the acceptances and the two counters together by the batch size |
| BatchWorker.ProcessedReport | api/worker.js:68-77 | the report lists the batch in order; each message is settled by its own reply |
| BatchWorker.AbortKeepsWrites | api/worker.js:78-81 | on a 500, a prefix of the batch stays settled (no rollback), and the counters rose by at most that prefix |
| BatchWorker.AbortPrefix | api/worker.js:49-81 | the loop from any message on leaves a settled prefix, with the counters bounded by it |
| BatchWorker.StepKeepsValid | api/worker.js:4-82 | every invocation keeps the store valid |
| BatchWorker.StepWithinTotal | api/worker.js:58-65 | after any invocation, every campaign has `sent_count + failed_count <= total_messages` |
| BatchWorker.StepShrinks | api/worker.js:11-72 | with ample writes and provider ids that no message holds and that no other reply of the call repeats, for any mix of successes and failures, a due campaign completes exactly when its queue is empty; otherwise the call reports min(5, n) messages with each success as its reply says, raises `sent_count` by the successes and the two counters together by the batch, takes the batch off the queue, and leaves the campaign due and 'sending' |
| BatchWorker.RunsThrough | api/worker.js:49-72 | with two writes per remaining message and provider ids that no message holds and that no other reply of the call repeats, the loop reaches the end of the batch |
| BatchWorker.StepIds | api/worker.js:53-57 | after a call, every message has its old id or an id the provider returned in that call |
| BatchWorker.BatchPlanShape | api/worker.js:37 | ceil(n/5) batches; all of them full except the last; together they take all n |
| BatchWorker.TwelveInThreeBatches | api/worker.js:37 | 12 messages go as 5, 5 and 2 |
| BatchWorker.DrainFollowsPlan | api/worker.js:11-72 | given ceil(n/5)+1 calls whose provider ids no message holds and no other reply of any of the calls repeats, and writes that do not fail, repeated invocations (`StepAt` on k) on a due campaign with n pending messages process the batches of `BatchPlan(n)`, then answer "completed" |
| BatchWorker.OnlyDueCampaign | api/worker.js:11-17 | when k is the only due campaign, the query can return only k (so `Work` picks k), and after a call on k no other campaign has become due; with `DrainFollowsPlan`, this makes the drain the run of successive `Work` calls |
| BatchWorker.Work | api/worker.js:4-82 | a failing connect or campaign SELECT answers 500 and changes nothing; otherwise no eligible campaign means "no active" and no change; otherwise it picks an eligible campaign and the result is `StepAt` on it |
| BatchWorker.Serve | api/worker.js:23-81 | the result is `StepAt` for the picked campaign |
| BatchWorker.SendBatch | api/worker.js:49-77 | the loop's result is `Process` over the batch |
| BatchWorker.SendOne | api/worker.js:50-66 | one message's writes are `Deliver` |
| CampaignCreation.NewCampaign | api/create-campaign.js:18-22 | the campaign row: the given fields, 'pending', zero counters, the number of entries as total, and the supplied time or now |
| CampaignCreation.NewMessage | api/create-campaign.js:32-35 | the message row: its campaign, phone and content, 'pending', no error, not sent |
| CampaignCreation.Rows | api/create-campaign.js:31-36 | one row per entry, in entry order |
| CampaignCreation.Insert | api/create-campaign.js:31-36 | the insertion loop from entry j; specified by `InsertShape` and `InsertKeepsValid`, and run by `InsertAll` |
| CampaignCreation.CreateSpec | api/create-campaign.js:3-46 | `handler`; specified by `RejectsOtherVerbs`, `RejectsNoMessages`, `CreatedShape`, `FailureKeepsPrefix` and `CreateKeepsValid`, and run by `Create` |
| CampaignCreation.RejectsOtherVerbs | api/create-campaign.js:4-6 | anything but POST gets 405 and writes nothing |
| CampaignCreation.RejectsNoMessages | api/create-campaign.js:10-12 | missing or empty `messages` gets 400 and writes nothing |
| CampaignCreation.InsertShape | api/create-campaign.js:31-36 | the loop appends the rows of a prefix of the entries; it succeeds exactly when every entry is complete and there are enough writes |
| CampaignCreation.CreatedShape | api/create-campaign.js:3-46 | the response is 200 exactly when the verb, messages, NOT NULL fields and writes allow; it then returns the id, with exactly one campaign row and one row per entry in order |
| CampaignCreation.FailureKeepsPrefix | api/create-campaign.js:31-45 | a failure after the campaign insert leaves the campaign and the rows of a strict prefix of the entries |
| CampaignCreation.AddCampaignKeepsValid | api/create-campaign.js:18-22 | a new campaign with a fresh key keeps the store valid |
| CampaignCreation.AddMessageKeepsValid | api/create-campaign.js:32-35 | a new pending message with a fresh key, below its campaign's total, keeps the store valid |
| CampaignCreation.InsertKeepsValid | api/create-campaign.js:31-36 | the insertion loop keeps the store valid |
| CampaignCreation.CreateKeepsValid | api/create-campaign.js:3-46 | with fresh keys, creating a campaign keeps the store valid on every path |
| CampaignCreation.Create | api/create-campaign.js:3-46 | the response and new store are `CreateSpec` |
| CampaignCreation.InsertAll | api/create-campaign.js:31-36 | the loop's result is `Insert` |

## Behaviour as written

These behaviours of the code are easy to miss:

- The phone cleaner keeps every '+', not only a leading one (src/lib/phone-utils.js:11), although the comment on the line above says "except leading +" (src/lib/phone-utils.js:10).
- The worker answers "completed" only on an invocation that finds no pending message. The invocation that sends the last batch leaves the campaign 'sending' (api/worker.js:40-44).
- The pending-message query has no `ORDER BY` (api/worker.js:33-38). The model takes the first five in store order, which is one of the orders the database may use.
- The worker sends the stored `content` unchanged. Nothing is rendered at send time.
- The worker sleeps after the last message of a batch too (api/worker.js:71). The sleep itself is not modelled.
- A variant group cannot contain a `{{key}}`, because the regular expression excludes braces inside a group (src/components/Dashboard.jsx:92).
- The variant pass is one `replace` over the template, not a loop, although the comment says it handles "nested/multiple spintax blocks" (src/components/Dashboard.jsx:91). Several groups side by side are all resolved, but in a nested group only the innermost one is, and the outer braces stay in the text.
- Starting again after a completed run resets the counters and log. It then sends nothing, because the start index comes from the old progress (`RestartAfterFullRun`).
- If a shorter file replaces the rows after partial progress, a start sends nothing (`StaleProgressSendsNothing`).

## Left out

- The UUID column type. `id = result.id` stores provider ids such as "mock-…" in a UUID column, which Postgres would refuse. The model treats ids as strings and makes only a duplicate key fail.
- `gen_random_uuid()`, `new Date()` and `CURRENT_TIMESTAMP` are parameters. `sent_at` is the step's single `now`.
- Concurrency: two worker invocations at once, and React's asynchronous state updates beyond the stale progress read.
- The stop flag is modelled as the value the loop reads at each of its two checks. The model allows a Stop at every check, including checks the JavaScript cannot see change: the first row's top check runs right after `stopRef.current = false` with no await between, and a row skipped for a missing phone does not await either. The modelled behaviours are therefore a superset of the real ones, so the safety properties still hold for the code.
- `Conclude` stores the last flag read in the state's `stop` field, while the code leaves `stopRef` as it was. The two cannot be told apart, because the next start clears the flag before reading it.
- ForegroundSender.RunFits asks every row to be renderable and to have a draw in range, including rows before the start index, which the loop never renders. The sender model renders all rows up front (`Bodies`), so the condition covers rows that the code never touches.
- The SMS providers (`src/lib/sms-providers.js`, `api/_lib/sms-providers.js`) are oracles. The dashboard's provider choice, and the provider type in the start log line, are not modelled.
- The worker's provider can throw. The Twilio and TextBee adapters read `config.accountSid` and `config.apiKey` outside their `try` (api/_lib/sms-providers.js:21, 58), and `providerConfig: null` is stored as the JSON text `null` (api/create-campaign.js:20), so `campaign.provider_config` can be JSON null. A Twilio success without `sid` writes a NULL key (api/worker.js:55), which the UPDATE refuses. Both end the call in the catch block with a 500 and keep the earlier writes (api/worker.js:78-81). A throw before message j's writes leaves the same store as running out of successful writes at message j, so the `okWrites` oracle covers it.
- CSV parsing (papaparse), the upload component, `localStorage`, the progress bar's percentage and the rest of the rendering are not modelled.
- `alert` and `confirm` are not modelled. The answer to the over-500 dialog is the parameter `confirmed`.
- `Math.random()` is modelled as draws. A variant index is the draw modulo the number of options, and a delay is any value in 45000-90000 ms.
- Time stamps of log entries, and the 2000 ms sleep of the worker, are not modelled.
- `toLowerCase` and the `i` flag are modelled for ASCII only; other case folding is left out.
- Interpolation.Renderable: the model renders only rows whose column names have no regular-expression syntax and whose values contain no '$'. Other names change the pattern, or, when the syntax is unbalanced (a name such as `a(`), make `new RegExp` throw (Dashboard.jsx:100). That call sits outside the loop's `try` (Dashboard.jsx:146, 158), so `startSending` rejects and `isSending` stays true. Other values trigger `replace`'s `$` substitutions.
- Interpolation.Row: a row is a sequence of pairs, so it could repeat a column name, which `Object.entries` never does. Integer-like names, which `Object.entries` would list first, are excluded by `QuantifierShaped`, so column order is key order for every row the model renders.
- The message SELECT (api/worker.js:33-38) is not modelled as a read that can fail. When it throws, the invocation ends with a 500 after the status UPDATE, if any, and before any message write, which is the same store and reply as the next write failing. A failing `db.connect()` or campaign SELECT (api/worker.js:9-17) is `Work`'s `readsOk` parameter.
- BatchWorker.DrainFollowsPlan: stated for writes that do not fail and for provider ids that no message holds and no other reply repeats. A repeated id makes its UPDATE fail; `StepAt` models that abort, but the drain lemma does not cover runs that contain it.
- The request body is assumed present. A `scheduledAt` that is falsy is `None`.
- The `paused` status is never set by any modelled code.
- The console logging in the catch blocks is not modelled.
