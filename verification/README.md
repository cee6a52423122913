# MVP voting: a verified model

The application is a small voting system for an "MVP" award:

- Members are registered, edited, deleted, or imported one name per line.
- Voters spread at most 100 points over the members on a ballot.
- Each stored ballot produces denormalised audit-log entries.
- The results endpoint ranks members by total points and shows the top three.
- A lucky draw samples winners without replacement and keeps a history.
- An admin password guards the configuration pages. A four-digit client-side gate, a verify endpoint and a reset endpoint make up that guard.

The same logic runs in three places:

- an Express server over JSON files (`server/`);
- serverless handlers over a key-value store (`api/`);
- the browser pages and their storage layer (`src/`).

The model follows that split, one Dafny module per concern:

- model.dfy (`Model`): the entities (member, ballot, log entry, draw entry), `photo || null`, the last-100-newest-first view
- registry.dfy (`Registry`): find, update-first-match, delete-all-matches, the client's rewrite-all-matches
- votelog.dfy (`VoteLog`): the log entries a ballot derives, the per-ballot view
- aggregation.dfy (`Aggregation`): the accumulator loops, the in-place stable sort on an array, the top-three cut
- server.dfy (`ExpressServer`): the Express routes as a class over three stores
- files.dfy (`Files`): the `/tmp` path mapping, `readJSON` default, `writeJSON` flag
- kv.dfy (`Kv`): the key-value store as a class, the HTTP reply
- api_*.dfy (`MembersApi`, `VotesApi`, `VoteLogsApi`, `ResultsApi`, `LuckyDrawLogsApi`, `AdminPasswordApi`, `VerifyApi`): the serverless handlers, dispatch on the method included
- storage.dfy (`Storage`): the browser's storage layer: fallbacks on failed reads, rethrow on failed writes
- ballot.dfy (`Ballot`): the voting form: clamping, auto-reduction to the budget, submission guards
- luckydraw.dfy (`LuckyDraw`): the pick-then-splice loop, the stepper, the history entry
- gate.dfy (`Gate`): the password gate component as a state machine
- text.dfy (`Text`): `trim`, `split`, `join`, `toLowerCase`, `includes`, number rendering
- i18n.dfy, language.dfy (`I18n`, `Language`): the dotted-key lookup with its fallback to the key, the shipped Thai and English tables, the stored language
- forms.dfy (`MemberForms`): the add/edit/delete/import handlers of the Config page and the Import page
- password_reset.dfy (`PasswordReset`): the Config page's password reset form

Some inputs are parameters rather than computed:

- Clocks (`Date.now()`, ISO timestamps) are parameters.
- Random indexes are a sequence of picks, each within the pool size at that step.
- The outcome of every store write and every request is a parameter.
- Which call of a loop fails is a parameter.

The reset form's handler takes the translation table as a parameter. Its lemmas hold for any table without a `config` section under the language, and `Language.NoConfigSection` shows that the shipped table is one.

Stores are fields of classes (`ExpressServer.Server`, `Kv.Store`), and the page components are classes whose methods change their state fields. The results handler under `api/` reads its own files under `/tmp`, not the key-value store, and is modelled over its own inputs.

## Model

| member | source | states |
|---|---|---|
| Model.NullIfFalsy | server/server.js:70 | a truthy photo is stored as it is; a missing or empty one becomes null |
| Model.ReverseAt | server/server.js:175 | the i-th element of a reversal is the i-th from the end |
| Model.RecentAt | server/server.js:175 | the log view holds min(100, n) entries and its i-th entry is the i-th newest stored one |
| Model.RecentSmall | api/vote-logs.js:18 | with at most 100 stored entries the view is exactly the store reversed |
| Registry.FindIndex | server/server.js:84 | the first position holding the id, none before it; None (the -1) exactly when no member has the id |
| Registry.MemberName | server/server.js:149-150 | the name of the first member with the id, or 'Unknown' when there is none |
| Registry.UpdateFirst | server/server.js:83-91 | None (404) exactly when the id is unknown; otherwise only the first match changes, keeping its id and taking the name and `photo \|\| null`, and every other position is untouched |
| Registry.RemoveAll | server/server.js:102 | the filtered list is never longer than the list |
| Registry.RemoveAllMembers | server/server.js:102 | what stays is exactly the members whose id differs |
| Registry.RemoveAllAppend | server/server.js:102 | filtering works piecewise over a concatenation, so the survivors keep their order |
| Registry.RemoveAllAbsent | server/server.js:101-104 | deleting an id nobody has leaves the list unchanged |
| Registry.RemoveAllIdempotent | server/server.js:102 | deleting the same id twice is deleting it once |
| Registry.ReplaceAll | src/pages/Import.jsx:119-123 | every member with the id takes the name and photo and keeps its id; all other members are unchanged; the length is kept |
| Registry.UpdateFirstIsReplaceAll | src/pages/Import.jsx:115-123 | with distinct ids and a present id, the server's update of the first match equals the page's rewrite of every match, given the photo the server stores |
| VoteLog.Positive | server/server.js:146-148 | exactly the score entries with a positive value |
| VoteLog.PositiveSingle | server/server.js:147-148 | one key is kept exactly when its score is positive |
| VoteLog.PositiveAppend | server/server.js:146-148 | the filter works piecewise over a concatenation, so kept entries keep their key order and multiplicity |
| VoteLog.DeriveLogsAt | server/server.js:146-160 | a ballot derives one entry per positive score, in key order |
| VoteLog.DeriveLogsStep | server/server.js:146-160 | one more score key adds that key's entry exactly when its score is positive |
| VoteLog.AppendLogs | server/server.js:146-160 | the loop leaves the old log followed by the derived entries |
| VoteLog.DeriveLogsFields | server/server.js:149-158 | each derived entry carries the ballot's id, voter and timestamp, a positive score the ballot gave that id, and the registry name or 'Unknown' |
| VoteLog.LogsOfVoteMembers | server/server.js:187 | the per-ballot view holds exactly the stored entries with that ballot id |
| VoteLog.LogsOfVoteAppend | server/server.js:187 | the view of a concatenation is the concatenation of the views, so stored order is kept |
| VoteLog.LogsOfVoteNone | server/server.js:187 | a ballot id no entry carries has an empty view |
| VoteLog.LogsOfVoteAll | server/server.js:187 | a log of one ballot is its own view |
| VoteLog.LogsOfNewVote | server/server.js:143-162 | after a submission under a fresh id, that ballot's view is exactly the entries it derived, in key order |
| Aggregation.Rows | server/server.js:215-218 | one row per registered member in registry order, whose total is that member's points over all ballots |
| Aggregation.Insert | server/server.js:221 | one insertion step adds exactly the new row |
| Aggregation.SortDesc | server/server.js:221 | the sorted order is a permutation of the rows |
| Aggregation.InsertAt | server/server.js:221 | one pass of the in-place sort on the array inserts the next row into the sorted prefix |
| Aggregation.SortByTotalDesc | server/server.js:221 | the in-place sort leaves the array holding the stable descending order of its old contents |
| Aggregation.AddBallot | server/server.js:209-211 | after one ballot's loop every id reads its old value plus that ballot's points |
| Aggregation.Tally | server/server.js:203-212 | after both loops every id reads its total over all ballots (0 when never scored) |
| Aggregation.CalculateResults | server/server.js:203-227 | the handler's body computes exactly the leaderboard |
| Aggregation.InsertSorted | server/server.js:221 | inserting into a non-increasing sequence keeps it non-increasing |
| Aggregation.SortDescSorted | server/server.js:221 | the sorted rows are non-increasing by total |
| Aggregation.InsertKeepsTies | server/server.js:221 | an insertion keeps the relative order of rows of equal total |
| Aggregation.SortDescStable | server/server.js:221 | for every total, the rows with that total appear in their original order |
| Aggregation.LeaderboardShape | server/server.js:222-227 | `results` holds min(3, number of members) rows and `totalVotes` is the number of ballots |
| Aggregation.RankingIsRegistry | server/server.js:203-218 | the ranking is a permutation of the registry's rows; every row is a registered member with its true total, so unregistered ids never yield a row |
| Aggregation.RankingOrder | server/server.js:221-222 | the ranking is non-increasing, ties stay in registry order, and the shown rows are its prefix |
| Aggregation.PrefixIsTop | server/server.js:222 | in a non-increasing sequence nothing left out of a prefix beats a kept row |
| Aggregation.LeaderboardIsTop | server/server.js:221-222 | no registered member left out of the top three has a higher total than any shown row |
| Aggregation.LeaderboardEmpty | api/results.js:17-42 | with no ballots every shown row has total 0 and `totalVotes` is 0; with no members `results` is empty |
| Aggregation.TotalForAppend | server/server.js:208-212 | totals add up over a split of the ballots |
| Aggregation.RowsConservePoints | server/server.js:203-218 | with distinct ids the rows' totals sum to exactly the points the ballots gave to registered ids |
| Aggregation.SortDescSum | server/server.js:221 | sorting keeps the sum of totals |
| Aggregation.RankingConservesPoints | server/server.js:203-221 | with distinct ids the ranking conserves the points given to registered members |
| ExpressServer.Server.constructor | server/server.js:19-22 | the three stores start as given |
| ExpressServer.Server.AddMember | server/server.js:66-76 | the member is appended with `photo \|\| null` when the write succeeds (no validation, no duplicate check); the other stores are untouched; the reply carries the id |
| ExpressServer.Server.UpdateMember | server/server.js:79-95 | 404 exactly when the id is unknown; otherwise the registry becomes the first-match update when the write succeeds; other stores untouched |
| ExpressServer.Server.DeleteMember | server/server.js:98-108 | the registry becomes the filtered list when the write succeeds; success even for an absent id |
| ExpressServer.Server.SubmitVote | server/server.js:123-168 | exactly one ballot is appended verbatim (no budget re-check) and the log grows by the derived entries, each under its own write flag; the registry is untouched; the reply is the new id |
| ExpressServer.Server.RecentLogs | server/server.js:171-180 | at most 100 entries, the i-th being the i-th newest stored one |
| ExpressServer.Server.LogsOf | server/server.js:183-192 | exactly the stored entries of that ballot, in stored order |
| ExpressServer.Server.Results | server/server.js:197-231 | the reply is the leaderboard of the stored registry and ballots |
| ExpressServer.Server.ResetVotes | server/server.js:234-242 | ballots and log are each emptied when their write succeeds; the registry is untouched |
| Files.TmpPath | server/utils.js:13 | the mapped path always starts with `/tmp` |
| Files.TmpPathCases | server/utils.js:29 | a `/tmp` path is unchanged, any other gets exactly `/tmp` in front, and mapping is idempotent |
| Files.ReadJSON | server/utils.js:10-24 | the stored value, or the default when the file is absent or reading throws |
| Files.WriteJSON | server/utils.js:26-43 | true exactly when the write succeeds, with the file then holding the data and every other file unchanged; false leaves the disk as it was |
| Files.ReadAfterWrite | server/utils.js:13-37 | a successful write is read back under its own or its `/tmp` name, and other files read as before |
| Kv.Store.constructor | server/kv-utils.js:41-51 | the five stored values start as given |
| AdminPasswordApi.StatusOf | api/admin-password.js:20-25 | `exists` exactly when a truthy password is stored, `isDefault` exactly when it is '0909' |
| AdminPasswordApi.ResetOutcome | api/admin-password.js:39-70 | 200 exactly when the new password is present and at least 4 long and a supplied current password matches; 400 exactly when the new password is missing or shorter than 4; 401 exactly when it passed but a supplied current password differs from the stored one |
| AdminPasswordApi.Handle | api/admin-password.js:10-79 | the dispatch: OPTIONS and GET change nothing; POST and PUT reply with the reset outcome, and store the new password exactly when the outcome is 200 and the write succeeds; a failed write is not reported; other methods get 405; no other store changes |
| AdminPasswordApi.FailedWriteStillSucceeds | api/admin-password.js:66-70 | an accepted reset whose write fails still answers 200 "Password updated successfully", and the old password stays |
| AdminPasswordApi.ResetWithoutCurrent | api/admin-password.js:62-67 | omitting the current password (or sending it empty) resets with any new password of 4 or more characters |
| LuckyDrawLogsApi.EffectiveCount | api/lucky-draw-logs.js:45 | an absent or zero count is replaced by the number of winners |
| LuckyDrawLogsApi.Handle | api/lucky-draw-logs.js:10-64 | GET answers the newest-first view; a POST without drawId, timestamp or an array of winners gets 400 and stores nothing; a valid one is appended when the write succeeds (200 with the same id) and gets 500 otherwise; other methods 405 |
| MembersApi.Handle | api/members.js:10-56 | POST without id or name gets 400 and changes nothing; a valid one is appended with `photo \|\| null` and no duplicate check, 500 when the write fails; other methods 405 |
| ResultsApi.Handle | api/results.js:10-42 | OPTIONS gets an empty 200; anything else gets the leaderboard of the two files, each read as empty when missing or unreadable |
| ResultsApi.NoFilesNoBoard | api/results.js:14-18 | with no files the board is empty and counts no ballots |
| VerifyApi.Verify | api/admin-password/verify.js:10-36 | 400 for a missing or empty password; otherwise `valid` exactly when it equals the stored one; other methods 405 |
| VerifyApi.VerifyRevealsOnlyMatch | api/admin-password/verify.js:22-28 | two stores that agree on whether the password matches give identical replies, so the reply does not carry the password |
| VoteLogsApi.Handle | api/vote-logs.js:10-20 | at most 100 entries, no more than stored, the i-th being the i-th newest; reading changes nothing |
| VoteLogsApi.HandleSize | api/vote-logs.js:18 | with at most 100 entries the reply is the log reversed, with more it has exactly 100 |
| VotesApi.Handle | api/votes.js:10-86 | POST without voter name or scores gets 400 and writes nothing; a failed ballot write gets 500 and leaves the log untouched; otherwise one ballot is appended verbatim and the derived entries follow the old log; DELETE empties both; other methods 405 |
| Ballot.Set | src/pages/Voting.jsx:42 | the changed key reads the new value and every other key reads as before |
| Ballot.SumSet | src/pages/Voting.jsx:43 | the new total is the old total minus the old value at the key plus the new value |
| Ballot.SetKeys | src/pages/Voting.jsx:42 | the spread adds no key but the changed one, keeps keys distinct and keeps values within [0, 100] |
| Ballot.Clamp | src/pages/Voting.jsx:41 | the value lies in [0, 100]; a value in range is kept; non-numeric input and negatives give 0; values of 100 or more give 100 |
| Ballot.NextScoresKeepsBudget | src/pages/Voting.jsx:40-51 | from a form within budget (total equal to the sum), a change keeps it within budget, and no other key's points move |
| Ballot.NextScoresValue | src/pages/Voting.jsx:45-50 | the changed key gets the clamped value when the new total fits, otherwise exactly what the other keys leave |
| Ballot.Zeros | src/pages/Voting.jsx:20-25 | every member id maps to 0, the total is 0 and the form is within budget |
| Ballot.CheckSubmission | src/pages/Voting.jsx:56-70 | refused for a blank voter name first, then for a zero total; otherwise the trimmed, non-empty name goes out with the points unchanged |
| Ballot.VotingPage.constructor | src/pages/Voting.jsx:7-11 | the form starts empty and within budget |
| Ballot.VotingPage.Load | src/pages/Voting.jsx:15-33 | a loaded registry is shown with every member at 0 points; a failed load shows none and keeps the points |
| Ballot.VotingPage.ChangeVoterName | src/pages/Voting.jsx:149 | only the voter name changes |
| Ballot.VotingPage.ScoreChange | src/pages/Voting.jsx:35-52 | the points become the next scores, the total follows, the form stays within budget, and no other key moves |
| Ballot.VotingPage.Submit | src/pages/Voting.jsx:54-88 | the guards decide; a stored ballot resets every member to 0 and clears the name; a refused or failed one leaves the form as it was |
| LuckyDraw.RemoveAt | src/pages/LuckyDraw.jsx:71 | the splice removes position i and shifts the rest left by one |
| LuckyDraw.RemoveAtSplice | src/pages/LuckyDraw.jsx:71 | the splice takes out exactly the picked element |
| LuckyDraw.Needed | src/pages/LuckyDraw.jsx:68 | the loop runs min(drawCount, pool size) times |
| LuckyDraw.SelectWinners | src/pages/LuckyDraw.jsx:65-72 | the loop over a copy of the registry yields the draw the picks determine |
| LuckyDraw.DrawLength | src/pages/LuckyDraw.jsx:68 | a draw yields exactly min(drawCount, number of members) winners |
| LuckyDraw.DrawFromPool | src/pages/LuckyDraw.jsx:66-71 | the winners form a sub-multiset of the registry: every winner is a member and no position is picked twice |
| LuckyDraw.DrawDistinct | src/pages/LuckyDraw.jsx:69-71 | with distinct ids in the registry the winners have distinct ids |
| LuckyDraw.CheckStart | src/pages/LuckyDraw.jsx:30-38 | refused for an empty registry first, then for a count above the member count; otherwise the draw starts |
| LuckyDraw.HistoryEntry | src/pages/LuckyDraw.jsx:94-103 | the posted entry has the draw's id and time, `drawCount` equal to the number of winners, and the winners in draw order |
| LuckyDraw.Project | src/pages/LuckyDraw.jsx:97-101 | each winner is projected to its id, name and `photo \|\| null`, in order |
| LuckyDraw.HistoryEntryStored | api/lucky-draw-logs.js:36-47 | the handler accepts what the page posts and stores it unchanged, its count included |
| LuckyDraw.DrawPage.constructor | src/pages/LuckyDraw.jsx:7-27 | the loaded registry (none after a failed load), one winner to draw, no result |
| LuckyDraw.DrawPage.Decrement | src/pages/LuckyDraw.jsx:151-152 | one fewer, unless the count is already one or a draw or result is showing; the count stays within [1, members] |
| LuckyDraw.DrawPage.Increment | src/pages/LuckyDraw.jsx:162-163 | one more, unless the count already equals the member count or a draw or result is showing; the count stays within [1, members] |
| LuckyDraw.DrawPage.StartDraw | src/pages/LuckyDraw.jsx:29-87 | a refused start changes nothing and posts nothing; otherwise the winners are the draw, exactly drawCount of them, and their history entry is posted |
| LuckyDraw.DrawPage.ResetDraw | src/pages/LuckyDraw.jsx:112-117 | the winners and the result are cleared |
| Gate.Step | src/components/PasswordProtection.jsx:11-20 | typing replaces the input and clears the error; submitting authenticates exactly when the input is '0909' (or already authenticated), and a wrong input sets the error and clears the input |
| Gate.StaysAuthenticated | src/components/PasswordProtection.jsx:8-20 | once authenticated, no sequence of events signs the user out |
| Gate.OnlyThePasswordOpens | src/components/PasswordProtection.jsx:4-19 | without typing exactly '0909', a closed gate stays closed whatever happens |
| Gate.TypeAndSubmit | src/components/PasswordProtection.jsx:13-15 | typing '0909' and submitting opens the gate from any state |
| Gate.Render | src/components/PasswordProtection.jsx:22-24 | the children are shown exactly when authenticated; the error shows exactly when it is non-empty |
| Gate.PasswordGate.constructor | src/components/PasswordProtection.jsx:7-9 | empty input, not authenticated, no error |
| Gate.PasswordGate.ChangeInput | src/components/PasswordProtection.jsx:47-50 | the input takes the value and the error is cleared |
| Gate.PasswordGate.Submit | src/components/PasswordProtection.jsx:11-20 | one submit step with the translated error; a wrong password always shows a non-empty error |
| I18n.Entry | src/utils/i18n.js:179 | the property found belongs to the table; None exactly when no entry has the key |
| I18n.Child | src/utils/i18n.js:179 | `value?.[k]` is missing below a missing value or a phrase, and the table's entry otherwise |
| I18n.WalkNone | src/utils/i18n.js:178-180 | once a segment is missing the walk stays missing |
| I18n.WalkAppend | src/utils/i18n.js:178-180 | walking a concatenation of keys is walking its halves in turn |
| I18n.T | src/utils/i18n.js:173-183 | a non-empty key never yields a falsy value; a falsy result is the key itself |
| I18n.WalkMissing | src/utils/i18n.js:178-182 | a walk that misses at any segment misses altogether |
| I18n.MissingSegment | src/utils/i18n.js:178-182 | a missing segment makes `t` return the key |
| I18n.NoTable | src/utils/i18n.js:176-182 | a language with no table translates every key to itself |
| I18n.SplitFirst | src/utils/i18n.js:175 | splitting at the first separator gives the head and the split of the rest |
| I18n.SplitNone | src/utils/i18n.js:175 | a key without a dot is one segment |
| I18n.Lookup | src/utils/i18n.js:175-182 | the segment loop computes exactly `t` |
| Language.Languages | src/utils/i18n.js:3-160 | Thai and English have a table and no other language does |
| Language.ThaiHasNoConfig | src/utils/i18n.js:4-81 | the Thai table has no `config` section |
| Language.EnglishHasNoConfig | src/utils/i18n.js:82-159 | the English table has no `config` section |
| Language.NoConfigSection | src/utils/i18n.js:3-160 | below every language the shipped table has no `config` section |
| Language.ConfigWalkMisses | src/utils/i18n.js:175-180 | the walk for a `config.` key from a table without `config` misses |
| Language.ConfigKeysUnresolved | src/utils/i18n.js:173-180 | in every language the walk for a `config.` key finds nothing |
| Language.ConfigKeysUntranslated | src/utils/i18n.js:182 | every `config.` key translates to itself |
| Language.ConfigUntranslatedIn | src/utils/i18n.js:173-182 | in any table without a `config` section under the language, every `config.` key translates to itself |
| Language.LanguageOf | src/utils/i18n.js:164 | the stored language when truthy, 'th' otherwise |
| Language.Locale.constructor | src/utils/i18n.js:163-165 | the stored preference as given |
| Language.Locale.GetLanguage | src/utils/i18n.js:163-165 | the stored language or 'th', never empty |
| Language.Locale.SetLanguage | src/utils/i18n.js:168-170 | a later read returns the language set (Thai for an empty one) |
| Language.Locale.Translate | src/utils/i18n.js:173-183 | `t` over the shipped table in the current language |
| Text.TrimStartFacts | src/pages/Config.jsx:103 | what the leading trim removes is a blank prefix and what it keeps starts with a non-space |
| Text.TrimEndFacts | src/pages/Config.jsx:103 | what the trailing trim removes is a blank suffix and what it keeps ends with a non-space |
| Text.TrimEmptyIffBlank | src/pages/Voting.jsx:56 | a string trims to empty exactly when it is blank; otherwise the result has no space at either end |
| Text.TrimIdempotent | src/pages/Config.jsx:176-182 | trimming twice is trimming once |
| Text.Split | src/utils/i18n.js:175 | at least one piece, and no piece contains the separator |
| Text.JoinSplit | src/pages/Config.jsx:176 | joining the pieces with the separator gives the string back |
| Text.Lower | src/pages/Config.jsx:180 | lower-casing works character by character and keeps the length |
| Text.OccursContains | src/pages/Config.jsx:274 | an occurrence at any position makes `includes` true |
| Text.NatToString | src/pages/Config.jsx:102 | the decimal rendering is non-empty, with two or more digits from 10 on |
| Text.NatToStringInjective | src/pages/Config.jsx:185 | different numbers render differently |
| Storage.ApiError | src/utils/api.js:33 | the thrown message is "API error: " followed by the status text |
| Storage.Stored | server/server.js:70 | the stored member keeps its id and name and a null-or-non-empty photo, and is the member itself when the photo already was |
| Storage.CalculateResults | src/utils/storage.js:102-137 | the local branch gives the leaderboard of the given data; otherwise the endpoint's reply, and a failed call gives an empty board with 0 ballots instead of an error |
| Storage.GetVoteLogs | src/utils/storage.js:166-173 | a failed call gives an empty list; a truthy id gives that ballot's entries; otherwise min(100, n) entries, the i-th being the i-th newest stored one |
| Storage.AddMember | src/utils/storage.js:33-40 | a failed request rethrows its error and leaves the registry as it was; otherwise the server appends the member |
| Storage.UpdateMember | src/utils/storage.js:42-49 | done exactly when the request arrived and the id is known; a failed request rethrows, the server's 404 arrives as "API error: Not Found", and the registry changes only when done |
| Storage.DeleteMember | src/utils/storage.js:51-58 | a failed request rethrows with the registry unchanged; otherwise the server deletes every match |
| MemberForms.NewMember | src/pages/Config.jsx:94-105 | refused exactly for a blank name; otherwise the id is the clock's digits, the name is the trimmed, non-empty name, and the photo is `photo \|\| null` |
| MemberForms.EditRequest | src/pages/Config.jsx:140-150 | refused exactly for a blank name; otherwise the trimmed, non-empty name and the form's photo unchanged |
| MemberForms.NonBlank | src/pages/Config.jsx:176 | the filter never adds lines |
| MemberForms.NonBlankMembers | src/pages/Config.jsx:176 | the filter keeps exactly the lines that are not blank |
| MemberForms.NonBlankAppend | src/pages/Config.jsx:176 | the filter works piecewise over a concatenation, so kept lines stay in file order |
| MemberForms.NonBlankSingle | src/pages/Config.jsx:176 | one line is kept exactly when it does not trim to empty |
| MemberForms.ParseImport | src/pages/Config.jsx:176-190 | the `forEach` loop builds exactly the imported members |
| MemberForms.PushedShape | src/pages/Config.jsx:179-190 | over non-empty names, the k-th member pushed comes from line k, or from line k + 1 after a header |
| MemberForms.ImportNamesNonEmpty | src/pages/Config.jsx:176-182 | every remaining line trims to a non-empty name |
| MemberForms.ImportEntries | src/pages/Config.jsx:179-190 | one member per remaining line after an optional header, with that line's index in its id |
| MemberForms.ImportShape | src/pages/Import.jsx:148-162 | one member per non-blank line after an optional header, in file order, each with a trimmed, non-empty name, a null photo and its line's index in its id |
| MemberForms.HeaderDropped | src/pages/Config.jsx:180 | the first remaining line is dropped exactly when it contains "name" in any case; otherwise it is the first member |
| MemberForms.ImportIdInjective | src/pages/Config.jsx:185 | two import ids of one run are equal only for the same line index |
| MemberForms.ImportIdsDistinct | src/pages/Import.jsx:157 | the ids of one import are pairwise distinct |
| MemberForms.ImportedStoredAsIs | src/pages/Config.jsx:187 | imported members, having a null photo, are stored unchanged |
| MemberForms.Upload | src/pages/Config.jsx:195-197 | the adds run in file order and the first that throws ends the loop; done exactly when none failed, and the store then holds the prefix that went through |
| MemberForms.ConfigPage.constructor | src/pages/Config.jsx:48-56 | the list is the loaded one |
| MemberForms.ConfigPage.AddMember | src/pages/Config.jsx:94-119 | a refused or failed add changes nothing; one that went through appends the member and reloads the list from the store |
| MemberForms.ConfigPage.SaveEdit | src/pages/Config.jsx:140-160 | the store rewrites the first match only when the edit went through and the id is known, and the list is then reloaded |
| MemberForms.ConfigPage.DeleteMember | src/pages/Config.jsx:121-131 | after confirmation, a delete that went through removes every match and reloads the list |
| MemberForms.ConfigPage.ImportFile | src/pages/Config.jsx:169-207 | the parsed members are added in file order; the list is reloaded only when there were members and all went through, so after a failure the store holds a prefix the page does not show |
| MemberForms.ImportPage.constructor | src/pages/Import.jsx:31-39 | the list is the loaded one |
| MemberForms.ImportPage.AddMember | src/pages/Import.jsx:63-87 | an accepted add that went through appends the new member at the end of the list; a list that matched the store still matches when the write succeeds |
| MemberForms.ImportPage.DeleteMember | src/pages/Import.jsx:89-99 | a delete that went through removes every match and keeps the order of the rest; the list keeps matching the store |
| MemberForms.ImportPage.SaveEdit | src/pages/Import.jsx:108-132 | an edit that went through rewrites every match; the list keeps matching the store when ids are distinct and the photo is not empty |
| MemberForms.ImportPage.ImportFile | src/pages/Import.jsx:141-179 | after every add went through, the imported members follow the existing ones in file order and the list matches the store |
| PasswordReset.CheckReset | src/pages/Config.jsx:240-253 | the checks in order: every field filled, then a new password of 4 or more, then confirmation equal; only a form passing all three is sent, with its two passwords |
| PasswordReset.SentResetReachesPasswordCheck | api/admin-password.js:41-61 | a form the page sends passes the server's new-password checks: 200 when the current password is the stored one, 401 otherwise, never 400 |
| PasswordReset.OrFallback | src/pages/Config.jsx:241 | `t(key) \|\| fallback`: the translation when truthy, the fallback text otherwise |
| PasswordReset.RawKeyShown | src/pages/Config.jsx:241 | as written, from a table without a `config` section the message for a `config.` key is the key itself, never the fallback |
| PasswordReset.FallbackNeverShown | src/pages/Config.jsx:241 | as written, with the shipped table every such message is the raw `config.` key in every language |
| PasswordReset.EmptyFormShowsRawKey | src/pages/Config.jsx:240-242 | as written, an empty form shows something other than "All fields are required" |
| PasswordReset.Localized | src/pages/Config.jsx:241 | corrected lookup: the fallback when the key is missing, the phrase when one is there, never empty with a non-empty fallback |
| PasswordReset.FallbackShown | src/pages/Config.jsx:241 | corrected: from a table without a `config` section the message is the fallback text |
| PasswordReset.ConfigMessageIsFallback | src/pages/Config.jsx:246 | corrected: with the shipped table the message is the page's bilingual text |
| PasswordReset.CheckError | src/pages/Config.jsx:240-253 | as written: a check's error line is falsy exactly when the form is sent |
| PasswordReset.CheckErrorShowsKey | src/pages/Config.jsx:240-253 | as written, from a table without a `config` section each failed check shows its raw `config.` key |
| PasswordReset.CheckErrorIntended | src/pages/Config.jsx:240-253 | corrected: a check's error line is empty exactly when the form is sent |
| PasswordReset.CheckErrorShowsFallback | src/pages/Config.jsx:240-253 | corrected: from a table without a `config` section each failed check shows its bilingual text |
| PasswordReset.MapResetError | src/pages/Config.jsx:273-278 | as written: a wrong current password is recognised exactly when the message (or its default) contains '401' or 'incorrect'; anything else is shown as it is |
| PasswordReset.UnauthorizedShownRaw | src/pages/Config.jsx:273-278 | as written, the client's error for the server's 401 is shown raw, not as a wrong current password |
| PasswordReset.MapResetFailure | src/pages/Config.jsx:273-278 | corrected: the server's 401 is the wrong current password whatever the message; other failures as written |
| PasswordReset.FailureError | src/pages/Config.jsx:273-278 | as written: a failed request always shows a truthy error, the raw message when it has one |
| PasswordReset.FailureErrorIntended | src/pages/Config.jsx:273-278 | corrected: the same, with the corrected lookup for the wrong current password |
| PasswordReset.HandleReset | src/pages/Config.jsx:234-282 | as written: a request goes out exactly when the checks pass; the fields are cleared exactly after a success; exactly one of the error and success lines is shown; a failure's line is what the thrown message maps to |
| PasswordReset.RawKeysShown | src/pages/Config.jsx:240-277 | as written, from a table without a `config` section every table message of the form is its raw key: each failed check's, the success line's, and the wrong current password's for a message holding '401' |
| PasswordReset.UnauthorizedResetShownRaw | src/pages/Config.jsx:256-278 | as written, a sent form the server refuses with 401 shows "API error: Unauthorized" |
| PasswordReset.HandleResetIntended | src/pages/Config.jsx:234-282 | corrected: as the handler above, with the corrected lookup and a failure mapped by the server's status |
| PasswordReset.WrongCurrentPasswordRecognised | src/pages/Config.jsx:274-275 | corrected: a sent form with a wrong current password is reported as one by the corrected handler, whatever the thrown message |
| PasswordReset.IntendedMessages | src/pages/Config.jsx:241-275 | corrected: from a table without a `config` section each message is the page's bilingual text, the server's 401 included |

## Left out

- Storage and network I/O are abstract. This covers file reads and writes, the key-value client and the HTTP client. Stores are fields. A write's success and a request's failure are inputs.
- server/kv-utils.js as given exports no `getAdminPassword`, `setAdminPassword`, `getLuckyDrawLogs` or `setLuckyDrawLogs`. The model gives `Kv.Store` a field for the password and one for the draw history. Each write's success is an input, as `writeKV` reports it for the other setters.
- src/utils/api.js as given defines no `resetAdminPassword`. As shipped, the call at src/pages/Config.jsx:258 therefore throws a `TypeError` before any request is made, and the page shows that error's message raw. The model takes the request's outcome as an input to `PasswordReset.HandleReset`, as if the call went through the API client: success, or a failure with the server's status and the thrown message.
- `ExpressServer.Server.SubmitVote`: a POST to `/api/votes` without `scores` is not modelled, because scores are always present in the model. In server/server.js:139-146 such a ballot is stored, then `Object.keys(undefined)` throws. The reply is a 500, the ballot stays and no log entries are written. Every later results request then fails at server/server.js:209.
- `ExpressServer.Server` methods read their stores intact. In server/server.js:30-41, `readJSON` returns `[]` when a file cannot be read or parsed, and the route's next write then replaces the whole store. For example, adding a member over an unreadable members file leaves only the new member. The copy at server/utils.js:10-25 is modelled on its own by `Files.ReadJSON`, failure included, but no Express route in the model reads through it.
- `I18n.Child`: `value?.[k]` is modelled only on tables and missing values. On a string, JavaScript returns the character at index `k` (`t('password.error.0')` is the first letter). On a table, JavaScript also finds inherited properties such as `constructor`. The model gives none in both cases. No key the pages look up reaches either case.
- Concurrency is not modelled. The whole-store read-modify-write cycles race, and the last writer wins.
- Randomness and clocks are parameters: `Math.random`, `Date.now()` and ISO timestamps. Each import takes one clock reading, where the page reads the clock once per line.
- The floating-point percentage and average of the results and history pages are not modelled, and neither are those pages.
- Scores are integers. Fractional and string inputs and JavaScript's `+` coercion are not modelled.
- Animation, timers, `FileReader`, `alert`/`confirm` dialogs (the confirmation is an input), the 5 MB photo check and all rendering are not modelled.
- The `useLocalStorage` branches of src/utils/storage.js are not modelled, because the flag is `false`. The one exception is `calculateResults`, whose local branch is a parameter of `Storage.CalculateResults`.
- The Config page's reload after a change is taken to return the store. Its fallback to the browser's own storage on a failed reload is not modelled.
- `getMembers`, `getVotes`, `getVoteCount`, `saveVote` and `resetAllVotes` of the storage layer are not modelled separately. They only forward to the endpoints modelled in `ExpressServer` and the `api` modules.
- The routes that only read a store back (GET of members and ballots) are direct reads of the fields.
- CORS headers are not modelled.
- `Text.Lower`: lower-cases ASCII letters only. Full Unicode case mapping is not modelled.
- String lengths count characters, where JavaScript's `.length` counts UTF-16 code units. They differ only for characters outside the Basic Multilingual Plane.
- A JavaScript object's key order puts integer-like keys first. Scores keep the order in which keys arrive.
- The translation table is transcribed for every key the modelled pages look up. No lemma states a concrete translated phrase.
- `Registry.RemoveAll`: its own contract states only the length bound. The contents and order are stated by `Registry.RemoveAllMembers` and `Registry.RemoveAllAppend`.
- `MemberForms.NonBlank`: its own contract states only the length bound. Which lines it keeps is stated by `MemberForms.NonBlankMembers`, and their order by `MemberForms.NonBlankAppend` with `MemberForms.NonBlankSingle`.
- `ExpressServer.Server.SubmitVote`, `VotesApi.Handle` and `Aggregation.Tally` take `Scores` as a sequence of (id, points) pairs, which may repeat an id. A parsed JSON object cannot do that: the last value wins, in the first key's position. The model counts every copy. The voting page never sends such a ballot, because `Ballot.SetKeys` keeps its keys distinct.

## Findings

| source | as written | input that shows it | evidently intended | confidence | as-written member | corrected member |
|---|---|---|---|---|---|---|
| src/pages/Config.jsx:241 | each message of the reset form is `t('config.…') \|\| fallback`. The table has no `config` section, and `t` returns the key for a missing entry, which is truthy, so the fallback is never used. | an empty form in either language shows `config.passwordRequired` | the bilingual fallback text is shown when the table has no translation | not executed | PasswordReset.RawKeysShown | PasswordReset.IntendedMessages |
| src/pages/Config.jsx:274 | a wrong current password is recognised by searching the error message for '401' or 'incorrect'. The API client throws "API error: " plus the status text (src/utils/api.js:33), so the server's 401 arrives as "API error: Unauthorized" and matches neither. | a sent form whose current password differs from the stored one, once the reset request goes through the API client (the client method is missing as shipped; see "Left out") | the server's 401 is reported as a wrong current password | not executed | PasswordReset.UnauthorizedResetShownRaw | PasswordReset.WrongCurrentPasswordRecognised |
