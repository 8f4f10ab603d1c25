# A verified model of a mental-health companion app's core

This project models the logic of a React/TypeScript mental-health app whose
client talks to a hosted database. The model covers:

- **The field cipher and its key lifecycle** (`src/lib/encryption.ts`). This is a
  singleton that holds an optional key. The key is derived from the session token
  or taken from a device key kept in local storage.
- **The identity and session state machine** (`src/contexts/AuthContext.tsx`). It
  handles auth events, sign-in, sign-out, anonymous sessions and the upgrade to an
  e-mail account.
- **The record services** for check-ins (`src/lib/mood.ts`), coping tools and the
  safety plan (`src/lib/copingTools.ts`), and peer support (`src/lib/peerSupport.ts`).
  They share one identity rule:
  - the signed-in user comes first, then the stored anonymous id;
  - with neither, writes fail and reads are empty.
  Sensitive fields are encrypted when they are non-empty and decrypted on return.
- **The insight and risk engine** (`src/lib/ai.ts`). It covers the mood trend,
  trigger counting, the sleep–mood correlation, recommendations, the risk level,
  and the scoping of its saved rows.
- **The pure helpers and state machines of the pages and components**: tool and
  group filters, effectiveness ranking, the tool-session step and countdown machine,
  the supporter form, the group card, the match card, and check-in parsing.

Remote tables are classes whose fields are sequences of rows, in insertion order.
Local storage is a class holding a `map<string, string>`. Values the program receives
from outside are parameters of the operations that use them:

- what `supabase.auth.getUser()` returns;
- the ids and timestamps the database assigns;
- the errors it returns;
- fresh random bytes;
- the AI text.

AES and SHA-256 are replaced by stand-ins with the properties the app relies on:

- decryption under the encrypting key gives the plaintext back;
- decryption under any other key gives the empty string;
- the digest is injective.

These stand-ins differ from the real functions in ways the model does not rely on:

- `Encryption.Seal` is deterministic: a key and a text always give the same ciphertext, where CryptoJS draws a fresh random salt for each encryption.
- `Encryption.Sha256Hex` returns "sha256:" followed by its input. It is injective and never empty, but it is neither hexadecimal nor of fixed length.
- The JSON serialisation escapes the quote, the backslash, and the line feed, carriage return, tab, backspace and form feed. `JSON.stringify` also writes the other control characters and lone surrogates as `\u` escapes.
- `PeerCards.ParseInt` reads decimal digits only. It ignores the "0x" prefix that makes `parseInt` read a hexadecimal number.

Mood scores are integers on the 1–10 scale. Averages and thresholds are therefore
stated exactly over integers or reals. The two square-root tests of the engine are
cross-multiplications:

- the variability threshold is `4·(nΣx² − (Σx)²) > 25·n²`;
- the correlation gate is `100·num² < 9·den`.

The services, pages and analyses follow the code as written. Where the code evidently departs from what its authors meant, the intended behaviour is a separate definition whose property is proved beside the as-written one; these pairs are listed under "## Findings". Where the documented behaviour and the code disagree, the model follows the code:

- At a change of exactly half a point, the insight engine calls the trend improving while the mood statistics call it stable (`Insights.HalfPointTrendsDisagree`).
- A sleep–mood correlation of exactly 0.3 passes the weak-correlation gate and takes the negative branch (`Insights.ExactGateIsNegative`).
- `updateMatchStatus` writes any status whatever the current one (`PeerSupport.StatusIsNotChecked`).
- A trigger text made only of commas and spaces is submitted as an empty list (`CheckIn.SeparatorsOnlyGiveEmptyList`).

## Model

| member | source | states |
|---|---|---|
| Storage.LocalStorage.GetItem | src/lib/encryption.ts:24 | reading a key gives its stored text exactly when the key is present, and null otherwise |
| Storage.LocalStorage.SetItem | src/lib/encryption.ts:27 | storing a value changes that one entry and no other |
| Storage.LocalStorage.RemoveItem | src/contexts/AuthContext.tsx:232-233 | removing a key deletes that entry only; a missing key is no error |
| Encryption.Sha256Hex | src/lib/encryption.ts:21 | the digest stand-in is never empty |
| Encryption.Sha256Injective | src/lib/encryption.ts:21 | two inputs have the same digest exactly when they are equal |
| Encryption.SessionKey | src/lib/encryption.ts:20-21 | a session key is a non-empty digest of the token followed by the fixed salt |
| Encryption.SessionKeyInjective | src/lib/encryption.ts:20-21 | two sessions share a key exactly when they share a token |
| Encryption.OpenSeal | src/lib/encryption.ts:38-47 | decrypting under the encrypting key gives the plaintext back |
| Encryption.OpenWithOtherKey | src/lib/encryption.ts:46-47 | decrypting under any other key gives the empty string |
| Encryption.InitializedKey | src/lib/encryption.ts:18-31 | a truthy session gives its derived key and leaves storage alone; otherwise a stored non-empty device key is reused unchanged, or the fresh one is stored and used; entries other than the device key never change |
| Encryption.DeviceKeyIdempotent | src/lib/encryption.ts:24-29 | a second key initialisation without a session gives the same key and storage as the first, whatever it draws; storage is written at most once |
| Encryption.EncryptionService.constructor | src/lib/encryption.ts:6-8 | a new service holds no key |
| Encryption.EncryptionService.InitializeKey | src/lib/encryption.ts:18-31 | afterwards a key is set, and key and storage are those the initialisation rule gives |
| Encryption.EncryptionService.Encrypt | src/lib/encryption.ts:34-39 | fails with "key not initialized" exactly when no key is set; otherwise the ciphertext is non-empty and decrypts to the input under the key |
| Encryption.EncryptionService.Decrypt | src/lib/encryption.ts:42-48 | fails with "key not initialized" exactly when no key is set |
| Encryption.EncryptionService.DecryptEncrypt | src/lib/encryption.ts:34-48 | with a key set, decrypting what was encrypted gives the input back |
| Encryption.EncryptionService.EncryptObject | src/lib/encryption.ts:51-53 | fails exactly when no key is set; otherwise the ciphertext decrypts to JSON text that parses back to the object |
| Encryption.EncryptionService.DecryptObject | src/lib/encryption.ts:56-59 | without a key it fails with "key not initialized"; a result is the parse of the decrypted text |
| Encryption.EncryptionService.DecryptObjectEncryptObject | src/lib/encryption.ts:51-59 | with a key set, decrypting an encrypted object gives the same object |
| Encryption.EncryptionService.ClearKey | src/lib/encryption.ts:62-64 | the key is gone, and local storage, with the device key in it, is outside the frame and so unchanged |
| Encryption.EncryptionService.GenerateAnonymousId | src/lib/encryption.ts:67-70 | the id is a 16-character hex prefix of the digest of fresh random bytes |
| Encryption.Registry.constructor | src/lib/encryption.ts:5 | no instance exists at first |
| Encryption.Registry.GetInstance | src/lib/encryption.ts:10-15 | the first call creates a fresh instance without a key; every later call returns that same instance |
| Identity.ResolvePrincipal | src/lib/mood.ts:63-69 | the user wins when present; else a truthy stored anonymous id is used; there is no identity exactly when both are missing |
| Identity.OwnerOf | src/lib/mood.ts:63-67 | a write sets exactly one of the two owner columns |
| Identity.OwnerSeparation | src/lib/mood.ts:115-121 | a row written under one identity is read by that identity and by no other |
| Identity.AnonymousRowsStayBehind | src/contexts/AuthContext.tsx:303-305 | once a user is signed in, rows written anonymously are no longer visible, since nothing migrates them |
| Fields.SealText | src/lib/mood.ts:72-80 | a falsy text is not written; a truthy one is written encrypted, and only when a key is set, and it decrypts to the text |
| Fields.RevealText | src/lib/mood.ts:93-95 | a falsy stored field reads as absent; a truthy one is decrypted, and the read fails exactly when no key is set |
| Fields.RevealSealText | src/lib/mood.ts:72-96 | a text field written and read back is the original when truthy, and absent otherwise |
| Json.RoundTrip | src/lib/encryption.ts:52-58 | parsing the serialisation of any JSON value gives that value back |
| Json.StringsRoundTrip | src/lib/mood.ts:94 | reading the strings back out of the JSON array of a list gives that list |
| Json.StringListRoundTrip | src/lib/mood.ts:76-94 | the text of a string list parses back to its array, whose strings are the list |
| Json.FromStrings | src/lib/mood.ts:76 | a string list becomes a JSON array of as many strings, in order |
| InsightData.DatePart | src/lib/ai.ts:180-181 | the date part is the prefix of the timestamp before its first 'T', and holds no 'T' |
| Auth.Cleared | src/contexts/AuthContext.tsx:58-64 | nobody is signed in, no session or profile remains, anonymous mode is off and the key is forgotten; storage is untouched |
| Auth.CheckedAnonymous | src/contexts/AuthContext.tsx:67-75 | reports true exactly when a truthy anonymous id is stored; then the device is anonymous under the device key kept in storage; otherwise nothing changes |
| Auth.SessionWins | src/contexts/AuthContext.tsx:97-144 | a session with a user is adopted at start-up and on every event but sign-out: the user and session are set, anonymous mode is left even with an anonymous id stored, and the key is derived from the access token |
| Auth.SignedOutIgnoresAnonymousId | src/contexts/AuthContext.tsx:132-137 | SIGNED_OUT clears the state and the key without looking at storage: the result is the same whatever is stored |
| Auth.NoSessionFollowsAnonymousId | src/contexts/AuthContext.tsx:145-156 | without a user session, the device is anonymous exactly when an anonymous id is stored, and it has no key when it is not anonymous |
| Auth.SignOutLeavesNothing | src/contexts/AuthContext.tsx:247-273 | after sign-out both device entries are gone, the key is forgotten and nobody is signed in |
| Auth.AnonymousSessionShape | src/contexts/AuthContext.tsx:275-286 | a new anonymous session is anonymous and signed out, stores the new id, and uses the stored device key as the cipher key |
| Auth.UpgradeRules | src/contexts/AuthContext.tsx:288-312 | the upgrade is refused outside anonymous mode; a successful sign-up drops both device entries and changes nothing else, so no data is migrated |
| Auth.AuthProvider.constructor | src/contexts/AuthContext.tsx:51-55 | the provider starts loading, with no user, session or profile, and not anonymous |
| Auth.AuthProvider.ClearAuthState | src/contexts/AuthContext.tsx:58-64 | the new state is the cleared state |
| Auth.AuthProvider.CheckAnonymousSession | src/contexts/AuthContext.tsx:67-75 | result and new state are those of the anonymous check |
| Auth.AuthProvider.LoadUserProfile | src/contexts/AuthContext.tsx:167-184 | a found row becomes the profile, a missing row (PGRST116) clears it, and any other error leaves it as it was |
| Auth.AuthProvider.AdoptSession | src/contexts/AuthContext.tsx:97-102 | the new state adopts the session, with its derived key and the loaded profile, and is not anonymous |
| Auth.AuthProvider.AnonymousOrClear | src/contexts/AuthContext.tsx:90-107 | the device becomes anonymous when an id is stored, and is cleared otherwise |
| Auth.AuthProvider.InitializeAuth | src/contexts/AuthContext.tsx:81-119 | a fetch error or a missing user falls back to the anonymous check; a user session is adopted; loading ends in every case |
| Auth.AuthProvider.OnAuthStateChange | src/contexts/AuthContext.tsx:126-159 | SIGNED_OUT clears, a user session is adopted, and anything else drops the session and keeps anonymous mode only while an id is stored; loading ends |
| Auth.AuthProvider.DropSession | src/contexts/AuthContext.tsx:145-156 | the session, user and profile are dropped; without a stored anonymous id the device also leaves anonymous mode and forgets the key |
| Auth.AuthProvider.SignIn | src/contexts/AuthContext.tsx:229-245 | both device entries are removed before the remote sign-in, whose error is passed back |
| Auth.AuthProvider.SignOut | src/contexts/AuthContext.tsx:247-273 | both device entries, the key and the local state are cleared whatever the remote sign-out answers |
| Auth.AuthProvider.CreateAnonymousSession | src/contexts/AuthContext.tsx:275-286 | stores the 16-character id, sets up the device key, becomes anonymous and drops user, profile and session |
| Auth.AuthProvider.UpgradeToEmail | src/contexts/AuthContext.tsx:288-312 | the error and new state are those of the upgrade rules |
| Mood.Normalize | src/lib/mood.ts:72-80 | notes and gratitude are kept exactly when truthy, triggers exactly when the list is non-empty, and each kept field is the input's |
| Mood.SealTriggers | src/lib/mood.ts:75-77 | an empty or missing list is not written; otherwise the stored text decrypts to the JSON of the list, and the write fails exactly when no key is set |
| Mood.RevealTriggers | src/lib/mood.ts:94 | a falsy stored field reads as absent; without a key the read fails; a result is the list whose JSON the decrypted text is |
| Mood.SealedRow | src/lib/mood.ts:55-80 | the row keeps the scores and check-in type in clear under the given owner; it fails exactly when a field must be encrypted and no key is set |
| Mood.Reveal | src/lib/mood.ts:91-96 | a decrypted row keeps id, owner, scores and time, and has notes exactly when the stored notes are truthy |
| Mood.RevealSealed | src/lib/mood.ts:72-96 | the returned entry is the caller's input, less its falsy fields, with triggers through JSON |
| Mood.RevealAll | src/lib/mood.ts:128-133 | the read succeeds exactly when every row decrypts, and then gives one entry per row, in order |
| Mood.MineAppend | src/lib/mood.ts:115-118 | a new row joins its owner's rows at the end and no one else's |
| Mood.Visible | src/lib/mood.ts:109-121 | at most `limit` rows, all from the table and all owned by the reader; none without an identity |
| Mood.Entries | src/lib/mood.ts:104-139 | no identity gives an empty list and no error; a result never exceeds the limit |
| Mood.ReadYourWrite | src/lib/mood.ts:112-118 | a check-in just written is the first its owner reads back, ahead of the earlier ones |
| Mood.WriteInvisibleToOthers | src/lib/mood.ts:115-118 | a write changes nothing that any other identity reads |
| Mood.Streak | src/lib/mood.ts:146-165 | the streak is the reader's single row; zero rows or several (the ignored single-row error) give null |
| Mood.MoodScores | src/lib/mood.ts:199 | one mood score per entry, in order |
| Mood.TrendByCounts | src/lib/mood.ts:202-214 | with at most seven check-ins the trend is stable; otherwise improving and declining are each decided exactly by the sums and counts of the two windows, against half a point |
| Mood.ComputeStats | src/lib/mood.ts:184-223 | no entries give the all-zero stable record with no last check-in; otherwise the tenths average is the rounded mean, the trend is the window rule, the total falls back to the entry count when the streak's total is falsy, streaks default to 0 and the last check-in is the newest entry's time |
| Mood.AverageOnScale | src/lib/mood.ts:199-217 | with scores on the 1–10 scale the rounded average lies between 1.0 and 10.0 |
| Mood.LastMillisecondMissed | src/lib/mood.ts:241-242 | a check-in at the day's last millisecond falls outside the queried window as written, though it belongs to the day |
| Mood.WholeDayCovers | src/lib/mood.ts:241-242 | every time of day from the first to the last millisecond, both included, lies in the corrected window |
| Mood.TodaysRow | src/lib/mood.ts:238-259 | today's row is the newest row of the reader's inside the queried window, from the day's first millisecond up to but not including its last: no row of the reader's stored after it lies in that window; there is none exactly when no row of the reader's lies in that window |
| Mood.LastMillisecondRowUnread | src/lib/mood.ts:241-242 | a reader whose only row was written at the day's last millisecond finds no row for today |
| Mood.MoodTables.constructor | src/lib/mood.ts:82-84 | the tables start empty |
| Mood.CreateOutcome | src/lib/mood.ts:63-88 | no identity fails with "No user session found"; a success has an identity, no database error and is the sealed row; a database error on a sealable row is that error |
| Mood.MoodService.constructor | src/lib/mood.ts:40 | the service works over the given cipher, storage and tables |
| Mood.MoodService.CreateMoodEntry | src/lib/mood.ts:49-102 | a failure leaves the check-ins as they were; a success appends exactly the sealed row and returns the input as written; the streak rows are never touched |
| Mood.MoodService.GetMoodEntries | src/lib/mood.ts:104-139 | without an identity the result is an empty list with no error; otherwise it holds at most `limit` entries |
| Mood.MoodService.GetMoodStreak | src/lib/mood.ts:141-169 | a streak returned is the reader's only row of the streak table; without an identity, or with no row or several, there is none |
| Mood.MoodService.GetMoodStats | src/lib/mood.ts:171-229 | the statistics are computed exactly when reading the last thirty check-ins succeeds |
| Mood.MoodService.GetTodaysEntry | src/lib/mood.ts:231-273 | no identity gives null with no error; an entry returned lies in the queried window, which leaves out the day's last millisecond; with an identity, null with no error comes exactly when no row of the reader's lies in that window |
| Stats.SumBounds | src/lib/ai.ts:384 | a sum of n values in [lo, hi] lies between n·lo and n·hi |
| Stats.MeanDifferenceAbove | src/lib/mood.ts:208-212 | a difference of two averages exceeds a threshold exactly when the cross-multiplied sums do |
| Stats.RoundedTenths | src/lib/mood.ts:217 | the rounded average in tenths is within half a tenth of the exact mean |
| Stats.ScaledDeviationsExpand | src/lib/ai.ts:461 | the sum of scaled squared deviations expands into sums of squares, sums and counts |
| Stats.DeviationsClosedForm | src/lib/ai.ts:460-461 | the scaled squared deviations from the mean equal n·(n·Σx² − (Σx)²) |
| Stats.ScaledVarianceNonNegative | src/lib/ai.ts:458-463 | the variance is never negative, so the variability is a real number ≥ 0 |
| Stats.VarianceAbove | src/lib/ai.ts:458-463 | the variability exceeds 2.5 exactly when 4·(n·Σx² − (Σx)²) > 25·n² |
| Stats.MeanAtLeast | src/lib/ai.ts:336-338 | an average is at least an integer threshold exactly when the sum is at least the threshold times the count |
| Insights.RaisedConfidence | src/lib/ai.ts:171 | the raised confidence is one tenth more when that stays within 1, never above 1, and never below a confidence that was at most 1 |
| Insights.InsightTrendByCounts | src/lib/ai.ts:134-157 | a trend exists exactly from three check-ins on; without a previous week it is stable; otherwise improving and declining are each decided exactly by the window sums and counts, a change of exactly half a point included |
| Insights.HalfPointTrendsDisagree | src/lib/ai.ts:148-151 | at a change of exactly half a point the insight engine says improving while the mood statistics say stable |
| Insights.Period | src/lib/ai.ts:180-181 | the period runs from the date of the oldest check-in to that of the newest, each a prefix of its timestamp |
| Insights.TrendInsight | src/lib/ai.ts:133-185 | an insight exists exactly from three check-ins on; it is an unreviewed mood-pattern insight with the template text and base confidence of its trend, or the model's text with the raised confidence, over the check-ins' period |
| Insights.TrendConfidenceRules | src/lib/ai.ts:148-171 | the confidence is 0.8 stable, 0.9 improving and 0.85 declining, each a tenth more with the model's text, and always between 0.8 and 1 |
| Insights.SleepPairs | src/lib/ai.ts:268-276 | only check-ins with a positive sleep score contribute a (sleep, mood) pair |
| Insights.Spread | src/lib/ai.ts:286-287 | the squared denominator of the correlation is never negative |
| Insights.SleepDirectionAsWritten | src/lib/ai.ts:286-307 | as written, a direction exists exactly from five pairs on when the correlation is not below 0.3, an undefined 0/0 correlation included; it is positive exactly when the correlation is above 0.3 |
| Insights.SleepDirection | src/lib/ai.ts:286-307 | the intended rule: a direction exists exactly from five pairs on, with a defined correlation of size at least 0.3; it is positive exactly when the correlation is above 0.3; where it exists the rule as written gives the same one |
| Insights.DirectionsAgreeWhenDefined | src/lib/ai.ts:286-307 | over a positive spread the rule as written and the intended rule agree, and where the code reports no direction the intended rule reports none either |
| Insights.ConstantSums | src/lib/ai.ts:280-283 | values that are all equal sum to n·c, and their squares to n·c² |
| Insights.ConstantSleepProducts | src/lib/ai.ts:282 | with one sleep score c throughout, Σ sleep·mood is c·Σ mood |
| Insights.UniformSleepReportedNegative | src/lib/ai.ts:286-307 | five nights of identical sleep give a 0/0 correlation, which the code as written reports as a negative correlation and the corrected rule suppresses |
| Insights.ExactGateIsNegative | src/lib/ai.ts:289-298 | a positive correlation of exactly 0.3 passes the gate and still takes the negative branch |
| Insights.DirectionPattern | src/lib/ai.ts:298-326 | the sleep pattern is daily, names no triggers, carries the given strength and the four recommendations of its direction |
| Insights.SleepPattern | src/lib/ai.ts:267-327 | a pattern is reported exactly when the rule as written finds a direction, an undefined correlation included; it carries the positive recommendations exactly when the correlation is above 0.3 and the negative ones otherwise; its strength is the size of the correlation |
| Insights.SleepStrengthAtLeastGate | src/lib/ai.ts:289-293 | over a positive spread, a reported sleep pattern has a strength of at least 0.3 |
| Insights.WeekBandByCounts | src/lib/ai.ts:330-342 | the week is positive exactly when it sums to at least 7 per check-in, moderate exactly when to at least 5 but less than 7, and lower otherwise |
| Insights.RecommendationFor | src/lib/ai.ts:329-378 | the recommendation is always present and unreviewed: the model's text at confidence 0.9, or the text of the week's band at 0.8, over the check-ins' period |
| Insights.Found | src/lib/ai.ts:104-124 | a present result is pushed once and an absent one not at all |
| Insights.MoodPatterns | src/lib/ai.ts:94-96 | fewer than three check-ins give no insights and no patterns |
| Insights.MoodPatternsShape | src/lib/ai.ts:98-126 | from three check-ins on there are exactly two insights, trend then recommendation, plus a trigger pattern exactly when two check-ins name triggers and one of those triggers gets an entry of its own, and a sleep pattern exactly when the correlation as the code computes it passes the gate, an undefined one included |
| Insights.AnalyzeMoodPatterns | src/lib/ai.ts:93-131 | the insights and patterns collected step by step are those of the analysis rules as written |
| Insights.Collect | src/lib/ai.ts:98-126 | each present result is pushed in order, the recommendation last |
| TriggerAnalysis.WithTriggers | src/lib/ai.ts:188 | the check-ins looked at are, in order, exactly those whose trigger list is non-empty |
| TriggerAnalysis.MentionsIn | src/lib/ai.ts:196-197 | each trigger of a check-in is one mention under its lower-cased, trimmed text, with that check-in's mood |
| TriggerAnalysis.KeyIndex | src/lib/ai.ts:198 | the lookup finds the entry holding the key, or reports that no entry holds it |
| TriggerAnalysis.MentionedAppend | src/lib/ai.ts:201-202 | one more mention raises its own key's count by one and mood total by its mood, and no other key's |
| TriggerAnalysis.NeverMentioned | src/lib/ai.ts:202 | a key never mentioned has a mood total of 0 |
| TriggerAnalysis.CountedSummarizes | src/lib/ai.ts:198-202 | counting one more mention keeps the dictionary a summary: distinct keys, exactly the mentioned keys other than 'constructor' and '__proto__', each with its mention count and mood total |
| TriggerAnalysis.OthersUnchanged | src/lib/ai.ts:201-202 | a mention changes the count and total of its own key only |
| TriggerAnalysis.KeptSummarizes | src/lib/ai.ts:198-202 | a mention of 'constructor' or '__proto__' finds the value the object inherits, adds no entry, and keeps the summary |
| TriggerAnalysis.AddedSummarizes | src/lib/ai.ts:198-199 | a first mention of a key that is not inherited adds its key at the end and keeps the summary |
| TriggerAnalysis.RaisedSummarizes | src/lib/ai.ts:201-202 | a repeated mention raises its entry in place and keeps the summary |
| TriggerAnalysis.TallyAppend | src/lib/ai.ts:195-204 | the dictionary after one more mention is the earlier dictionary with that mention counted |
| TriggerAnalysis.TallyCounts | src/lib/ai.ts:193-204 | after any sequence of mentions the dictionary is their summary, with no entry for 'constructor' or '__proto__' |
| TriggerAnalysis.TallyNonEmpty | src/lib/ai.ts:193-220 | the dictionary is empty exactly when every mention is of 'constructor' or '__proto__' |
| TriggerAnalysis.MentionedWitness | src/lib/ai.ts:196-201 | a key with a positive count is the key of one of the mentions |
| TriggerAnalysis.MentionsNonEmpty | src/lib/ai.ts:188-190 | check-ins that all have triggers make at least one mention each |
| TriggerAnalysis.InsertByRank | src/lib/ai.ts:213 | inserting adds exactly the new entry |
| TriggerAnalysis.InsertKeepsOrder | src/lib/ai.ts:213 | inserting into a list ordered from the highest rank down keeps it ordered |
| TriggerAnalysis.InsertKeepsKeysDistinct | src/lib/ai.ts:212-213 | inserting an entry with a new key keeps the keys distinct |
| TriggerAnalysis.SortByCount | src/lib/ai.ts:213 | the ranking holds the entries listed, once each, by descending count |
| TriggerAnalysis.SortByRank | src/lib/ai.ts:213 | the stable sort holds the entries given, once each, from the highest rank down |
| TriggerAnalysis.InsertIsPermutation | src/lib/ai.ts:213 | inserting adds the new entry once to the multiset |
| TriggerAnalysis.SortIsPermutation | src/lib/ai.ts:213 | the sort is a permutation of its input |
| TriggerAnalysis.SortKeepsKeysDistinct | src/lib/ai.ts:213 | sorting a dictionary with distinct keys keeps them distinct |
| TriggerAnalysis.EntriesOrderRules | src/lib/ai.ts:212 | `Object.entries` lists every entry of the dictionary once, its keys still distinct: the array-index keys first, in ascending numeric order, then the other keys in the order they were added |
| TriggerAnalysis.EntriesPermutation | src/lib/ai.ts:212 | the entries listed are a permutation of the dictionary |
| TriggerAnalysis.EntriesIndicesFirst | src/lib/ai.ts:212 | the listing starts with the array-index keys in ascending numeric order and ends with the other keys in insertion order |
| TriggerAnalysis.EntriesDistinct | src/lib/ai.ts:212 | listing a dictionary with distinct keys keeps them distinct |
| TriggerAnalysis.ConcatKeysDistinct | src/lib/ai.ts:212 | two lists with distinct keys and none in common make one list with distinct keys |
| TriggerAnalysis.FilterKeepsKeysDistinct | src/lib/ai.ts:212 | taking part of a dictionary keeps its keys distinct |
| TriggerAnalysis.IndexKeyListedFirst | src/lib/ai.ts:212-214 | with 'work' mentioned before '7', once each, '7' is listed first and heads the ranking |
| TriggerAnalysis.HeadIsMostFrequent | src/lib/ai.ts:222 | the head of the ranking is an entry with the largest count |
| TriggerAnalysis.RankingEntries | src/lib/ai.ts:212-213 | the ranking is a permutation of the dictionary with distinct keys, empty exactly when every mention is of 'constructor' or '__proto__' |
| TriggerAnalysis.Strength | src/lib/ai.ts:223 | the strength lies in [0, 1], is positive for a positive count, and below 1 is exactly the count's share |
| TriggerAnalysis.FrequencyOf | src/lib/ai.ts:259 | 'weekly' exactly when the top count is at least half the check-ins with triggers, else 'irregular' |
| TriggerAnalysis.NonBlankLines | src/lib/ai.ts:244 | the kept lines are, in order, exactly the lines of the answer that are not blank |
| TriggerAnalysis.StripBullet | src/lib/ai.ts:248 | a leading hyphen or bullet is removed with the spaces after it, and any other line is kept; the result is a suffix of the line |
| TriggerAnalysis.StripBulletAsWritten | src/lib/ai.ts:248 | as written, a leading '-', 'â', '€' or '¢' is removed with the spaces after it, and any other line is kept; the result is a suffix of the line |
| TriggerAnalysis.BulletKeptAsWritten | src/lib/ai.ts:248 | as written, a line starting with '• ' keeps its bullet, which the intended pattern removes |
| TriggerAnalysis.LetterStrippedAsWritten | src/lib/ai.ts:248 | as written, a line starting with the letter 'â' loses it, which the intended pattern keeps |
| TriggerAnalysis.WithAnswer | src/lib/ai.ts:242-251 | without a usable answer the texts stay; otherwise its first non-blank line is the description, and any later lines, each stripped by the pattern as written, replace the recommendations |
| TriggerAnalysis.RankedCounts | src/lib/ai.ts:212-214 | every ranked entry's count is the positive mention count of its key, which is neither 'constructor' nor '__proto__' |
| TriggerAnalysis.HeadCountsMost | src/lib/ai.ts:212-222 | when some mention is of a key that is not inherited, the ranking is not empty and no mentioned key with an entry is more frequent than its head |
| TriggerAnalysis.Keys | src/lib/ai.ts:260 | the reported triggers are the ranked entries' keys, in order |
| TriggerAnalysis.TallyDistinct | src/lib/ai.ts:193 | the dictionary never holds a key twice |
| TriggerAnalysis.RankedRules | src/lib/ai.ts:212-260 | when some mention is of a key that is not inherited, the first three of the ranking are one to three distinct triggers with entries, most frequent first, the first at least as frequent as any trigger with an entry |
| TriggerAnalysis.LeadingKeys | src/lib/ai.ts:214-260 | the first entries of a ranking whose counts are the mention counts name the most mentioned triggers with entries, in order |
| TriggerAnalysis.TriggerPatternPresent | src/lib/ai.ts:188-220 | a pattern is reported exactly when at least two check-ins have triggers and one of their triggers is neither 'constructor' nor '__proto__' |
| TriggerAnalysis.TriggerPatternRules | src/lib/ai.ts:212-260 | the pattern names one to three distinct triggers with entries, most frequent first, the first at least as frequent as any trigger with an entry; its strength is in (0, 1] and is the top trigger's share; it is 'weekly' exactly when that share is at least a half |
| TriggerAnalysis.MentionedPositive | src/lib/ai.ts:201 | a key that is mentioned has a positive count |
| TriggerAnalysis.MentionsAppend | src/lib/ai.ts:195-196 | the mentions of one more check-in follow those of the earlier ones |
| TriggerAnalysis.MentionsInAppend | src/lib/ai.ts:196 | the mention of one more trigger follows those of the earlier ones |
| TriggerAnalysis.CountMention | src/lib/ai.ts:198-202 | creating the entry when missing, then raising count and total, counts the mention; 'constructor' and '__proto__' are found present and get no entry |
| TriggerAnalysis.CountEntry | src/lib/ai.ts:196-203 | the inner loop counts one check-in's triggers in turn into the dictionary of the mentions before it |
| TriggerAnalysis.CountTriggers | src/lib/ai.ts:195-204 | the nested loops leave the dictionary of every mention, counted in visiting order |
| TriggerAnalysis.AnalyzeTriggerPatterns | src/lib/ai.ts:187-265 | the pattern computed step by step is the one the trigger rules describe, ranked from the `Object.entries` order and with the bullet pattern as written |
| Risk.RecentEntries | src/lib/ai.ts:383 | the recent check-ins are the first seven, or all of them when there are fewer |
| Risk.AtLeastMedium | src/lib/ai.ts:398-403 | the level rises to at least medium and is never lowered; medium and above are kept |
| Risk.RiskRecommendation | src/lib/ai.ts:438-445 | each level but low has advice, and low has none |
| Risk.LevelIsHighestFinding | src/lib/ai.ts:393-418 | the level is the highest any finding calls for: crisis for concerning notes, high for a mean below 3, medium for a mean below 5 or a variable mood, low otherwise |
| Risk.AssessmentRules | src/lib/ai.ts:381-455 | the level is low exactly when no risk factor is recorded; an assessment exists exactly from three check-ins with some risk finding, is never low, lists its factors and advice, and asks for intervention exactly at crisis |
| Risk.RiskByCounts | src/lib/ai.ts:384-404 | the mean thresholds are Σ < 3n and 3n ≤ Σ < 5n, and the variability threshold is 4·(n·Σx² − (Σx)²) > 25·n² |
| Risk.ProtectiveFactorsDoNotCount | src/lib/ai.ts:420-431 | histories that agree on recent moods and concerning notes get the same level and risk factors, whatever else they hold |
| Risk.AssessRisk | src/lib/ai.ts:380-456 | the assessment built step by step is the one the risk rules describe |
| Risk.HasConcerningContent | src/lib/ai.ts:407-412 | the scan reports exactly whether some recent check-in's lower-cased notes contain a concerning keyword |
| InsightStore.SaveOwner | src/lib/ai.ts:473-474 | with an identity, a save writes the same owner columns as the other services; without one it writes no user and no usable anonymous id |
| InsightStore.OrphanRowNeverRead | src/lib/ai.ts:473-563 | a row saved with no identity is never read back by any device |
| InsightStore.SealInsight | src/lib/ai.ts:472-481 | the saved row carries the owner and reads back as the same insight under the key |
| InsightStore.SealPattern | src/lib/ai.ts:500-509 | the saved row carries the owner and reads back as the same pattern under the key |
| InsightStore.SealAll | src/lib/ai.ts:472-509 | a batch fails exactly when it is non-empty and no key is set; otherwise it gives one sealed row per item, in order |
| InsightStore.RevealRows | src/lib/ai.ts:570-608 | decrypting fails exactly when there are rows and no key is set; otherwise it gives one item per row, in order |
| InsightStore.Newest | src/lib/ai.ts:551-563 | a read gives at most `limit` rows, all from the table and all owned by the reader; none without an identity |
| InsightStore.NewestAfterSave | src/lib/ai.ts:472-558 | a batch just saved comes back first, newest first, ahead of the older rows of the same reader |
| InsightStore.NewestIgnoresOthers | src/lib/ai.ts:557-560 | rows saved under another identity never show up in a read |
| InsightStore.InsightsReadBack | src/lib/ai.ts:465-579 | saved insights are the first a device reads back, newest first, with their contents decrypted |
| InsightStore.RevealedPrefix | src/lib/ai.ts:570-573 | rows written for a batch and read back newest first decrypt to the batch reversed |
| InsightStore.PatternsReadBack | src/lib/ai.ts:493-614 | saved patterns are the first a device reads back, newest first, with their descriptions decrypted |
| InsightStore.SealAssessment | src/lib/ai.ts:526-534 | the advice is encrypted exactly when there is some; the save fails exactly when advice must be encrypted without a key |
| InsightStore.RevealAssessment | src/lib/ai.ts:639-646 | a read fails exactly when advice is stored and no key is set; the level, factors and intervention flag come back unchanged |
| InsightStore.AssessmentReadBack | src/lib/ai.ts:521-654 | an assessment just saved is the latest its device reads back, with its advice decrypted, or undefined when it had none |
| InsightStore.InsightTables.constructor | src/lib/ai.ts:483-485 | the tables start empty |
| InsightStore.InsightStore.constructor | src/lib/ai.ts:44-49 | the store works over the given cipher, storage and tables |
| InsightStore.InsightStore.SaveInsights | src/lib/ai.ts:465-491 | an empty batch, a missing key or a refused insert leaves the table as it was, silently; otherwise the whole batch is appended; the other tables never change |
| InsightStore.InsightStore.SavePatterns | src/lib/ai.ts:493-519 | the same for patterns |
| InsightStore.InsightStore.SaveRiskAssessment | src/lib/ai.ts:521-544 | one row is appended unless the advice cannot be encrypted or the insert is refused; the other tables never change |
| InsightStore.InsightStore.GetInsights | src/lib/ai.ts:546-579 | without an identity the result is empty with no error; otherwise at most `limit` insights; a failure means no key is set |
| InsightStore.InsightStore.GetPatterns | src/lib/ai.ts:581-614 | the same for patterns |
| InsightStore.InsightStore.GetLatestRiskAssessment | src/lib/ai.ts:616-654 | without an identity the result is null; an assessment returned is the decryption of one of the reader's rows; a failure means no key is set |
| CopingTools.RevealUsage | src/lib/copingTools.ts:139-177 | a usage row reads back with its id, owner, clear fields and time unchanged; it fails exactly when it holds notes and no key is set |
| CopingTools.RevealUsages | src/lib/copingTools.ts:174-177 | a list decrypts exactly when every row does, to one record per row in order |
| CopingTools.MyUsageAppend | src/lib/copingTools.ts:161-164 | a new row joins its owner's rows at the end and nobody else's |
| CopingTools.UsageHistory | src/lib/copingTools.ts:155-167 | the history holds at most `limit` rows, each from the table and owned by the reader; none without an identity |
| CopingTools.UsageReadYourWrite | src/lib/copingTools.ts:130-164 | a usage just recorded heads its owner's history, ahead of the older rows |
| CopingTools.RatedRows | src/lib/copingTools.ts:190-219 | the rated uses are exactly those with a rating; a rating of a tool missing from the catalogue fails the summary |
| CopingTools.Tally | src/lib/copingTools.ts:214-236 | every entry of the accumulator has been counted at least once |
| CopingTools.TallySummarizes | src/lib/copingTools.ts:214-236 | the accumulator has exactly one entry per tool used, whose count, rating total and improvement total are those of that tool's uses |
| CopingTools.AddKeepsSummary | src/lib/copingTools.ts:214-236 | one step of the reduce keeps the accumulator a summary of the uses seen so far |
| CopingTools.AddShape | src/lib/copingTools.ts:216-226 | a step keeps each entry's tool, appends an entry for a tool seen first, and leaves the used tool with an entry |
| CopingTools.AddOnlyUsed | src/lib/copingTools.ts:216-226 | after a step every entry is still a tool that was used |
| CopingTools.AddCovers | src/lib/copingTools.ts:216-226 | after a step every tool used still has an entry |
| CopingTools.TotalsStep | src/lib/copingTools.ts:228-233 | one more use changes the count and totals of its own tool only: one use, its rating, and after − before when both moods are truthy |
| CopingTools.AddTotals | src/lib/copingTools.ts:228-233 | after a step each entry's count and totals are still its tool's own |
| CopingTools.NoUses | src/lib/copingTools.ts:216-226 | a tool nobody used has no count, ratings or improvement |
| CopingTools.TallyUses | src/lib/copingTools.ts:214-236 | the reduce run step by step yields the tally: one entry per tool used with that tool's count and totals |
| CopingTools.TallyStep | src/lib/copingTools.ts:214 | the reduce over one more use is one more step over the reduce of the earlier ones |
| CopingTools.Averaged | src/lib/copingTools.ts:239-243 | the average rating times the count is the rating total, and the average improvement times the count is the improvement total, over every use |
| CopingTools.PublishedAsWritten | src/lib/copingTools.ts:239-243 | as written, one record per entry of the accumulator, each the averages of that entry, and none of them names its tool |
| CopingTools.PublishedReports | src/lib/copingTools.ts:214-243 | the records as written are one per tool used, none naming its tool, each with that tool's number of rated uses, its average rating and its average improvement over those uses |
| CopingTools.Published | src/lib/copingTools.ts:239-243 | one record per tool, each the averages of that tool's entry and naming the tool |
| CopingTools.SealSections | src/lib/copingTools.ts:312-329 | sealing fails exactly when some section is non-empty and no key is set; a section is written exactly when it is non-empty |
| CopingTools.RevealSections | src/lib/copingTools.ts:279-363 | with a key set, decrypting the sections succeeds |
| CopingTools.RevealSealSections | src/lib/copingTools.ts:312-363 | a plan sealed and read back under one key is the plan less its empty sections |
| CopingTools.RevealPlan | src/lib/copingTools.ts:275-287 | the plan read keeps the row's id and owner, and decrypts whenever a key is set |
| CopingTools.EmptiedSectionSurvives | src/lib/copingTools.ts:312-341 | as written, a section left empty on update keeps the ciphertext already stored |
| CopingTools.PlanOf | src/lib/copingTools.ts:256-290 | no identity, no row or several rows give no plan and no error; a plan returned is the reader's only row |
| CopingTools.UpdateById | src/lib/copingTools.ts:338-343 | the update by id keeps every row's id, owner and creation time; the rows with that id get the sections the write rule gives and the new time; other rows are unchanged |
| CopingTools.UpdateKeepsMine | src/lib/copingTools.ts:338-343 | updating a row by id keeps which rows belong to whom |
| CopingTools.SavedSoleRow | src/lib/copingTools.ts:296-351 | saving over at most one plan leaves the principal exactly one row: the old row updated by its id, or the new row |
| CopingTools.RevealMergedText | src/lib/copingTools.ts:312-341 | one section updated as written and read back is the saved text when it is truthy, and the stored one otherwise |
| CopingTools.RevealMerged | src/lib/copingTools.ts:312-363 | a plan updated as written and read back takes each non-empty section of the save and keeps the others as they were |
| CopingTools.SaveThenGet | src/lib/copingTools.ts:251-370 | as written, from at most one plan, saving leaves the principal exactly one plan; reading it back gives the plan read before with each non-empty section of the save put in, or, with no plan before, the plan saved less its empty sections |
| CopingTools.ClearingSaveThenGet | src/lib/copingTools.ts:312-343 | with every section written, reading back after a save gives exactly the plan saved less its empty sections, so an emptied section is gone |
| CopingTools.ReadsSoleRow | src/lib/copingTools.ts:256-287 | a principal's only row is read back with its decrypted sections |
| CopingTools.FailedLookupInserts | src/lib/copingTools.ts:332-351 | when the existence check fails the save inserts one more row for the principal |
| CopingTools.CopingTables.constructor | src/lib/copingTools.ts:130-134 | usage and plans start empty over the given catalogue |
| CopingTools.CopingToolsService.constructor | src/lib/copingTools.ts:60 | the service works over the given cipher, storage and tables |
| CopingTools.CopingToolsService.RecordToolUsage | src/lib/copingTools.ts:103-148 | no identity fails; non-empty notes without a key fail; a refused insert fails; success comes exactly otherwise, and appends exactly the row with the given id, the principal as owner, the fields, the sealed notes and the time, returning the record with the notes given when non-empty; a failure writes nothing; other tables never change |
| CopingTools.CopingToolsService.GetToolUsageHistory | src/lib/copingTools.ts:150-183 | without an identity the history is empty; otherwise it holds at most `limit` records |
| CopingTools.CopingToolsService.GetToolEffectiveness | src/lib/copingTools.ts:185-249 | without an identity the summary is empty; otherwise a catalogue miss fails, and a summary is the records as written: one per tool used, none naming its tool, each with that tool's number of rated uses, average rating and average improvement |
| CopingTools.CopingToolsService.GetSafetyPlan | src/lib/copingTools.ts:251-294 | without an identity the plan is null with no error |
| CopingTools.CopingToolsService.SaveSafetyPlan | src/lib/copingTools.ts:296-370 | no identity, a sealing failure or a refused write leaves the plans as they were; otherwise the plan found is updated by id with only its non-empty sections written, or a row is inserted when none was found or the check failed, and the saved row is returned decrypted |
| CopingToolsPage.FilterTools | src/pages/CopingTools.tsx:57-77 | the shown tools keep the catalogue's order, and a tool is shown exactly when it fits the category ('all', 'crisis' or equal) and the search, which is empty or found case-insensitively in the name, the description or a tag |
| CopingToolsPage.FilterSteps | src/pages/CopingTools.tsx:60-74 | applying the category filter and then the search filter, each only when set, equals filtering once by both |
| CopingToolsPage.CategoryCountMatchesFilter | src/pages/CopingTools.tsx:93-101 | each button's count is the number of tools its category shows with an empty search |
| CopingToolsPage.EffectivenessFor | src/pages/CopingTools.tsx:79-85 | a tool's stats are found exactly when some record names the tool, and are that record's average and count |
| CopingToolsPage.LookupMissesAsWritten | src/lib/copingTools.ts:239-243 | as written, no tool card finds its statistics, because the records carry no tool id |
| CopingToolsPage.LookupFindsRatedTool | src/pages/CopingTools.tsx:79-85 | with the tool id in each record, a card finds stats exactly when its tool has rated uses; it then shows that tool's use count and mean rating |
| CopingToolsPage.LookupInSummary | src/pages/CopingTools.tsx:79-85 | the same for any accumulator that summarizes the uses |
| CopingToolsPage.RecordOfTool | src/lib/copingTools.ts:239-243 | a record naming a tool carries that tool's use count and mean rating |
| CopingToolsPage.InsertElements | src/pages/CopingTools.tsx:209 | placing a record adds exactly that record |
| CopingToolsPage.InsertSorted | src/pages/CopingTools.tsx:209 | placing a record keeps the list sorted by descending average |
| CopingToolsPage.SortByEffectiveness | src/pages/CopingTools.tsx:209 | the sort gives a permutation of the records ordered by descending average |
| CopingToolsPage.InsertStable | src/pages/CopingTools.tsx:209 | placing a record puts it ahead of the records of equal average and keeps theirs in order |
| CopingToolsPage.SortByEffectivenessStable | src/pages/CopingTools.tsx:209 | the sort is stable: records of equal average keep their order, as `Array.prototype.sort` does, which decides the three kept on ties |
| CopingToolsPage.MostEffective | src/pages/CopingTools.tsx:208-210 | the list holds three records, or all of them when there are fewer; they are sorted by descending average and all come from the records |
| CopingToolsPage.MostEffectiveAreBest | src/pages/CopingTools.tsx:208-210 | no record left out rates higher than one in the list |
| PeerSupport.BestIndex | src/lib/peerSupport.ts:213-229 | the pick is rated at least as highly as every candidate and is the first, in store order, with that rating |
| PeerSupport.ChosenIsBestAvailable | src/lib/peerSupport.ts:207-229 | nobody is chosen exactly when no supporter is active, below their match limit and of the requested level; otherwise the chosen one is such a supporter, rated at least as highly as all of them |
| PeerSupport.SupporterColumns | src/lib/peerSupport.ts:245-249 | the match names the supporter by user id when it has one, else by anonymous id, never both |
| PeerSupport.PreferencesJson | src/lib/peerSupport.ts:256 | the serialized preferences are an object that starts with the match type |
| PeerSupport.SealPreferences | src/lib/peerSupport.ts:255-257 | the preferences are stored exactly when a specializations array is given, and then decrypt and parse back to the whole preferences object; without a key that fails |
| PeerSupport.RevealMatch | src/lib/peerSupport.ts:268-272 | a match reads back with its id, parties, status, session count and last interaction unchanged; it fails only when it holds ciphertext and no key is set |
| PeerSupport.RevealNewMatch | src/lib/peerSupport.ts:232-272 | a new match reads back pending with no sessions, between the seeker and the chosen supporter, with the reason given when non-empty and the preferences object when specializations were given |
| PeerSupport.MyMatchRows | src/lib/peerSupport.ts:286-296 | without an identity no matches; otherwise only matches from the table in which the reader is seeker or supporter |
| PeerSupport.RevealMatches | src/lib/peerSupport.ts:303-306 | a list decrypts exactly when every match does, to one match per row in order |
| PeerSupport.NewMatchSeenByBoth | src/lib/peerSupport.ts:259-291 | a new match heads the match list of anyone in it, ahead of their older matches |
| PeerSupport.NewMatchMembers | src/lib/peerSupport.ts:237-249 | both the seeker and the chosen supporter are in the match created |
| PeerSupport.SetStatus | src/lib/peerSupport.ts:317-320 | the rows with the id get the new status and update time and nothing else changes |
| PeerSupport.StatusIsNotChecked | src/lib/peerSupport.ts:315-322 | the new status is written even where no card offers that transition, such as reactivating a cancelled or completed match |
| PeerSupport.Touch | src/lib/peerSupport.ts:368-371 | sending a message changes only the match's last interaction; its sessions and status stay as they were |
| PeerSupport.Opened | src/lib/peerSupport.ts:374-377 | a message read back has its content decrypted and its id, thread, sender and flags unchanged |
| PeerSupport.RevealMessage | src/lib/peerSupport.ts:374-377 | decrypting a message succeeds exactly when a key is set |
| PeerSupport.RevealMessages | src/lib/peerSupport.ts:397-400 | a non-empty list decrypts exactly when a key is set, one message per row in order |
| PeerSupport.Thread | src/lib/peerSupport.ts:387-392 | at most `limit` messages, all of the thread, the oldest first as an initial run of the thread |
| PeerSupport.SentMessageComesLast | src/lib/peerSupport.ts:359-392 | a message just sent comes last in its thread when the thread fits within the limit |
| PeerSupport.OtherThreadsUnchanged | src/lib/peerSupport.ts:359-392 | a message sent to one thread leaves every other thread as it was |
| PeerSupport.Flag | src/lib/peerSupport.ts:611-617 | the messages with the id become flagged with the reason, and nothing else changes |
| PeerSupport.FlagAgainOverwrites | src/lib/peerSupport.ts:611-617 | flagging twice is flagging once with the second reason |
| PeerSupport.MembershipOf | src/lib/peerSupport.ts:434-446 | a new membership is a regular member of the group, owned by the joiner |
| PeerSupport.MemberCountAppend | src/lib/peerSupport.ts:449-452 | a new membership raises the count of its own group by one and no other |
| PeerSupport.JoinedAsWritten | src/lib/peerSupport.ts:431-461 | as written, a join appends the membership whatever the group's size |
| PeerSupport.JoinOverCapacity | src/lib/peerSupport.ts:431-461 | as written, joining a full group leaves it with more members than it allows |
| PeerSupport.Joined | src/lib/peerSupport.ts:431-461 | with the capacity check, a join fails exactly when the group is full, and otherwise appends the membership |
| PeerSupport.JoinKeepsCapacity | src/lib/peerSupport.ts:431-461 | with the check, a join keeps every group within its capacity |
| PeerSupport.RevealFeedback | src/lib/peerSupport.ts:595-598 | feedback reads back with its id, match, author and rating unchanged, and without text when none was stored |
| PeerSupport.PeerTables.constructor | src/lib/peerSupport.ts:259-263 | every table starts empty |
| PeerSupport.PeerSupportService.constructor | src/lib/peerSupport.ts:673 | the service works over the given cipher, storage and tables |
| PeerSupport.PeerSupportService.FindPeerSupporter | src/lib/peerSupport.ts:197-278 | nobody available fails before identity; no identity fails; on success exactly the new pending match is appended and returned with the reason given; failures write nothing; other tables never change |
| PeerSupport.PeerSupportService.GetMyMatches | src/lib/peerSupport.ts:280-313 | without an identity the list is empty; otherwise one match per match the reader is in |
| PeerSupport.PeerSupportService.UpdateMatchStatus | src/lib/peerSupport.ts:315-337 | a refused update or an unknown id changes nothing; otherwise the match gets the new status whatever its current one, and is returned with it |
| PeerSupport.PeerSupportService.SendMessage | src/lib/peerSupport.ts:340-383 | no key fails first, then no identity; on success the message is appended with the sender's identity, the match's last interaction is updated, and the content comes back as sent; failures write nothing |
| PeerSupport.PeerSupportService.SendGroupMessage | src/lib/peerSupport.ts:500-537 | the same on the group table, with no match to update |
| PeerSupport.PeerSupportService.GetMessages | src/lib/peerSupport.ts:385-407 | at most `limit` messages, all of the match |
| PeerSupport.PeerSupportService.GetGroupMessages | src/lib/peerSupport.ts:539-561 | at most `limit` messages, all of the group |
| PeerSupport.PeerSupportService.JoinSupportGroup | src/lib/peerSupport.ts:431-461 | no identity fails; a refused insert fails; otherwise exactly the joiner's membership is appended, whatever the group's size; a failure writes nothing; other tables never change |
| PeerSupport.PeerSupportService.SubmitFeedback | src/lib/peerSupport.ts:563-604 | no identity fails; non-empty text without a key fails; a refused insert fails; success comes exactly otherwise, and appends exactly the row with the id, match, author, rating, sealed text, type and time, returned with the text given when non-empty |
| PeerSupport.PeerSupportService.FlagMessage | src/lib/peerSupport.ts:607-625 | the message table the flag names, and only that one, gets the message flagged with the reason |
| PeerCards.ActionGating | src/components/peer/PeerMatchCard.tsx:135-191 | accept and decline show exactly for a pending match seen by its supporter, message and complete exactly for an active one, rating exactly for a completed one; a cancelled match shows nothing, and the seeker's waiting notice comes with no buttons |
| PeerCards.StatusLabel | src/components/peer/PeerMatchCard.tsx:99 | the label is the status name with its first letter upper-cased and the rest kept |
| PeerCards.LabelLowersToName | src/components/peer/PeerMatchCard.tsx:99 | lower-casing the label gives the status name back |
| PeerCards.DayNames | src/components/peer/SupportGroupCard.tsx:57 | a single day stands for the list of that one day |
| PeerCards.ScheduleText | src/components/peer/SupportGroupCard.tsx:54-69 | 'Schedule TBD' shows exactly when there are no days; otherwise the text ends with ' at ' and the time, or 'Time TBD' |
| PeerCards.EndsWithTime | src/components/peer/SupportGroupCard.tsx:61-68 | a schedule text built from days ends with ' at ' and the time and is never 'Schedule TBD' |
| PeerCards.SingleDayAsList | src/components/peer/SupportGroupCard.tsx:57 | a single non-empty day is shown as the list of that day would be |
| PeerCards.CapacityBadges | src/components/peer/SupportGroupCard.tsx:71-72 | near capacity means 5·current ≥ 4·max; a full group of non-negative size is near capacity, but a negative size can be full and not near |
| PeerCards.GroupCardButton | src/components/peer/SupportGroupCard.tsx:134-151 | members get the chat button; others get a join button, enabled exactly when the group is not full and captioned accordingly |
| PeerCards.CardAgreesWithCheckedJoin | src/components/peer/SupportGroupCard.tsx:134-151 | when stored member counts agree with the memberships, the card offers the join exactly when the capacity-checked join would accept it |
| PeerCards.Toggle | src/components/peer/SupporterProfileForm.tsx:84-97 | a specialization is in the result exactly when it was not before, every other one is kept or left out as before, and a new one goes at the end |
| PeerCards.ToggleTwice | src/components/peer/SupporterProfileForm.tsx:84-97 | toggling a specialization on and off restores the list |
| PeerCards.LeadingDigits | src/components/peer/SupporterProfileForm.tsx:196-232 | the longest run of digits that starts the text |
| PeerCards.NumberOr | src/components/peer/SupporterProfileForm.tsx:196-232 | an unparsable field gives the fallback, and a non-zero fallback means the value is never 0 |
| PeerCards.MaxMatches | src/components/peer/SupporterProfileForm.tsx:232 | the capacity field never yields 0 |
| PeerCards.NumberFieldReadsDecimal | src/components/peer/SupporterProfileForm.tsx:196-232 | a positive number typed in reads back as itself; an empty field and '0' give the fallback |
| PeerCards.ParseDigits | src/components/peer/SupporterProfileForm.tsx:196-232 | a text of digits parses as its decimal value |
| PeerCards.AllDigitsLead | src/components/peer/SupporterProfileForm.tsx:196-232 | a text of digits is its own leading run |
| PeerCards.SupporterProfileForm.constructor | src/components/peer/SupporterProfileForm.tsx:15-25 | the draft starts at community level, 0 months, no specializations, 3 matches, active, and the supporter counts as new |
| PeerCards.SupporterProfileForm.Loaded | src/components/peer/SupporterProfileForm.tsx:48-56 | a stored profile replaces the draft and marks the supporter as not new; none changes nothing |
| PeerCards.SupporterProfileForm.ToggleSpecialization | src/components/peer/SupporterProfileForm.tsx:84-97 | only the specializations change, toggled |
| PeerCards.SupporterProfileForm.Save | src/components/peer/SupporterProfileForm.tsx:58-82 | a new supporter is created and an existing one updated; the supporter stays new only when it was new and the save failed; the draft is kept |
| PeerSupportPage.FilteredGroups | src/pages/PeerSupport.tsx:128-136 | the groups shown keep their order, and a group is shown exactly when the search is empty or found case-insensitively in its name or description, and the category is 'all' or its own |
| PeerSupportPage.NoFilterShowsAll | src/pages/PeerSupport.tsx:128-136 | an empty search in 'all' shows every group |
| PeerSupportPage.JoinMakesMember | src/pages/PeerSupport.tsx:360 | after a membership is written for a group, the membership test holds for it |
| PeerSupportPage.StatusFor | src/pages/PeerSupport.tsx:90-115 | the handlers ask for active, cancelled and completed, never pending |
| PeerSupportPage.ButtonsMakeOfferedTransitions | src/pages/PeerSupport.tsx:90-115 | every status button a card shows makes an offered transition, and each offered transition has its button on the supporter's card |
| PeerSupportPage.FindSupportRequest | src/pages/PeerSupport.tsx:65-73 | a request is made exactly when the prompt gives a non-empty reason; it is a one-time match with that reason and no specializations |
| PeerSupportPage.PageSendsNoPreferences | src/pages/PeerSupport.tsx:70-73 | the page's requests never store encrypted preferences |
| PeerSupportPage.JoinFailureReportedAsSuccess | src/pages/PeerSupport.tsx:117-126 | as written, a join refused for want of an identity shows the same success alert as an accepted one, where the intended alert tells them apart |
| PeerSupportPage.JoinAlert | src/pages/PeerSupport.tsx:117-126 | the success alert shows exactly when the join succeeded |
| PeerSupportPage.PeerSupportView.constructor | src/pages/PeerSupport.tsx:21-23 | no matches, the find-support tab, no alert |
| PeerSupportPage.PeerSupportView.HandleFindSupport | src/pages/PeerSupport.tsx:65-88 | an empty prompt changes nothing; a failure alerts that nobody is available; a match found is put at the front of the list, the matches tab opens and the found alert shows |
| PeerSupportPage.PeerSupportView.HandleJoinGroup | src/pages/PeerSupport.tsx:117-126 | as written, the success alert shows whatever the join returned; the matches and the tab are unchanged |
| ToolSession.Steps | src/components/tools/ToolSession.tsx:27 | the steps are the non-blank lines of the instructions, in order, none holding a line break |
| ToolSession.StepsOfLines | src/components/tools/ToolSession.tsx:27 | non-blank lines joined with line breaks give back exactly those lines as steps |
| ToolSession.FormatTime | src/components/tools/ToolSession.tsx:47-51 | the display is the whole minutes, a colon, and two characters of seconds |
| ToolSession.ParseFormatTime | src/components/tools/ToolSession.tsx:47-51 | the display loses nothing: the seconds can be read back from it |
| ToolSession.PadDigits | src/components/tools/ToolSession.tsx:50 | padding one or two digits to two gives digits, with a leading zero added to a single digit |
| ToolSession.Next | src/components/tools/ToolSession.tsx:67-73 | Next moves to the following step before the last one and otherwise completes the session; it never moves past the last step |
| ToolSession.Prev | src/components/tools/ToolSession.tsx:75-79 | Previous moves back exactly when not at the first step and never changes completion |
| ToolSession.NextPrevInverse | src/components/tools/ToolSession.tsx:67-79 | Previous undoes Next before the last step, and Next undoes Previous after the first |
| ToolSession.PressesToComplete | src/components/tools/ToolSession.tsx:67-73 | from the first step, press k shows step k, and a session of n steps completes on press n (on press 1 when it has none) |
| ToolSession.Ticked | src/components/tools/ToolSession.tsx:34-40 | a second goes down by one and reaches zero exactly from one or less |
| ToolSession.CountdownAfter | src/components/tools/ToolSession.tsx:32-41 | after s ticks the countdown has gone down by s seconds and never below zero |
| ToolSession.Session.constructor | src/components/tools/ToolSession.tsx:18-27 | the first step, stopped, the full duration, no moods, no rating, no notes, not completed |
| ToolSession.Session.SetMoodBefore | src/components/tools/ToolSession.tsx:117-120 | only the mood before changes |
| ToolSession.Session.SetMoodAfter | src/components/tools/ToolSession.tsx:210-213 | only the mood after changes |
| ToolSession.Session.SetEffectiveness | src/components/tools/ToolSession.tsx:231-234 | only the rating changes |
| ToolSession.Session.SetActive | src/components/tools/ToolSession.tsx:53-59 | start and pause change only whether the countdown runs; step, time, completion, moods, rating and notes are kept |
| ToolSession.Session.Reset | src/components/tools/ToolSession.tsx:61-65 | reset stops the countdown at the full duration on the first step, keeping completion, moods, rating and notes |
| ToolSession.Session.NextStep | src/components/tools/ToolSession.tsx:67-73 | the step and completion move as Next says; the countdown, moods, rating and notes are untouched |
| ToolSession.Session.PrevStep | src/components/tools/ToolSession.tsx:75-79 | the step moves as Previous says; the countdown, moods, rating and notes are untouched |
| ToolSession.Session.Tick | src/components/tools/ToolSession.tsx:29-45 | while running with time left a tick takes one second off and stops the countdown exactly when it reaches zero; otherwise nothing changes; the step, completion, moods, rating and notes are untouched |
| ToolSession.Session.Complete | src/components/tools/ToolSession.tsx:81-95 | a usage record is handed on exactly when a rating is given; it names the tool, is completed, carries the rating, each mood when it is truthy and nothing otherwise (`mood || undefined`), the notes when non-empty and nothing otherwise, and a duration used within the tool's duration that adds up with the time remaining to the whole |
| CheckIn.ParseTriggers | src/pages/CheckIn.tsx:83-85 | a list is produced exactly when the trigger text is non-empty; its items are non-empty, trimmed and free of commas |
| CheckIn.ParseJoinedTriggers | src/pages/CheckIn.tsx:83-85 | trimmed, non-empty triggers without commas, typed with commas between them, are read back as that list |
| CheckIn.SeparatorsOnlyGiveEmptyList | src/pages/CheckIn.tsx:83-85 | a text of commas and white space alone gives an empty list rather than no list |
| CheckIn.BlankPiece | src/pages/CheckIn.tsx:84 | a piece split from a text of commas and white space is white space alone |
| CheckIn.PieceCharInText | src/pages/CheckIn.tsx:84 | every character of a split piece occurs in the text |
| CheckIn.QuickSubmission | src/pages/CheckIn.tsx:14-63 | the quick form submits exactly a mood on the 1–10 scale, as a quick check-in with nothing else |
| CheckIn.DetailedSubmission | src/pages/CheckIn.tsx:18-96 | the detailed form submits exactly when the mood and every scale given are on the 1–10 scale, as a detailed check-in carrying every field with the triggers parsed |
| CheckIn.SubmittedScalesOnScale | src/pages/CheckIn.tsx:14-26 | every check-in the page submits has its scales on the 1–10 scale |
| CheckIn.PageView | src/pages/CheckIn.tsx:113-166 | a spinner while loading; today's summary exactly when the lookup found an entry; the forms when none was found or the lookup failed |
| Text.Split | src/pages/CheckIn.tsx:84 | splitting on a one-character separator gives at least one piece, none holding the separator, that join back to the text |
| Text.SplitJoin | src/pages/CheckIn.tsx:84 | splitting undoes joining pieces that hold no separator |
| Text.TrimEmptyIffBlank | src/pages/CheckIn.tsx:84 | a text trims to empty exactly when it is all white space |
| Text.ToLower | src/pages/CopingTools.tsx:70-72 | lower-casing keeps the length and maps each character |
| Text.ContainsIffOccurs | src/pages/CopingTools.tsx:70-72 | the substring test holds exactly when the query occurs at some position |
| Text.UpperFirst | src/components/peer/SupportGroupCard.tsx:65 | only the first character is upper-cased and the length is kept |
| Text.Decimal | src/components/tools/ToolSession.tsx:50 | a number prints as at least one decimal digit, exactly one below ten |
| Text.ParseDecimalInverts | src/components/tools/ToolSession.tsx:50 | the digits printed read back as the number |
| Text.PadTwo | src/components/tools/ToolSession.tsx:50 | padding keeps a text of two or more characters and left-fills a shorter one with zeros to two |
| Seqs.Filter | src/pages/CopingTools.tsx:62-73 | filtering keeps exactly the elements that pass, in their order |
| Seqs.FilterFilter | src/pages/CopingTools.tsx:60-74 | two filters in a row are one filter by both tests |
| Seqs.OptionalFilters | src/pages/CopingTools.tsx:60-74 | applying each of two filters only when it is set equals filtering once by both |


## Left out

- Default arguments are required parameters in the model: the `limit` of `getMoodEntries` (30), `getToolUsageHistory` (20), `getInsights` and `getPatterns` (10), `getMessages` and `getGroupMessages` (50); `messageType = 'text'` of `sendMessage` and `sendGroupMessage`; `feedbackType = 'supporter'` of `submitFeedback`; `isGroupMessage = false` of `flagMessage`. A caller passes the default explicitly.
- The AI call (`callOpenAI`) and its prompts: its answer is a parameter of each analysis, and an absent key or failed call is the parameter's "no answer" value.
- `Math.sqrt` in the correlation: its value is the `root` parameter. Where the gate is stated, it is stated without roots.
- A zero spread in the correlation gives NaN in JavaScript. The branch the code takes then is modelled in `Insights.SleepDirectionAsWritten` and used by `Insights.SleepPattern`, but the NaN strength such a pattern carries and the formatted percentage are not.
- SleepStrengthAtLeastGate: states the bound of 0.3 only over a positive spread, because over a zero spread the strength in the code is NaN, which the model does not represent.
- The increments that land on an inherited value for the trigger keys 'constructor' and '__proto__' are not modelled: in JavaScript they write `count` and `totalMood` onto `Object` and `Object.prototype`. The model keeps only that such a key never gets an entry.
- FindPeerSupporter: the filter `.lt('current_matches', supabase.raw('max_concurrent_matches'))` (src/lib/peerSupport.ts:212) is modelled as the comparison it names, a supporter with fewer current matches than their maximum. Whether the client library offers `raw` is outside the model; if it does not, the query fails on every call and the operation always returns its error.
- Texts built with `toFixed` (percentages and the average mood in the trigger description) are left out. So are the exact wording of descriptions outside the branches that choose them, and `console` logging.
- `sortedByImpact` in `analyzeTriggerPatterns` (src/lib/ai.ts:216-218) is computed and never used.
- Rows with equal `created_at` are ordered by insertion in the model; the database leaves their order open.
- PeerSupport.BestIndex: supporters with equal `average_rating` are taken in store order, so the first of them wins; `.order('average_rating', { ascending: false })` (src/lib/peerSupport.ts:213) leaves their order open, so the source may pick any of them.
- JavaScript's `\s` and Unicode case mapping are narrowed to ASCII white space and ASCII letters.
- The hosted database is reduced to filtering, ordering and limiting rows. Realtime channels, row-level security, SQL errors other than an outright refusal, and the `getMoodStreak` errors other than "no row" are not modelled.
- `Promise.all` concurrency, and the race between `createAnonymousSession`'s remote sign-out and its local writes: calls are modelled one after another.
- Remote profile calls in the auth context are not modelled: `signUp`, `createUserProfile`, `updatePrivacyLevel`, `deleteAccount` and the profile that `upgradeToEmail` creates. `loadUserProfile` is modelled only through its outcome.
- Service operations outside the modelled core are not modelled: `getCopingTools`, `getCopingTool` and `getCrisisResources` of the coping-tools service, and `becomePeerSupporter`, `updateSupporterProfile`, `getSupporterProfile`, `getSupportGroups` and `getMyGroups` of the peer-support service. The profile form's save is modelled by the call it routes to.
- `crypto.randomUUID`, `CryptoJS.lib.WordArray.random` and the clock: they are parameters.
- AES and SHA-256 are replaced by the stand-ins described above. Key strength and ciphertext format are not modelled.
- Rendering, navigation, loading flags, the check-in summary card, the progress bar of the tool session and the Start button's gating on the mood before are not modelled. Score buttons are modelled as `requires` on the 1–10 (moods) and 1–5 (rating) scales the buttons offer.
- `ToolSession.Session.Complete` returns the usage record rather than calling `recordToolUsage` and `onComplete`. What the service does with the record is modelled by `CopingTools.CopingToolsService.RecordToolUsage`.
- Error objects are modelled as a `ServiceError` datatype, not as their messages.

## Findings

| source | as written | input that shows it | evidently intended | confidence | as-written member | corrected member |
|---|---|---|---|---|---|---|
| src/lib/mood.ts:241-242 | today's window ends with `.lt` on the day's last millisecond | a check-in at 23:59:59.999 is not found | the whole day, last millisecond included | not executed | Mood.LastMillisecondMissed | Mood.WholeDayCovers |
| src/lib/copingTools.ts:312-340 | the update writes only the sections that are non-empty | a plan saved with its warning signs cleared keeps the old warning signs | an emptied section is cleared | not executed | CopingTools.EmptiedSectionSurvives | CopingTools.ClearingSaveThenGet |
| src/lib/copingTools.ts:214-243 | the summary records carry no `tool_id`, and the page looks them up by it | any rated use: the tool card finds no statistics | each record names its tool | not executed | CopingToolsPage.LookupMissesAsWritten | CopingToolsPage.LookupFindsRatedTool |
| src/lib/peerSupport.ts:431-461 | joining inserts a membership with no capacity check | a group at `max_members` accepts one more member | a full group refuses the join | not executed | PeerSupport.JoinOverCapacity | PeerSupport.JoinKeepsCapacity |
| src/pages/PeerSupport.tsx:117-126 | the failure alert sits in a `catch`, but the service returns its error | a join with no identity, or a refused insert, shows "Successfully joined" | the failure alert for a failed join | not executed | PeerSupportPage.JoinFailureReportedAsSuccess | PeerSupportPage.JoinAlert |
| src/lib/ai.ts:248 | the bullet pattern holds a mis-encoded bullet character | an AI line starting with '• ' keeps its bullet | a leading '-' or '•' is stripped | not executed | TriggerAnalysis.BulletKeptAsWritten | TriggerAnalysis.StripBullet |
| src/lib/ai.ts:286-298 | a zero spread gives NaN, which passes the weak-correlation gate | five check-ins with the same sleep score are reported as a negative correlation | no pattern without a defined correlation | not executed | Insights.UniformSleepReportedNegative | Insights.SleepDirection |
