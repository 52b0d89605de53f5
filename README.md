# WeChat-Work notifier and subscription tracker, modelled in Dafny

This project models the core of a repository that holds two small services.

- **The notifier** (Node.js) stores WeChat-Work application credentials under a random code
  and relays messages sent to that code. Registration has two phases: a callback (token and
  EncodingAESKey) first, the application secret, agent id and recipients second. A legacy
  path does both at once. Secrets are kept encrypted with AES-256-CBC in a SQLite table, and
  access tokens are cached per (corpid, secret) pair.
- **The subscription tracker** (Python/Flask) keeps subscriptions in a JSON file. It computes
  each plan's expiry from its start date and period, rolling a lapsed recurring plan forward.
  It counts statistics, renders an index page and a dashboard, and reminds the administrator
  on Telegram, WeCom or NotifyX. A single administrator account is taken from the settings.

Each core source file has one Dafny module:

| module | models |
|---|---|
| `SecretCipher` | src/core/crypto.js |
| `ConfigTable` | src/core/database.js, as a class over the row sequence of the `configurations` table |
| `WeChatClient` | src/core/wechat.js, as a class with the token cache as a map field |
| `Notifier` | src/services/notifier.js, as a class over the table, the cipher and the client |
| `Subscriptions` | app/models/subscription.py |
| `SubscriptionStore` | app/services/subscription_service.py, as a class over the saved records |
| `Notifications` | app/services/notification_service.py |
| `AdminTrend`, `AdminViews` | app/routes/admin.py |
| `AdminUser` | app/models/user.py |

Supporting modules model the library behaviour the core relies on:

- `Wrappers` holds Option and Result.
- `Text` models `split`, `join`, `replace` and `int()`.
- `Hex` models Node's lenient hex codec.
- `Calendar` models the proleptic Gregorian calendar of Python's `datetime`, with `isoformat`,
  `fromisoformat`, `strptime('%Y-%m-%d')` and `timedelta` arithmetic.

Everything the code gets from outside is a parameter:

- the clock (`now`), the random codes and IVs;
- the AES cipher, as a pair of functions with an inverse-pair predicate;
- the HTTP replies of WeChat, Telegram and NotifyX;
- the callback crypto library;
- the settings dictionary.

## Model

| member | source | states |
|---|---|---|
| Hex.Encode | src/core/crypto.js:22 | two lower-case hex digits per byte |
| Hex.Decode | src/core/crypto.js:33 | lenient decode never yields more than half the text's length in bytes |
| Hex.DecodeEncode | src/core/crypto.js:22-35 | decoding inverts encoding |
| Hex.DecodeEncodeThen | src/core/crypto.js:35 | decoding reads an encoding completely and then goes on with whatever text follows it |
| Hex.DecodeLength | src/core/crypto.js:33 | a well-formed even-length hex text decodes completely |
| Hex.EncodeHasNoColon | src/core/crypto.js:22 | hex output never contains the ':' envelope separator |
| SecretCipher.PadEnd | src/core/crypto.js:9 | `padEnd`: keeps `s`, then pads with `c` up to length `n` |
| SecretCipher.DeriveKey | src/core/crypto.js:9 | the derived key has exactly 32 characters |
| SecretCipher.DeriveKeyShape | src/core/crypto.js:9 | a key of at least 32 characters contributes its first 32; a shorter one is a prefix padded with '0'; a missing key behaves as '' |
| SecretCipher.Utf8LengthBounds | src/core/crypto.js:9 | the UTF-8 buffer is at least as long as the string, and equally long iff it is ASCII |
| SecretCipher.DerivedKeyUsable | src/core/crypto.js:9-18 | the key makes a 32-byte AES key iff it is ASCII |
| SecretCipher.CryptoService.Encrypt | src/core/crypto.js:15-27 | fails iff the key is unusable, always with the one generic error; the envelope splits on ':' into hex(iv) and hex(ciphertext) |
| SecretCipher.CryptoService.Decrypt | src/core/crypto.js:30-42 | every failure is the one generic error; success needs a usable key, two pieces, a 16-byte IV and ciphertext hex whose JavaScript length (UTF-16 code units) is even, and an odd such length always fails |
| SecretCipher.OddCiphertextRejected | src/core/crypto.js:35 | a valid envelope with one extra hex digit on the ciphertext fails with the generic error |
| SecretCipher.AstralTailIgnored | src/core/crypto.js:35 | a valid envelope followed by one character beyond U+FFFF (two UTF-16 units) still decrypts to the text, since the length stays even and the hex reading stops before that character |
| SecretCipher.AstralTailPiece | src/core/crypto.js:35 | the ciphertext hex with such a character appended has even JavaScript length and still decodes to the ciphertext bytes |
| SecretCipher.NewCryptoService | src/core/crypto.js:7-12 | the service holds a 32-character key and the given cipher |
| SecretCipher.DecryptEncrypt | src/core/crypto.js:15-42 | with an inverse-pair cipher and a usable key, `decrypt(encrypt(t)) == t` |
| SecretCipher.EnvelopeIvPart | src/core/crypto.js:17-22 | the part before the first ':' is 32 lower-case hex digits |
| SecretCipher.GenerateKey | src/core/crypto.js:45-47 | 32 random bytes give 64 lower-case hex digits that decode back to them |
| ConfigTable.CompleteFieldsWhereMeaning | src/core/database.js:165-166 | the five-value query selects a row iff all values are equal, a NULL token matching only a NULL token |
| ConfigTable.CallbackWhereMeaning | src/core/database.js:235 | the callback query selects enabled rows with equal corpid and non-NULL equal token |
| ConfigTable.Find | src/core/database.js:105-113 | the first row the predicate selects, and none before it; None iff no row is selected |
| ConfigTable.Get | src/core/database.js:105-113 | `db.get`: a selected row from the table, or nothing when no row is selected |
| ConfigTable.Changed | src/core/database.js:125-134 | an UPDATE never changes id, code or created_at |
| ConfigTable.UpdateWhere | src/core/database.js:125-134 | an UPDATE keeps the number of rows |
| ConfigTable.UpdateKeepsOrdered | src/core/database.js:46-56 | an update that does not clash keeps rowid order and both unique constraints |
| ConfigTable.KeepsTripleNeverClashes | src/core/database.js:56 | an update that leaves the row's (corpid, agentid, touser) alone cannot break the triple constraint |
| ConfigTable.UpdateTouchesOnlyMatch | src/core/database.js:125-134 | rows with another code are unchanged, id/code/created_at of the match are kept, and an absent code is a no-op |
| ConfigTable.Survivors | src/core/database.js:185 | INSERT OR REPLACE keeps exactly the rows that do not conflict with the new one |
| ConfigTable.ReplaceInPlace | src/core/database.js:185-205 | the result holds the new row and non-conflicting old rows only |
| ConfigTable.SurvivorsOrdered | src/core/database.js:185 | deleting conflicting rows keeps the constraints |
| ConfigTable.ReplaceInPlaceOrdered | src/core/database.js:184-195 | a row that reuses a rowid stays in order and keeps the constraints |
| ConfigTable.ReplaceWithoutIdIsSurvivors | src/core/database.js:185 | with a fresh rowid, in-place replacement is plain deletion of conflicts |
| ConfigTable.InsertOrReplaceOrdered | src/core/database.js:184-206 | INSERT OR REPLACE keeps rowid order and both unique constraints |
| ConfigTable.CallbackRow | src/core/database.js:184-209 | the written row has flag 1, the new code, corpid, token and key, and empty secret, agentid 0 and description '' |
| ConfigTable.CallbackRowPlaceholder | src/core/database.js:196-209 | with no enabled (corpid, token) row, a new row gets the next rowid and touser `"callback_" + code[0..8]` |
| ConfigTable.CallbackRowReuses | src/core/database.js:190-195 | with a matching enabled row, the written row keeps its id and created_at and resets touser to '' |
| ConfigTable.ConfigurationTable.constructor | src/core/database.js:41-70 | the table starts empty |
| ConfigTable.ConfigurationTable.SaveConfiguration | src/core/database.js:73-100 | a taken code or triple fails and changes nothing; otherwise exactly one row is appended with the next rowid |
| ConfigTable.ConfigurationTable.GetConfigurationByCode | src/core/database.js:103-116 | the one row with that code, or nothing iff no row has it |
| ConfigTable.ConfigurationTable.GetConfigurationByFields | src/core/database.js:148-160 | the one row holding that triple, or nothing |
| ConfigTable.ConfigurationTable.GetConfigurationByCompleteFields | src/core/database.js:163-175 | a row matching all five values (NULL token only to NULL), or nothing when none does |
| ConfigTable.ConfigurationTable.GetCallbackConfiguration | src/core/database.js:233-245 | an answer the query allows (`AnswersCallback`): an enabled row with that corpid and token, and nothing only when none exists |
| ConfigTable.ConfigurationTable.Update | src/core/database.js:125-144 | a clash on the triple fails and changes nothing; otherwise the table is `UpdateWhere` of the old one |
| ConfigTable.ConfigurationTable.UpdateConfiguration | src/core/database.js:119-145 | overwrites exactly the eight listed columns of the row with that code |
| ConfigTable.ConfigurationTable.UpdateCallbackConfiguration | src/core/database.js:248-266 | changes corpid, callback_token and the encrypted key only |
| ConfigTable.ConfigurationTable.CompleteConfiguration | src/core/database.js:269-287 | changes secret, agentid, touser and description only |
| ConfigTable.ConfigurationTable.SaveCallbackConfiguration | src/core/database.js:178-230 | the table becomes INSERT OR REPLACE of `CallbackRow`, keeping its constraints |
| WeChatClient.CacheKeyInjective | src/core/wechat.js:16 | for corpids without '_', the cache key determines both credentials |
| WeChatClient.CacheKeyCollision | src/core/wechat.js:16 | a corpid containing '_' lets two credential pairs share one entry |
| WeChatClient.ExpiryAfter | src/core/wechat.js:39-42 | expiry is `now + (expires_in or 7200)*1000 - 300000`, an absent or zero expires_in counting as 7200 |
| WeChatClient.Fetched | src/core/wechat.js:24-46 | errcode ≠ 0 throws and leaves the cache unchanged; success overwrites the entry with the token and its expiry |
| WeChatClient.TokenStep | src/core/wechat.js:13-51 | a cached entry that expires strictly after now answers without a fetch; otherwise the fetch decides |
| WeChatClient.FetchedThenFresh | src/core/wechat.js:19-43 | after a successful fetch, the entry answers a call at the fetch time |
| WeChatClient.BuildMessageBody | src/core/wechat.js:57-64 | msgtype 'text', the agentid, the message as content; a list of recipients is '\|'-joined, a string passed through |
| WeChatClient.Tag | src/core/wechat.js:143-147 | each member becomes (userid, name, department name), in order |
| WeChatClient.Dedup | src/core/wechat.js:140-149 | deduplication never lengthens the list |
| WeChatClient.DedupIds | src/core/wechat.js:140-149 | exactly the userids it was given are kept |
| WeChatClient.DedupUnique | src/core/wechat.js:136-149 | each userid appears at most once |
| WeChatClient.DedupIsFirsts | src/core/wechat.js:138-150 | the result is the first appearance of each userid, in first-seen order |
| WeChatClient.DedupSnoc | src/core/wechat.js:141-148 | one more member is appended iff its userid is new |
| WeChatClient.WeChatService.constructor | src/core/wechat.js:7-10 | the base defaults to the public API, and the cache starts empty |
| WeChatClient.WeChatService.GetToken | src/core/wechat.js:13-51 | a request is made iff the entry is not fresh; the result and the new cache are `TokenStep` of the old cache |
| WeChatClient.WeChatService.SendMessage | src/core/wechat.js:54-84 | POSTs the body to `/cgi-bin/message/send?access_token=…`; errcode ≠ 0 fails with the errmsg and errcode; errcode 0 returns the reply whole (msgid, invaliduser, …) |
| WeChatClient.WeChatService.GetAllUsers | src/core/wechat.js:132-157 | a failed department list fails; otherwise the result is the dedup of all tagged members, or the first failing member list's error |
| WeChatClient.AddMembers | src/core/wechat.js:140-149 | the `forEach` keeps the list equal to the dedup of everything visited and the set equal to its userids |
| WeChatClient.AddOne | src/core/wechat.js:141-148 | one callback step preserves the list and set invariant |
| WeChatClient.FailurePersists | src/core/wechat.js:138-156 | once a department's member list fails, the whole walk fails with that error |
| Notifier.FormatTouserSplits | src/services/notifier.js:261 | the '\|'-joined recipients split back into the list they came from |
| Notifier.ComposeMessage | src/services/notifier.js:237 | with a truthy title, the message is title, newline, content; otherwise just the content |
| Notifier.ComposeMessageSplits | src/services/notifier.js:237 | a one-line title is recovered by splitting at the first newline |
| Notifier.RegistrationError | src/services/notifier.js:28-34 | no error iff corpid, token and key are truthy and the key is 43 units long |
| Notifier.CompletionError | src/services/notifier.js:86-89 | no error iff code, secret, agentid and touser are truthy |
| Notifier.LegacyError | src/services/notifier.js:129-140 | the four required fields, then, with the callback enabled, a token and a 43-unit key |
| Notifier.TokenOrNull | src/services/notifier.js:151 | `token \|\| null`: present iff truthy |
| Notifier.LegacySubmission | src/services/notifier.js:158-203 | the stored values: '\|'-joined touser, description or '', token or null, flag 1/0, key sealed iff given |
| Notifier.Patched | src/services/notifier.js:288-311 | corpid, agentid and touser fall back on falsy; description, token and flag on undefined only; secret and key re-sealed only when given |
| Notifier.AckUrl | src/services/notifier.js:313-316 | the answer has callbackUrl iff the new flag or the stored one is set |
| Notifier.DisablingUpdateReportsCallbackUrl | src/services/notifier.js:314 | turning the callback off still reports its URL |
| Notifier.View | src/services/notifier.js:257-271 | the projection: touser split on '\|', the flag as `=== 1`, token and callbackUrl iff the stored flag is truthy |
| Notifier.Prepare | src/services/notifier.js:332-349 | a missing or disabled row is refused first, then a missing token or key; success means the key decrypted and the instance built (lines 372-389 repeat these steps) |
| Notifier.Service.constructor | src/services/notifier.js:13-17 | empty table and cache; the cipher is keyed from ENCRYPTION_KEY or the development default |
| Notifier.Service.CreateCallbackConfiguration | src/services/notifier.js:27-78 | the guard fails before any store access; whichever enabled (corpid, token) row the lookup answers keeps its code with message '回调配置已更新' and no row is added; otherwise a fresh code with `/api/callback/<code>` |
| Notifier.Service.CompleteConfiguration | src/services/notifier.js:85-117 | an unknown code fails and changes nothing; otherwise the four columns are written and both URLs returned |
| Notifier.Service.CreateConfiguration | src/services/notifier.js:124-217 | an equal row is updated in place and keeps its code; otherwise a fresh code is inserted; callbackUrl iff the callback is enabled |
| Notifier.Service.SealLegacy | src/services/notifier.js:158-191 | the seals fail iff the key is unusable; the values are those of `LegacySubmission` |
| Notifier.Service.SealPatch | src/services/notifier.js:288-298 | fails iff a seal is asked for with an unusable key; the values are those of `Patched` |
| Notifier.Service.UpdateConfiguration | src/services/notifier.js:282-318 | an unknown code fails and changes nothing; otherwise the row gets `Patched`, or a triple clash fails |
| Notifier.Service.GetConfiguration | src/services/notifier.js:253-274 | nothing iff the code is unknown; otherwise the `View` of its row |
| Notifier.Service.SendNotification | src/services/notifier.js:226-246 | an unknown code fails before decrypting or calling the platform; otherwise it sends `ComposeMessage` to the stored agentid and touser and returns the platform's reply whole |
| Notifier.Service.HandleCallbackVerification | src/services/notifier.js:329-358 | refused iff `Prepare` fails; otherwise the library's verification answer as it is |
| Notifier.Service.HandleCallbackMessage | src/services/notifier.js:369-411 | refused when `Prepare` fails; a failed decrypt is returned unchanged; success iff the message parsed |
| Calendar.DaysInMonth | app/models/subscription.py:83 | month lengths lie between 28 and 31 |
| Calendar.DaysBeforeYearSucc | app/models/subscription.py:77 | consecutive years differ by that year's length |
| Calendar.DaysBeforeYearMono | app/models/subscription.py:77 | later years start after earlier years end |
| Calendar.DaysBeforeMonthMono | app/models/subscription.py:77 | later months start after earlier months end |
| Calendar.OrdinalInYear | app/models/subscription.py:77 | an ordinal lies within its year |
| Calendar.OrdinalMonotone | app/models/subscription.py:90 | the ordinal is strictly monotone in calendar order |
| Calendar.OrdinalBounds | app/models/subscription.py:77 | every date lies in 1..MaxOrdinal; only the first and last dates reach the ends |
| Calendar.OrdinalInjective | app/models/subscription.py:77 | distinct dates have distinct ordinals |
| Calendar.NextDay | app/models/subscription.py:77 | the next day has the next ordinal |
| Calendar.PrevDay | app/models/subscription.py:77 | the previous day has the previous ordinal |
| Calendar.DaysLater | app/models/subscription.py:77 | k days later, defined iff it stays within year 9999 |
| Calendar.DaysEarlier | app/models/subscription.py:77 | k days earlier, defined iff it stays within year 1 |
| Calendar.AddDays | app/models/subscription.py:77 | `+ timedelta(days=k)` is defined iff the ordinal stays in range, and moves the ordinal by k (line 92 takes the same step) |
| Calendar.TimeOfDayBounds | app/models/subscription.py:111 | the time of day lies within one day |
| Calendar.DaysBetweenSign | app/models/subscription.py:111 | `(a - b).days` is negative iff a is earlier than b |
| Calendar.DaysBetweenMidnights | app/routes/admin.py:27-29 | between midnights, `.days` is the difference of the ordinals |
| Calendar.NewDateTime | app/models/subscription.py:84-86 | `datetime(...)` succeeds iff every field is in range |
| Calendar.FormatDate | app/models/subscription.py:102 | `YYYY-MM-DD` has ten characters |
| Calendar.FormatClock | app/models/subscription.py:102 | `HH:MM:SS` has eight characters |
| Calendar.FormatIso | app/models/subscription.py:102 | isoformat has 19 characters, or 26 with a fraction; 'T' is at index 10 and not before it |
| Calendar.ParseIso | app/models/subscription.py:73 | a parsed datetime is valid |
| Calendar.ParseYmd | app/routes/admin.py:26 | a parsed date is valid |
| Calendar.FixedDigits | app/models/subscription.py:102 | a fixed-width numeral is all digits and reads back as its value |
| Calendar.ReadFormatDate | app/models/subscription.py:102 | the date text reads back as the date |
| Calendar.ReadFormatClock | app/models/subscription.py:102 | the clock text reads back as the time |
| Calendar.ParseFormatIso | app/models/subscription.py:102 | `fromisoformat(t.isoformat()) == t` when read back as line 73 reads a start date |
| Calendar.ParseYmdFormatDate | app/routes/admin.py:26 | strptime of the date part gives the date |
| Text.Split | app/routes/admin.py:23 | `split` on one character gives at least one piece, none holding the separator |
| Text.SplitNoSeparator | app/routes/admin.py:22-23 | without the separator, split gives the whole string |
| Text.SplitAfterPiece | app/routes/admin.py:23 | splitting `a + sep + b` gives `a` and then the pieces of `b` |
| Text.SplitJoin | src/services/notifier.js:261 | split undoes join for separator-free pieces (the join is line 99) |
| Text.Utf16Length | src/services/notifier.js:32 | JavaScript length counts one or two units per character, and equals the character count iff no character lies beyond U+FFFF |
| Text.Utf16LengthAppend | src/core/crypto.js:35 | the JavaScript length of a concatenation is the sum of the lengths |
| Text.JoinSplit | src/services/notifier.js:99 | join undoes split for every string |
| Text.SplitOnce | app/services/notification_service.py:159 | `split(pat, 1)`: None iff pat does not occur; otherwise the text around the first occurrence |
| Text.ReplaceAllAbsent | app/services/notification_service.py:122 | replace leaves a string without the pattern unchanged |
| Text.ReplaceAllSkipsPrefix | app/services/notification_service.py:122 | text before the first occurrence passes through unchanged |
| Text.ReplaceAllBySplitOnce | app/services/notification_service.py:122 | replace is text before the first occurrence, then rep, then replace on the rest |
| Text.ReplaceAbsentChar | app/services/notification_service.py:122 | replacing an absent character changes nothing |
| Text.RemoveChar | app/services/notification_service.py:160 | `replace('*', '')` removes every occurrence and keeps every other character |
| Text.RemoveCharAppend | app/services/notification_service.py:160 | removal distributes over concatenation |
| Text.RemoveCharAbsent | app/services/notification_service.py:160 | removing an absent character changes nothing |
| Text.NatToString | app/routes/admin.py:88 | a decimal numeral is non-empty and all digits |
| Text.DigitsOfNat | app/routes/admin.py:88 | a numeral reads back as its value |
| Text.Pad2 | app/routes/admin.py:88 | `{:02d}` has at least two characters |
| Text.Pad2Value | app/routes/admin.py:88 | below 100 it is exactly two digits reading back as the value |
| Text.ParseInt | app/services/notification_service.py:120 | `int(s)` succeeds only on non-empty text |
| Text.ParseIntToString | app/services/notification_service.py:120 | `int(str(i)) == i` |
| Text.Fixed | app/models/subscription.py:102 | a fixed-width numeral has the width and only digits |
| Text.FixedValue | app/models/subscription.py:102 | a fixed-width numeral reads back as its value |
| Subscriptions.New | app/models/subscription.py:8-27 | a zero period_value becomes 1 and a zero reminder_days 7; the unit is never empty; absent flags become True; name and dates are kept (`from_dict`, lines 49-66, passes the same keys) |
| Subscriptions.FromDictToDict | app/models/subscription.py:29-66 | `from_dict(to_dict(s)) == s` for a normal record, that is one whose `or`-defaulted fields are truthy |
| Subscriptions.ConstructedRoundTrips | app/models/subscription.py:8-66 | every constructed record survives the round trip |
| Subscriptions.ReloadRestoresDefaults | app/models/subscription.py:19-21 | a zero count does not survive a reload |
| Subscriptions.MonthIndexBefore | app/models/subscription.py:80-82 | a smaller month index is an earlier date |
| Subscriptions.MonthStep | app/models/subscription.py:80-84 | floor-division carry, day clamped to the target month with the leap rule, time dropped; a year outside 1..9999 raises |
| Subscriptions.YearStepLimitIsMonthLength | app/models/subscription.py:86 | the year step's clamp is the month's true length in the target year |
| Subscriptions.YearStep | app/models/subscription.py:86 | year plus k with the day clamped, time dropped; a year out of range raises |
| Subscriptions.DayStep | app/models/subscription.py:77 | plus k days with the time kept; overflow raises |
| Subscriptions.Step | app/models/subscription.py:76-86 | a step yields a valid datetime; any other unit leaves the date unchanged |
| Subscriptions.StepMoves | app/models/subscription.py:76-86 | a moving step goes forward for positive counts and backward for negative ones |
| Subscriptions.Roll | app/models/subscription.py:90-100 | the roll-forward yields a valid datetime |
| Subscriptions.RollReachesNow | app/models/subscription.py:90 | with recurrence and a moving step, the loop ends at or after now |
| Subscriptions.RollIsFirstEndAfterNow | app/models/subscription.py:90-100 | with recurrence and a moving step, the result is the expiry itself when it is not past, else one step after a date before now: the first period end not before now |
| Subscriptions.RollNotBackwardForPositive | app/models/subscription.py:90-100 | a positive period never ends before where it started |
| Subscriptions.NegativePeriodRaises | app/models/subscription.py:90-100 | a negative period on a lapsed recurring plan always raises |
| Subscriptions.NotRecurringKeepsFirstPeriod | app/models/subscription.py:90 | without recurrence the first period is returned even when past |
| Subscriptions.JanuaryEndSteps | app/models/subscription.py:80-84 | 31 January plus one month is 28 February of a common year |
| Subscriptions.FebruaryEndSteps | app/models/subscription.py:94-98 | 28 February plus one month is 28 March |
| Subscriptions.ClampingCompounds | app/models/subscription.py:94-98 | rolling from the clamped expiry gives 28 March, not 31 March |
| Subscriptions.LeapDayYearStep | app/models/subscription.py:86 | 29 February maps to 28 February in a common target year and stays in a leap one |
| Subscriptions.ExpiryOf | app/models/subscription.py:68-102 | None iff start_date is empty |
| Subscriptions.CalculateExpiryDate | app/models/subscription.py:68-102 | the loop computes `ExpiryOf` |
| Subscriptions.DaysRemaining | app/models/subscription.py:104-111 | 0 without an expiry; otherwise the day count is negative iff the expiry is before now |
| Subscriptions.FormatIsoHasNoZ | app/models/subscription.py:109 | a stored expiry has no 'Z' for the replace to touch |
| Subscriptions.ParseStoredFormatIso | app/models/subscription.py:109 | the stored expiry text reads back as the expiry |
| Subscriptions.CalculatedExpiryIsNotPast | app/models/subscription.py:90-111 | for a recurring positive plan, the remaining days of the calculated expiry are never negative |
| Subscriptions.StalledLoopNeverExits | app/models/subscription.py:90-100 | as written, a step that does not move a past expiry loops for ever |
| Subscriptions.ZeroPeriodStalls | app/models/subscription.py:90-100 | a zero period, which an update can set (see Findings), leaves a midnight expiry where it is on every known unit |
| SubscriptionStore.ZeroPeriodUpdateHangs | app/services/subscription_service.py:95-96 | an update with `period_value` 0 on a recurring monthly plan started in the past keeps the count 0 and stalls the written loop for ever, where the model's expiry is the first period |
| Subscriptions.WeeklyPlanHangs | app/models/subscription.py:90-100 | a weekly plan with a past start never leaves the written loop |
| Subscriptions.LoopAsWrittenAgrees | app/models/subscription.py:90-100 | wherever a step moves the date, the written loop ends with the model's result |
| SubscriptionStore.Reload | app/services/subscription_service.py:6-27 | a reloaded record is normal, keeps its id, name and dates, and a normal record is unchanged |
| SubscriptionStore.LoadAll | app/services/subscription_service.py:6-27 | each saved record is reloaded, in order |
| SubscriptionStore.FindId | app/services/subscription_service.py:83-84 | the first position holding the id, or None iff there is none (lines 154-155 search the same way) |
| SubscriptionStore.Without | app/services/subscription_service.py:136 | the records without that id, and only those |
| SubscriptionStore.WithoutAppend | app/services/subscription_service.py:136 | the filter distributes over concatenation, so the kept records stay in order |
| SubscriptionStore.WithoutShrinks | app/services/subscription_service.py:136-139 | the length drops iff some record has the id; otherwise the list is the same |
| SubscriptionStore.Draft | app/services/subscription_service.py:45-57 | the new record has the fresh id, the name and start date, and no expiry yet |
| SubscriptionStore.Patched | app/services/subscription_service.py:90-114 | the name always changes; the start date and the seven keyed fields keep their value when their key is absent; id, created_at and expiry are kept |
| SubscriptionStore.Revised | app/services/subscription_service.py:116-120 | expiry recomputed iff the start date is set; then the update time |
| SubscriptionStore.AfterUpdate | app/services/subscription_service.py:77-130 | the file keeps its length and every record an id |
| SubscriptionStore.KeyIndex | app/services/subscription_service.py:192 | the position of a key among the counters, or None iff absent |
| SubscriptionStore.SumUpdate | app/services/subscription_service.py:193 | bumping a counter changes the sum by the difference |
| SubscriptionStore.SumSnoc | app/services/subscription_service.py:196 | a new counter adds its count to the sum |
| SubscriptionStore.CountsSum | app/services/subscription_service.py:190-196 | the counts sum to the number of records |
| SubscriptionStore.CountsKeys | app/services/subscription_service.py:190-196 | the keys are exactly the labels that occur |
| SubscriptionStore.CountsDistinct | app/services/subscription_service.py:190-196 | each key appears once |
| SubscriptionStore.CountsMultiplicity | app/services/subscription_service.py:190-196 | each count is its key's number of occurrences |
| SubscriptionStore.CountsMeaning | app/services/subscription_service.py:190-196 | type_stats and payment_stats: distinct keys, true multiplicities, summing to total_count (payment_stats, lines 219-224, counts the same way) |
| SubscriptionStore.BucketsCoverActive | app/services/subscription_service.py:227-242 | soon + normal + expired equals active_count |
| SubscriptionStore.TypeLabels | app/services/subscription_service.py:191 | one label per record |
| SubscriptionStore.PaymentLabels | app/services/subscription_service.py:220 | one label per record |
| SubscriptionStore.Tally | app/services/subscription_service.py:190-196 | the counting loop computes `Counts` (used for lines 219-224 too) |
| SubscriptionStore.Tick | app/services/subscription_service.py:233-238 | one record adds exactly one to the buckets |
| SubscriptionStore.BucketsStep | app/services/subscription_service.py:228-238 | inactive records are skipped; a raising record ends the count; an active one is ticked |
| SubscriptionStore.CountBuckets | app/services/subscription_service.py:227-238 | the expiry loop computes `ExpiryBuckets` |
| SubscriptionStore.SubscriptionStore.constructor | app/services/subscription_service.py:6-27 | no file: nothing saved |
| SubscriptionStore.SubscriptionStore.Loaded | app/services/subscription_service.py:6-27 | every loaded record is normal and has an id |
| SubscriptionStore.SubscriptionStore.GetSubscription | app/services/subscription_service.py:29-35 | the first loaded record with the id, or None iff none |
| SubscriptionStore.SubscriptionStore.CreateSubscription | app/services/subscription_service.py:37-75 | an empty name or missing start fails and changes nothing; otherwise exactly one record is appended, with expiry computed |
| SubscriptionStore.SubscriptionStore.UpdateSubscription | app/services/subscription_service.py:77-130 | '订阅不存在' and '名称不能为空' change nothing; otherwise only the first match is revised |
| SubscriptionStore.SubscriptionStore.DeleteSubscription | app/services/subscription_service.py:132-147 | an id no record has is not found and changes nothing; otherwise the file becomes the loaded records without that id |
| SubscriptionStore.SubscriptionStore.ToggleSubscriptionStatus | app/services/subscription_service.py:149-167 | sets is_active and updated_at of the first match only; an unknown id is not found |
| SubscriptionStore.SubscriptionStore.GetStatistics | app/services/subscription_service.py:184-252 | the counters of type_stats and payment_stats, the expiry buckets and the two totals, with the sums that relate them |
| Notifications.Prefer | app/services/notification_service.py:37-38 | the first key when set, otherwise the second; empty iff both are (and line 148) |
| Notifications.SendTelegram | app/services/notification_service.py:30-67 | no request without token or chat id; success iff the reply says ok |
| Notifications.WecomAccessToken | app/services/notification_service.py:69-93 | no request without corp id or secret; a token iff HTTP ok, errcode 0 and a token |
| Notifications.WecomContentPlain | app/services/notification_service.py:122 | a message without '*' or blank lines is sent unchanged |
| Notifications.WecomContentThreeNewlines | app/services/notification_service.py:122 | the replacement does not rescan: three newlines become two |
| Notifications.SendWecom | app/services/notification_service.py:95-139 | no request without corp id, secret or agent id; success iff two requests and errcode 0; touser defaults to '@all' |
| Notifications.NotifyxParts | app/services/notification_service.py:159-161 | the title has no '*'; the content is the part after the first blank line, or '无内容' |
| Notifications.SendNotifyx | app/services/notification_service.py:141-188 | no request without a token; success iff status 'queued' |
| Notifications.SendNotification | app/services/notification_service.py:9-28 | dispatches on NOTIFICATION_TYPE, defaulting to telegram; an unknown type fails without a request |
| Notifications.DeliveryCallCount | app/services/notification_service.py:9-188 | at most two requests, and at most one outside WeCom |
| Notifications.JudgeMeaning | app/services/notification_service.py:203-241 | inactive skipped; due within the window reminded; lapsed recurring renewed and reminded only within the window; reminders never exceed the window |
| Notifications.JudgeWithoutRenewal | app/services/notification_service.py:235-241 | without renewal, reminded iff 0 ≤ days ≤ reminder_days |
| Notifications.JudgeRenewal | app/services/notification_service.py:215-234 | only a lapsed renewable plan is renewed, with the calculated expiry; it is reminded iff its new day count fits the window |
| Notifications.JudgeWithinWindow | app/services/notification_service.py:229-235 | a reminder's days never exceed reminder_days |
| Notifications.JudgeNotNegative | app/services/notification_service.py:215-234 | after a forward-moving renewal the reminder's days are not negative |
| Notifications.SelectedAreDue | app/services/notification_service.py:203-241 | reminders are of active plans within their window; at most one reminder and one renewal per plan |
| Notifications.RenewalWritesRenewed | app/services/notification_service.py:247 | writing a renewal back recomputes the same expiry |
| Notifications.Replay | app/services/notification_service.py:243-248 | the file after the renewals keeps an id on every record |
| Notifications.UnitWord | app/services/notification_service.py:264 | units other than day, month and year are shown as they are |
| Notifications.PeriodInfo | app/services/notification_service.py:265-266 | empty iff the period value or unit is falsy |
| Notifications.AmountInfo | app/services/notification_service.py:269-270 | empty iff the amount is not positive |
| Notifications.NotesLine | app/services/notification_service.py:277-278 | empty iff there are no notes |
| Notifications.EntryShape | app/services/notification_service.py:272-280 | each entry ends in a blank line, and starts with ⚠️ iff it expires today |
| Notifications.MessageAppends | app/services/notification_service.py:256-280 | entries follow the reminders' order |
| Notifications.NotifyxSplitsHeader | app/services/notification_service.py:159-161 | on NotifyX the header becomes the title and the rest the content |
| Notifications.TitleWithoutStars | app/services/notification_service.py:160 | the header title loses its '*' |
| Notifications.NotifyxSplitsReminder | app/services/notification_service.py:159-161 | a reminder message reaches NotifyX as the title and the entries |
| Notifications.BuildMessage | app/services/notification_service.py:254-280 | the `message +=` loop computes `ReminderMessage` |
| Notifications.Examine | app/services/notification_service.py:204-241 | one loop body computes `Judge` |
| Notifications.CombinePrepend | app/services/notification_service.py:203-241 | a raising verdict ends the selection; otherwise its reminder and renewal come first |
| Notifications.SelectDue | app/services/notification_service.py:203-241 | the selection loop computes `Select` |
| Notifications.ApplyRenewals | app/services/notification_service.py:243-248 | each renewal is saved through update_subscription, in order |
| Notifications.Notify | app/services/notification_service.py:250-288 | nothing is sent iff there are no reminders; otherwise the reminder message on the configured channel |
| Notifications.CheckExpiringSubscriptions | app/services/notification_service.py:190-294 | a raising record yields False and writes nothing; otherwise renewals are written and reminders sent |
| AdminTrend.TrendMonth | app/routes/admin.py:86-87 | the month index stays in 1..12 |
| AdminTrend.TrendConsecutive | app/routes/admin.py:85-87 | the trend starts at the current month, and each month is followed by the next |
| AdminTrend.TrendMonthsDistinct | app/routes/admin.py:85-87 | twelve consecutive months are different months |
| AdminTrend.MonthLabelParts | app/routes/admin.py:88 | before the '-' is the year, after it the two-digit month |
| AdminTrend.MonthLabelInjective | app/routes/admin.py:88-90 | different months get different keys of monthly_expenses |
| AdminTrend.TrendLabelsDistinct | app/routes/admin.py:85-90 | the twelve labels are different texts |
| AdminTrend.TrendPrefix | app/routes/admin.py:85-89 | n iterations give n labels |
| AdminTrend.TrendPrefixAt | app/routes/admin.py:85-89 | label k of the prefix is month k's label |
| AdminTrend.TrendLabels | app/routes/admin.py:85-90 | twelve labels, label i for month i, pairwise distinct |
| AdminViews.TruncateAtT | app/routes/admin.py:22-25 | a 'T'-free prefix; unchanged without 'T', otherwise cut right before the first 'T' |
| AdminViews.TruncatePieces | app/routes/admin.py:23 | the first split piece is the prefix before the first 'T' |
| AdminViews.FirstPiece | app/routes/admin.py:23 | with the first 'T' at k, the first piece is `s[..k]` |
| AdminViews.TruncatedIsoIsDate | app/routes/admin.py:22-26 | an isoformat expiry, cut at its 'T', is its date text and parses to its date |
| AdminViews.DateOf | app/routes/admin.py:20-29 | the cut expiry text, and days left equal to the ordinal difference; no expiry raises (lines 95-103 do the same) |
| AdminViews.UnitLabel | app/routes/admin.py:32-38 | units other than day, week, month and year are shown as they are |
| AdminViews.PeriodUnitLabel | app/routes/admin.py:38 | the value, a space, then the unit label |
| AdminViews.RowOf | app/routes/admin.py:18-38 | a row exists iff the date parses; it carries the cut expiry and the days left |
| AdminViews.Index | app/routes/admin.py:13-40 | every row when all parse; otherwise the error of the first record that fails |
| AdminViews.SurveyLength | app/routes/admin.py:93-103 | a successful survey has one entry per record |
| AdminViews.SurveyAt | app/routes/admin.py:93-103 | entry i is record i's dated form |
| AdminViews.SurveySnoc | app/routes/admin.py:93-103 | one more record either fails the survey or adds its entry |
| AdminViews.SurveyFailurePersists | app/routes/admin.py:93-103 | a failure part way is the outcome of the whole survey |
| AdminViews.StatusPartition | app/routes/admin.py:131-173 | each record is in exactly one status bucket; active = soon + later |
| AdminViews.SoonListLength | app/routes/admin.py:131-146 | len(expiring_soon) is the soon count, all with 0 ≤ days_left ≤ 7 |
| AdminViews.CountersSnoc | app/routes/admin.py:131-173 | one more record updates the counters as the if-chain does |
| AdminViews.Tally | app/routes/admin.py:93-173 | the loop's counters are those of the survey, or its first error |
| AdminViews.BuildDashboard | app/routes/admin.py:44-203 | total, active, soon and expired counts over the survey; the status values sum to the total; 12 trend labels, label i being the i-th month from today's (`TrendLabel`), pairwise distinct |
| AdminUser.Lookup | app/models/user.py:30-32 | `config.get(key)`: present iff the key is |
| AdminUser.Admin | app/models/user.py:33-37 | the account always has id '1' |
| AdminUser.Get | app/models/user.py:12-23 | a user iff the id is '1' and ADMIN_USERNAME is non-empty; name and password from the settings |
| AdminUser.Authenticate | app/models/user.py:25-38 | a user iff both values equal the settings; it is ('1', username, password verbatim) |
| AdminUser.ConfiguredPairOnly | app/models/user.py:30-32 | with both settings present, exactly that pair is accepted |
| AdminUser.MissingSettingsAcceptEmptyForm | app/models/user.py:30-32 | with neither setting, a form without either field is accepted |
| AdminUser.AuthenticatedUserReloads | app/models/user.py:17-37 | an accepted login reloads iff its name is non-empty |

## Left out

- SQLite connection setup, table creation and file paths are left out. The table is an
  in-memory row sequence in rowid order. The JSON file is the `saved` sequence, and reading it
  back is `Reload`.
- The AES-256-CBC cipher and UTF-8 encoding are a pair of functions passed in. Only their
  inverse-pair property is assumed. Node's error for a non-32-byte key is modelled as an
  unusable key.
- src/core/wechat-callback.js is not part of this model. Building the callback instance, URL
  verification, message decryption and XML parsing are the `CallbackCrypto` functions passed in.
- HTTP requests, Express/Flask routing and templates, login decorators, APScheduler and all
  logging are left out. Each request is the `calls` list a function returns, and each reply is
  a parameter. The empty-content check of the notify route is HTTP-layer code.
- The clock, `uuid4()`, `crypto.randomBytes` and `isoformat()` of "now" are parameters.
  The Python operations use one `now` value for all their reads of the clock. `getToken`'s two
  reads of `Date.now()` (src/core/wechat.js lines 19 and 42) are kept apart as the parameters
  `now` and `later`.
- Floating-point money is left out of the model:
  `amount` is a real, the monthly and yearly cost sums and `monthly_stats`, `trend_data`
  values and `period_costs` are not computed, and the amount in the reminder text is
  rendered by a `showAmount` parameter.
- Timezones are not modelled. The 'Z' → '+00:00' replacement is modelled only for the texts
  the program writes itself, which contain no 'Z' (`FormatIsoHasNoZ`).
- Calendar.ParseIso: accepts the three naive forms `isoformat()` writes, not the other forms
  `fromisoformat` accepts (offsets, week dates, other separators).
- Calendar.ParseYmd: accepts four-digit years and two-digit months and days only. It does not
  accept strptime's one-digit fields or surrounding spaces.
- Text.ParseInt: accepts an optional sign and ASCII digits only. Python's `int()` also allows
  whitespace, underscores and non-ASCII digits.
- The `int()` conversions of request values in `create_subscription` and
  `update_subscription` (subscription_service.py lines 50, 52, 96 and 102) are not modelled:
  the request's counts arrive as integers, so a non-numeric value and its ValueError are out
  of scope.
- SubscriptionStore.SubscriptionStore.UpdateSubscription: where the source's roll-forward loop
  never ends (a zero `period_value` set by the update, or a unit other than day, month and
  year, on a past expiry; see Findings), the model returns with the expiry the step reaches
  instead of hanging.
- SubscriptionStore.SubscriptionStore.CreateSubscription: for an unknown unit on a past start
  the model returns where the source hangs, as for updates.
- ConfigTable.ConfigurationTable.GetCallbackConfiguration: the function answers with the first
  matching row in rowid order, one of the rows SQLite may return for a query without ORDER BY.
  Its contract, and the `found` parameter of Notifier.Service.CreateCallbackConfiguration,
  allow any matching row.
- ConfigTable.CallbackRow: the id and created_at reused by `saveCallbackConfiguration` come from
  the first matching row in rowid order; with several enabled rows sharing (corpid, token),
  SQLite's `LIMIT 1` may take another. The notifier writes this row only when none matches.
- JSON `null` is not distinguished from an absent key. Every optional field of a request is an
  Option, and `get(key, default)` on a present `null` is not modelled.
- app/services/config_service.py is not part of this model. The settings are a map passed in,
  and the fallback to a default file is not modelled.
- `get_all_subscriptions` turning a read exception into an empty list is not modelled. The
  read always succeeds.
- AdminViews.BuildDashboard: the cost loop (lines 105-128 and 148-170) and the 12 values of
  `monthly_expenses` are left out with the floats. Only the labels and the integer counts are
  modelled.
- Concurrency is left out. Each operation is one atomic step on the table, the token cache or
  the saved list. Two interleavings in the source are not modelled: load-change-save of the JSON
  file by concurrent requests (app/services/subscription_service.py), and the scheduled
  `check_expiring_subscriptions` writing renewals while an admin edit is in flight. In both, a
  later save can overwrite an earlier one.
- public/script.js, src/api/routes.js, server.js, app/routes/api.py, app/routes/auth.py,
  app/services/auth_service.py, app/__init__.py and run.py are not part of this model.

## Findings

| source | as written | input that shows it | evidently intended | confidence | as-written member | corrected member |
|---|---|---|---|---|---|---|
| app/models/subscription.py:90-100 | the roll-forward `while expiry_date < now and self.recurring` only moves the date for the units day, month and year; for any other unit (such as 'week', which the index page's unit labels include) the body leaves `expiry_date` unchanged and the loop never ends, so the scheduled check's renewal (notification_service.py line 219) and creating or updating such a plan (subscription_service.py lines 61 and 118) hang | a recurring subscription with `period_unit = "week"`, `period_value = 1` and a start date in the past (`WeeklyPlanHangs`: start 2024-01-01) | some finite expiry; one reasonable correction, the one modelled, stops rolling when a step cannot advance the date and returns the first-period expiry; app/routes/admin.py:114-115 and 162-170 treat 'week' as 7 × period_value days, so a 7-day step is another | not executed | Subscriptions.StalledLoopNeverExits | Subscriptions.Roll |
| app/services/subscription_service.py:95-96 | `update_subscription` sets `period_value = int(...)` without the constructor's `or 1`, so a count of 0 reaches `calculate_expiry_date` (line 118); a step of 0 days, months or years leaves a past expiry where it is and the roll-forward loop of app/models/subscription.py:90-100 never ends | updating a recurring monthly plan started 2024-01-01 with `period_value = 0`, checked on 2024-06-01 (`ZeroPeriodUpdateHangs`) | a count of 0 refused or defaulted to 1 as on creation; the model stops rolling as for the unknown unit | not executed | SubscriptionStore.ZeroPeriodUpdateHangs | Subscriptions.Roll |
