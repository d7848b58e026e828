# smsq in Dafny

smsq forwards the SMS messages and incoming calls of an Android phone to a Telegram chat.
The phone encrypts each record and posts it to the server, which looks up the chat bound to
the phone's key, applies two daily limits and sends the rendered message through the bot.

This project models the parts of smsq whose behaviour is decided by their own code, and
proves what that code promises:

- **Server (go/smsq/main.go, go/smsq/config.go).**
  - The users table and the stored midnight.
  - The subscription lifecycle: `start`, `stop`, `keyForChat`, `chatForKey`, and the
    proof-of-work check on keys.
  - `deliver`, with its received limit, per-chat delivered limit, one-time over-limit
    notice, counter updates and message rendering.
  - The daily reset in `periodic`.
  - The request checks of `handleV1SMS` and `handleRetired`.
  - The bot's commands, including the admin commands `stat`, `broadcast`, `direct` and
    `limit`, and `ourID`.
  - The dispatch of Telegram updates and the main loop, as a sequence of events.
  - Configuration loading: `parseEnv`, `checkConfig` and the order of steps in `parseConfig`.
- **Android client.**
  - The constants, including the resend back-off table.
  - The typed preference store.
  - The `Sms` record.
  - The URL builder.
  - The call receiver that turns a ringing phone into a record.

Every module is a set of pure functions over immutable values. The outside world enters as
parameters:

- SHA-256, a function from bytes to a 32-byte digest.
- The timestamp formatter, a function of timestamp and offset.
- JSON decoding, base64 and hybrid decryption, partial functions returning `Option`.
- The outcome of each Telegram send: sent, blocked by the user (HTTP 403), or failed.
- The current midnight.
- The process environment, as a map.
- Whether the private key file parses.
- The device's API level, permission, SIM list, clock and time-zone offset.

Go's `strconv.ParseInt`, `strconv.FormatInt`, `strings.SplitN`, `strings.Index`,
`strings.Join`, `html.EscapeString` and `utf8.ValidString` are modelled exactly, as far as
the program's inputs reach them. `strings.ToLower` is modelled only on the letters A to Z
and the two non-ASCII letters Go folds into ASCII (U+0130 and U+212A); every other
character is kept as it is, so `Commands.Lower("É")` is "É". That is exact for what the
program does with the result, which is to compare it with ASCII command names, and for
nothing else.

The users table is a sequence of rows in scan order. A query that reads one row (`query.Next()`)
gets the first match. `chat_id` is unique, as the upsert's `on conflict(chat_id)` target
requires, and every operation is proved to keep it unique. The same key may appear on
several rows. The insert of `start` is assumed to leave `deleted` false and the three
counters at 0, that is, the schema's defaults are taken to be 0 for those columns; the
schema itself is not part of this model.

Modules: `Basics`, `Strconv`, `Utf8`, `Html`, `ServerConfig`, `Database`, `Telegram`,
`Subscription`, `Delivery`, `DailyReset`, `Commands`, `Api`, `Server` (server side);
`ClientConstants`, `Preferences`, `ClientSms`, `Url`, `CallReceiver` (client side).

## Model

| member | source | states |
|---|---|---|
| Strconv.ParseInt | go/smsq/config.go:69 | a parsed value lies in the 64-bit range; a range error carries the clamp of the sign's side, as Go returns it |
| Strconv.ParseIntMeaning | go/smsq/config.go:69 | parsing succeeds exactly on an optional sign followed by digits whose value fits in 64 bits, and then yields that value |
| Strconv.ParseIntRejects | go/smsq/main.go:290-294 | parsing fails exactly on the strings that denote no 64-bit integer, which is when `direct` and `limit` report an invalid argument |
| Strconv.ParseDigitsMeaning | go/smsq/main.go:309-318 | the unsigned digit loop succeeds exactly on all-digit strings whose value fits in 64 bits, and returns that value |
| Strconv.NatDigitsValue | go/smsq/main.go:425 | the decimal digits printed for a number denote that number |
| Strconv.FormatParseRoundTrip | go/smsq/main.go:425 | every 64-bit integer printed in decimal parses back to itself |
| Strconv.FormatInt | go/smsq/main.go:449-454 | a printed integer is non-empty, starts with `-` exactly when it is negative, is otherwise all digits, and has no leading zero (its round trip is `FormatParseRoundTrip`) |
| Strconv.FormatIntChars | go/smsq/main.go:581 | a printed integer contains no character other than digits and `-`, so no space or colon |
| Strconv.SplitFirst | go/smsq/main.go:285-289 | splitting in at most two parts gives one part (the whole string) exactly when the separator is absent, else the parts around its first occurrence |
| Strconv.SplitFirstOf | go/smsq/main.go:304-308 | splitting `w + sep + rest` when `w` holds no separator gives back `w` and `rest` |
| Strconv.IndexOf | go/smsq/main.go:385 | the index found holds the character and none before it does; nothing is found exactly when the character is absent |
| Strconv.JoinTwo | go/smsq/main.go:596 | joining two strings puts the separator between them |
| Strconv.JoinThree | go/smsq/main.go:607 | joining three strings puts the separator between each neighbouring pair |
| Utf8.Encode | go/smsq/main.go:213 | the UTF-8 bytes of a key are between one and four bytes per character |
| Utf8.Valid | go/smsq/main.go:533-537 | bytes accepted as UTF-8 never include 0xC0, 0xC1 or anything above 0xF4, the bytes no UTF-8 text contains (that every encoded string is accepted is `EncodeValid`) |
| Utf8.EncodeCharValid | go/smsq/main.go:533-537 | prepending one encoded scalar to valid UTF-8 keeps it valid |
| Utf8.EncodeValid | go/smsq/main.go:533-537 | the byte form of every decoded string passes the validity check |
| Html.Escape | go/smsq/main.go:590-593 | escaping never shortens a string and leaves only the empty string empty |
| Html.UnescapeEscape | go/smsq/main.go:606 | decoding the five entities after escaping gives the original text back |
| Html.EscapeInjective | go/smsq/main.go:606 | distinct texts escape to distinct strings |
| Html.EscapeNoMarkup | go/smsq/main.go:590-606 | no `<`, `>`, `'` or `"` survives escaping |
| Html.EscapeNoTagOpen | go/smsq/main.go:602-606 | an escaped string holds no `<`, so user text cannot open a tag |
| ServerConfig.ParseEnv | go/smsq/config.go:55-72 | `DOMAIN` sets both domains to the same value, `BOT_TOKEN` the token, `ADMIN_ID` the admin id as `ParseInt` leaves it; absent variables and all other fields leave the configuration as it was |
| ServerConfig.FirstUnsetMeaning | go/smsq/config.go:74-106 | the reference search returns an unset field with every field before it set, or nothing exactly when all are set |
| ServerConfig.CheckConfig | go/smsq/config.go:74-106 | an accepted configuration has every required field set, and an error names a required field that is unset (which one is `CheckConfigNamesFirstUnset`) |
| ServerConfig.CheckConfigNamesFirstUnset | go/smsq/config.go:75-104 | the check's error is "configure " plus the JSON name of the first unset field in the fixed order listen_address, bot_token, timeout_seconds, admin_id, db_path, api_domain, webhook_domain, private_key, received_limit, delivered_limit |
| ServerConfig.CheckConfigAcceptsIffAllSet | go/smsq/config.go:74-106 | the configuration is accepted exactly when none of the ten required fields is empty or zero |
| ServerConfig.CheckConfigOptionalFields | go/smsq/config.go:81-102 | negative timeout and limits pass, and `debug` and `challenges` never matter |
| ServerConfig.BadAdminIdRejected | go/smsq/config.go:67-86 | an `ADMIN_ID` that is not a number becomes 0 and is rejected with "configure admin_id" |
| ServerConfig.ParseConfig | go/smsq/config.go:41-53 | loading succeeds exactly when decoding succeeded, the check passes after the environment is applied, and the key parses; a decode error wins over a check failure, which wins over a key failure |
| ServerConfig.EnvSuppliesMissingFields | go/smsq/config.go:45-48 | a file lacking the token and the domains fails the check on its own but loads once the environment supplies them |
| Database.Apply | go/smsq/main.go:580 | no SET clause changes a row's chat id |
| Database.Update | go/smsq/main.go:571 | an update changes every matching row by its SET clause and no other row, and keeps chat ids unique |
| Database.CountWhere | go/smsq/main.go:428-436 | a count is zero exactly when no row matches, and never exceeds the table size |
| Database.Select | go/smsq/main.go:191-196 | a lookup returns the first matching row, or nothing exactly when no row matches |
| Database.OnlyRowOfChat | go/smsq/main.go:251-253 | with chat ids unique, two rows with the same chat id are the same row |
| Database.CountChatAtMostOne | go/smsq/main.go:321-325 | an update by chat id affects at most one row, and exactly one when the chat has a row |
| Database.UpdateChatIsUpdateAt | go/smsq/main.go:571 | updating by a chat id that has a row changes that row alone |
| Database.CounterUpdatesKeepAccounts | go/smsq/main.go:636 | counter updates never change which chats exist, their keys, deleted flags or limits |
| Database.SumUpdateAt | go/smsq/main.go:438-446 | changing one row changes a column sum by that row's difference |
| Database.DeliveringAtMostActive | go/smsq/main.go:428-436 | "active users" in the statistics never exceed "users" |
| Subscription.KeyForChat | go/smsq/main.go:187-197 | a key is found exactly when the chat has a row that is not deleted, and it is that row's key |
| Subscription.ChatForKey | go/smsq/main.go:199-210 | a chat is found exactly when some row that is not deleted holds the key, and the result is that row's chat and daily limit |
| Subscription.UserExists | go/smsq/main.go:218-220 | a chat is an existing user exactly when it has a row that is not deleted |
| Subscription.UserExistsIffKey | go/smsq/main.go:218-220 | a chat counts as an existing user exactly when `keyForChat` finds its key |
| Subscription.ChatForKeyHasKey | go/smsq/main.go:199-210 | the chat found for a key has that key as its own |
| Subscription.KeyForChatFindsChat | go/smsq/main.go:187-210 | a chat's key always leads back to some active chat |
| Subscription.LeadingZerosMeaning | go/smsq/main.go:212-216 | the key test on the double digest holds exactly when its first twelve bits are zero, that is, the first two bytes read as a number below 16 |
| Subscription.CheckKey | go/smsq/main.go:212-216 | a key is accepted exactly when SHA-256 applied twice to its UTF-8 bytes starts with two bytes that read as a number below 16 |
| Subscription.Upsert | go/smsq/main.go:251-256 | afterwards the chat is active with the new key and chat ids stay unique; an existing row of the chat only takes the key and is undeleted, keeping its limit and counters; otherwise, and only then, a row is added at the end with the configured limit and zero counters; other chats' rows are untouched |
| Subscription.RevocationNotices | go/smsq/main.go:241-249 | the chat is told its previous subscription is revoked exactly when it had an active key, and first; it is told the other account was revoked, and that other chat is told it lost the key, exactly when the key was active on another chat; nothing goes to any third chat; all are silent plain text |
| Subscription.Rebind | go/smsq/main.go:241-258 | binding sends the revocation notices and then the congratulation, leaves the chat active with the key, rewrites or adds only the chat's own row as the upsert does, and leaves other chats untouched |
| Subscription.Start | go/smsq/main.go:227-259 | an empty key gets "You are already set up!" from an existing user and the install hint from anyone else; a key failing the proof of work gets the install hint; the chat's own current key gets "You are already set up!"; each of these leaves the table unchanged; otherwise the chat is bound as in `Rebind`; every message is silent plain text |
| Subscription.StartChangesIffBinds | go/smsq/main.go:228-240 | `start` changes the table exactly when the key is non-empty, passes the proof of work and is not already the chat's key |
| Subscription.Stop | go/smsq/main.go:222-225 | afterwards neither lookup finds the chat; only the deleted flag of the chat's row changes; "Access revoked" is sent |
| Subscription.StartAfterStopRebinds | go/smsq/main.go:222-259 | a valid key binds again after `stop` |
| Delivery.Code | go/smsq/main.go:56-64 | the seven results are numbered 0 to 6 |
| Delivery.Name | go/smsq/main.go:109-128 | a number has the name "undefined" exactly when it is outside 0..6 |
| Delivery.NameIdentifiesResult | go/smsq/main.go:109-128 | distinct results have distinct names |
| Delivery.SenderLine | go/smsq/main.go:590-600 | the sender line is empty exactly when sender, SIM and carrier are all empty (its parts are `SenderLineParts`) |
| Delivery.Header | go/smsq/main.go:589-604 | the header is the italic timestamp, followed by the italic sender line exactly when the sender, SIM or carrier is non-empty |
| Delivery.SenderLineParts | go/smsq/main.go:590-597 | the sender line is the escaped sender, then a space and the escaped SIM, falling back to the carrier, when either is non-empty |
| Delivery.RenderShape | go/smsq/main.go:586-607 | the message is the italic timestamp, then the italic sender line when present, then the escaped body, joined by newlines |
| Delivery.RenderBodyRecoverable | go/smsq/main.go:606-607 | the body can be recovered from the message by removing the header and unescaping |
| Delivery.RenderInjectiveInBody | go/smsq/main.go:606-607 | with the same sender data, different bodies render differently |
| Delivery.SenderLineNoTag | go/smsq/main.go:590-600 | the sender line opens no tag |
| Delivery.RenderTags | go/smsq/main.go:602-606 | the only tags are the two or four italic tags plus whatever the formatted timestamp holds |
| Delivery.Render | go/smsq/main.go:586-607 | a message opens with the italic timestamp and a newline (its full shape is `RenderShape`) |
| Delivery.LimitNotice | go/smsq/main.go:581 | the notice starts with "W", and the number it quotes parses back to the configured limit |
| Delivery.NoticeIsNotRender | go/smsq/main.go:581 | the over-limit notice never equals a rendered message |
| Delivery.Wrap64 | go/smsq/main.go:573 | Go's `int` arithmetic: the result is in the 64-bit range and congruent to the exact value modulo 2^64 |
| Delivery.ReceivedThreshold | go/smsq/main.go:573 | `ReceivedLimit+1` is the exact sum below the largest `int`, and the smallest `int` for the largest |
| Delivery.Deliver | go/smsq/main.go:564-619 | delivery keeps chat ids unique and the table size, sends at most one message, and never answers bad_request or api_retired |
| Delivery.DeliverUnknownKey | go/smsq/main.go:565-569 | a key with no active chat gives user_not_found, with the table unchanged and nothing sent |
| Delivery.DeliverCountsReceived | go/smsq/main.go:571-572 | for a known key, `received_today` of the bound row goes up by one; only that row changes, and only its counters |
| Delivery.DeliverReceivedLimit | go/smsq/main.go:571-575 | once the new `received_today` reaches `ReceivedLimit+1` as computed in 64-bit `int`, the result is rate_limited, nothing is sent and the delivered counters stay |
| Delivery.MaxReceivedLimitRefusesAll | go/smsq/main.go:573 | with `received_limit` set to the largest `int`, which the configuration check accepts, every attempt on a known key is rate_limited |
| Delivery.DeliverDailyLimit | go/smsq/main.go:577-584 | at or past the chat's daily limit the result is rate_limited; the notice is sent and `delivered_today` bumped only when they are equal |
| Delivery.DeliverSends | go/smsq/main.go:609-618 | under both limits the rendered message is sent with a notification; success adds one to `delivered` and to `delivered_today`; a 403 gives blocked and any other failure network_error, with both counters unchanged |
| Delivery.DeliverCountsInStat | go/smsq/main.go:617 | the total of `delivered` goes up by one exactly when the result is delivered |
| Delivery.DeliverAll | go/smsq/main.go:662-663 | a run of deliveries keeps chat ids unique and the table size, with one result per attempt |
| Delivery.DeliverNoticeStep | go/smsq/main.go:577-584 | one delivery sends a chat at most one notice, only at the limit, after which the chat is past it; `delivered_today` never decreases |
| Delivery.NoticeAtMostOnce | go/smsq/main.go:577-584 | over a run of deliveries with no other event in between, a chat gets the over-limit notice at most once, and never once it is past its limit |
| DailyReset.StoredMidnight | go/smsq/main.go:167-173 | a missing midnight reads as 0 |
| DailyReset.Periodic | go/smsq/main.go:633-638 | afterwards a midnight is stored, feedback is untouched, and only counters change |
| DailyReset.PeriodicResetsIffAdvanced | go/smsq/main.go:633-638 | counters reset exactly when the current midnight is later than the stored one; the later midnight is stored; totals are kept |
| DailyReset.PeriodicIdempotent | go/smsq/main.go:634 | a second run with the same midnight changes nothing |
| DailyReset.PeriodicMonotone | go/smsq/main.go:175-181 | the stored midnight never goes back and is at least the current one afterwards |
| DailyReset.PeriodicIgnoresEarlierMidnight | go/smsq/main.go:634 | an earlier midnight after a reset leaves the counters alone |
| Commands.Lower | go/smsq/main.go:348 | lower-casing keeps the length |
| Commands.LowerMatches | go/smsq/main.go:348-352 | a command lower-cases to an ASCII name exactly when each character is that letter in either case, or one of the two non-ASCII letters Go folds into ASCII |
| Commands.LowerIdempotent | go/smsq/main.go:348 | lower-casing twice is lower-casing once |
| Commands.JoinFourLines | go/smsq/main.go:449-454 | four lines without newlines joined by newlines hold exactly three newlines, and splitting at the first gives the first line back |
| Commands.StatText | go/smsq/main.go:448-455 | the statistics reply has exactly four lines, and the first is "users: " with the number of subscribed users |
| Commands.ActiveChats | go/smsq/main.go:261-271 | the broadcast list has one entry per active row |
| Commands.ActiveChatsMeaning | go/smsq/main.go:261-271 | a chat is on the broadcast list exactly when it is an existing user |
| Commands.Broadcast | go/smsq/main.go:273-282 | an empty text sends nothing; otherwise each active chat gets the text with a notification, and the admin gets "OK" last |
| Commands.BroadcastReachesSubscribers | go/smsq/main.go:277-280 | a broadcast reaches a chat exactly when the chat is subscribed |
| Commands.Direct | go/smsq/main.go:284-301 | arguments without a space give the usage reply |
| Commands.DirectMeaning | go/smsq/main.go:284-301 | a first word that is not a number gives "First argument is invalid"; an empty text sends nothing; otherwise the text goes to that chat with a notification and the admin gets "OK" |
| Commands.DirectRoundTrip | go/smsq/main.go:290-300 | `/direct <printed id> <text>` sends the text to that chat |
| Commands.Limit | go/smsq/main.go:303-327 | exactly one reply, to the admin; chat ids stay unique; arguments without a space give the usage reply and change nothing |
| Commands.LimitMeaning | go/smsq/main.go:303-326 | a first word that does not parse as a 64-bit integer gives "First argument is invalid", and a rest that does not parse gives "Second argument is invalid", each with the table unchanged; otherwise the daily limit of that chat's row is set and the admin hears "OK" exactly when one row matched, else "User not found" |
| Commands.LimitRoundTrip | go/smsq/main.go:309-326 | `/limit <id> <n>` sets the daily limit of the chat's row and answers "OK", or answers "User not found" and changes nothing when the chat has no row |
| Commands.SendFeedback | go/smsq/main.go:418-426 | an empty text gets the usage reply; otherwise it is stored, thanked for and forwarded to the admin with the sender's id; users and midnight are untouched |
| Commands.AdminCommand | go/smsq/main.go:329-345 | admin commands keep chat ids unique and touch neither feedback nor midnight |
| Commands.ProcessCommand | go/smsq/main.go:347-382 | every command keeps chat ids unique and the midnight; only `feedback` can add feedback |
| Commands.AdminCommandsOnlyForAdmin | go/smsq/main.go:349-352 | an admin command from anyone else is "Unknown command" and changes nothing |
| Commands.CommandCaseInsensitive | go/smsq/main.go:348 | a command behaves as its lower-cased form |
| Commands.ChallengeAnswers | go/smsq/main.go:359-364 | `/challenge` answers the configured reply for its argument, otherwise "Unknown command", changing nothing |
| Commands.StopRevokes | go/smsq/main.go:353-354 | `/stop` in any case revokes the sender's subscription and confirms it |
| Commands.OurId | go/smsq/main.go:384-392 | the bot's id, when found, is a 64-bit integer |
| Commands.OurIdRoundTrip | go/smsq/main.go:385-388 | a token `<id>:<secret>` yields the id, whatever the secret |
| Commands.OurIdFails | go/smsq/main.go:384-392 | `ourID` panics exactly when the token has no colon or the part before it denotes no 64-bit integer |
| Commands.OurIdHead | go/smsq/main.go:385-387 | with a colon present, `ourID` fails exactly when parsing the part before it fails |
| Api.DecodedTextIsValid | go/smsq/main.go:533-541 | the UTF-8 check accepts every decoded record, so bad_request never comes from it |
| Api.HandleRetired | go/smsq/main.go:484-493 | the old endpoint answers 404 exactly to non-POST requests, and api_retired to every POST |
| Api.HandlePayload | go/smsq/main.go:517-547 | a failed decryption or record decoding is a 400 with nothing changed; a record with invalid UTF-8 is answered bad_request with nothing changed; the handler never panics or answers 404 |
| Api.HandleV1 | go/smsq/main.go:495-548 | a non-POST is a 404 with nothing changed and a POST never is; a body that does not decode, or decodes with a version other than 1, is a 400 with nothing changed; every non-answer leaves the table as it was and sends nothing; chat ids stay unique |
| Api.HandleV1AsWritten | go/smsq/main.go:511-514 | the handler as written keeps chat ids unique |
| Api.VersionMismatchPanics | go/smsq/main.go:511-514 | a decoded request with a version other than 1 panics as written and gets a 400 as intended; on every other request the two agree |
| Api.VersionTwoExample | go/smsq/main.go:511-514 | a POST whose envelope decodes with version 2 makes the handler as written panic |
| Api.HandleV1Delivers | go/smsq/main.go:495-548 | a request is answered from `deliver` exactly when it is a POST, decodes, has version 1, decrypts and holds a record; then the answer is what `deliver` returns, never bad_request |
| Server.ProcessUpdate | go/smsq/main.go:394-416 | an update panics exactly when it adds members and the token yields no id; otherwise chat ids stay unique |
| Server.GroupCommandsRefused | go/smsq/main.go:405-409 | a command outside a private chat gets the private-only reply and changes nothing |
| Server.AddedToGroup | go/smsq/main.go:397-404 | when the bot itself is added to a chat, that chat gets the private-only reply |
| Server.Step | go/smsq/main.go:658-680 | every event that does not panic keeps chat ids unique |
| Server.Run | go/smsq/main.go:658-680 | a run keeps chat ids unique, and stops early only on a Telegram update |
| Server.GoodTokenNeverCrashes | go/smsq/main.go:384-398 | with a token whose prefix is a valid id, no sequence of events crashes the loop |
| Server.LimitRearmsNotice | go/smsq/main.go:319 | a chat just sent the over-limit notice is sent it again on its next attempt once `/limit` raises its limit to its new `delivered_today` |
| ClientConstants.BotNameIgnoresBuildType | android/app/src/main/java/com/github/igrmk/smsq/Constants.kt:8 | the bot name is the same for every build type |
| ClientConstants.PrefKeysDistinct | android/app/src/main/java/com/github/igrmk/smsq/Constants.kt:13-20 | the preference key names are pairwise distinct |
| ClientConstants.ResendPeriods | android/app/src/main/java/com/github/igrmk/smsq/Constants.kt:22 | the back-off table is 5, 15 and 45 minutes: three entries, strictly increasing, each three times the one before |
| ClientConstants.PublicKeyIgnoresBuildType | android/app/src/main/java/com/github/igrmk/smsq/Constants.kt:65-68 | the staging and release public keys are the same text, so the build type does not change the key |
| Preferences.StorageKeyInjective | android/app/src/main/java/com/github/igrmk/smsq/helpers/Preferences.kt:10-71 | distinct properties are stored under distinct keys, `botName` under "BOT_NAME" included |
| Preferences.GetString | android/app/src/main/java/com/github/igrmk/smsq/helpers/Preferences.kt:11-18 | an absent string property reads as its default; only `key` can read as null |
| Preferences.GetBool | android/app/src/main/java/com/github/igrmk/smsq/helpers/Preferences.kt:25 | an absent flag reads as false |
| Preferences.GetInt | android/app/src/main/java/com/github/igrmk/smsq/helpers/Preferences.kt:53 | an absent number reads as 0 |
| Preferences.PutString | android/app/src/main/java/com/github/igrmk/smsq/helpers/Preferences.kt:12-15 | writing a string keeps every key well typed and leaves every other key as it was |
| Preferences.PutBool | android/app/src/main/java/com/github/igrmk/smsq/helpers/Preferences.kt:26-29 | writing a flag keeps every key well typed and leaves every other key as it was |
| Preferences.PutInt | android/app/src/main/java/com/github/igrmk/smsq/helpers/Preferences.kt:54-57 | writing a number keeps every key well typed and leaves every other key as it was |
| Preferences.EmptyStoreDefaults | android/app/src/main/java/com/github/igrmk/smsq/helpers/Preferences.kt:10-71 | on an empty store `key` is null, `domainName` the default domain, `botName` the bot name, every flag false and every number 0 |
| Preferences.ReadAfterWrite | android/app/src/main/java/com/github/igrmk/smsq/helpers/Preferences.kt:10-71 | reading a property after writing it gives the value written, a null `key` included |
| Preferences.WriteLeavesOthers | android/app/src/main/java/com/github/igrmk/smsq/helpers/Preferences.kt:10-71 | writing one property leaves every other property's value unchanged |
| ClientSms.Fresh | android/app/src/main/java/com/github/igrmk/smsq/entities/Sms.kt:9-16 | a new record has id -1, type "sms", empty texts, time 0 and offset 0; the two type names differ |
| ClientSms.Copy | android/app/src/main/java/com/github/igrmk/smsq/entities/Sms.kt:18-27 | the copy equals its source on all eight fields |
| Url.ApiUrl | android/app/src/main/java/com/github/igrmk/smsq/helpers/Url.kt:6 | the API address is "https://", then the domain, then "/v1", eleven characters longer than the domain |
| Url.ApiUrlIgnoresBuildType | android/app/src/main/java/com/github/igrmk/smsq/helpers/Url.kt:6 | the API address is "https://" + domain + "/v1" for every build type |
| Url.PostSmsUrl | android/app/src/main/java/com/github/igrmk/smsq/helpers/Url.kt:6-7 | the address starts with "https://", ends with "/v1/sms", has the domain between, and is 15 characters longer than it |
| Url.PostSmsUrlIgnoresBuildType | android/app/src/main/java/com/github/igrmk/smsq/helpers/Url.kt:6-7 | the posting address is "https://" + domain + "/v1/sms" for every build type |
| Url.PostSmsUrlInjective | android/app/src/main/java/com/github/igrmk/smsq/helpers/Url.kt:6-7 | equal posting addresses mean equal domains |
| CallReceiver.Seconds | android/app/src/main/java/com/github/igrmk/smsq/helpers/CallReceiver.kt:74-75 | milliseconds become whole seconds rounded toward zero, as Kotlin's `/ 1000` does for negative values too |
| CallReceiver.DefaultSimInfo | android/app/src/main/java/com/github/igrmk/smsq/helpers/CallReceiver.kt:20-30 | SIM information is found only with the phone-state permission, on API 22 or later, and then it is the first active subscription |
| CallReceiver.OnReceive | android/app/src/main/java/com/github/igrmk/smsq/helpers/CallReceiver.kt:32-51 | a record is stored exactly for a phone-state broadcast, with forwarding on, in the ringing state, with a number |
| CallReceiver.IncomingCall | android/app/src/main/java/com/github/igrmk/smsq/helpers/CallReceiver.kt:63-76 | the record for a call is an incoming call with id -1, empty text and the caller as sender, carries SIM names only when asked for, and is stamped in seconds rounded toward zero |
| CallReceiver.IncomingCallRecord | android/app/src/main/java/com/github/igrmk/smsq/helpers/CallReceiver.kt:63-76 | the record is an incoming call with id -1, empty text and the caller as sender; time and zone offset are in seconds, rounded toward zero |
| CallReceiver.SimNamesOnlyWhenAllowed | android/app/src/main/java/com/github/igrmk/smsq/helpers/CallReceiver.kt:54-61 | SIM and carrier names appear only when asked for, on API 22 or later and with the permission; a null name is reported as empty |

## Left out

- I/O:
  - Telegram's bot API, the webhook, the HTTP server wiring, signal handling and logging.
  - The SQLite driver and `createDatabase`. Tables are values, and a failing query (`checkErr` on database errors) is not modelled.
- Cryptography and decoding:
  - SHA-256, base64, Tink's hybrid decryption, keyset parsing and JSON decoding are parameters.
  - Nothing is assumed about SHA-256 beyond its 32-byte output.
- The reply's JSON encoding: `apiReply` and the generated JSON names of the results are not part of this model. `Delivery.Name` models `String()`.
- Time:
  - `midnight()`, `time.Now` and the formatting of the timestamp line are parameters.
  - Kotlin's clock and time-zone offset are fields of the device.
- Concurrency: `deliverChan` serialises deliveries onto the main loop, which the model takes as a sequence of events.
- The wording of HTTP error bodies, which repeats Go error texts.
- `Message.Command()` and `CommandArguments()` of the Telegram library: the update carries the command already split.
- WelcomeActivity.kt (interface, permission flow, service control) is not part of this model.
- The client's queue, resend service and sealing (`storeSms`, `ResenderService`) are not part of this model. The call receiver's result is the record it would store.
- Delivery.Deliver: counters are unbounded integers, so the 64-bit overflow of SQLite integers is not modelled.
- The over-limit notice quotes the configured `DeliveredLimit` while the check uses the chat's own `daily_limit`. This is modelled as written.
- When another chat holds the key being bound, that chat is told its subscription was revoked, but the model keeps its row active, since the code never updates it. Under a UNIQUE constraint on `key`, which the schema may carry, `insert or replace` would instead delete that row; the schema is not part of this model. While both rows are active, `ChatForKey` returns the first of them in scan order, which may be the chat just told it was revoked.
- Preferences.GetString: reading a key that holds a value of another type throws on Android. The getters require a well-typed store, and the setters are proved to keep it well typed.
- `apply()` on the preference editor writes asynchronously; the model writes at once.
- ClientSms.Copy: a Kotlin copy is a distinct mutable object. Records here are values, so there is no aliasing to rule out.
- The public keyset is compared as text; parsing it into a Tink handle is left out.
- Strings are sequences of Unicode scalar values. The JSON decoder is assumed to yield such strings, as `encoding/json` does by replacing invalid UTF-8 with U+FFFD; that assumption is built into the `dec.sms` parameter's type. What is proved (`Api.DecodedTextIsValid`) is only that the UTF-8 check then accepts every field.

## Findings

| source | as written | input that shows it | evidently intended | confidence | as-written member | corrected member |
|---|---|---|---|---|---|---|
| go/smsq/main.go:511-514 | for a version other than 1 the handler calls `err.Error()` on the decode error, which is nil at that point, so it panics and the client gets no response | a POST whose body decodes to `{"Payload": "", "Version": 2}` | answer 400 like every other malformed request | not executed | Api.VersionTwoExample | Api.HandleV1 |
