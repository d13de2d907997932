# Push system: log escalation and notification fanout, in Dafny

This project models the core of a log-collection and notification service.

- **Logs.** Clients report logs through `GET /logs`. A log is identified by its location, function and text (its "triple").
  - A new problem is stored with count 1.
  - A repeated problem has its stored count incremented.
  - An emergency log (risk level 3) notifies the log's employees as soon as it is stored.
  - Any other log notifies once its stored count reaches the threshold of its risk level: 5 for normal, 3 for high, 1 for emergency, 5 otherwise.
- **Notification fanout.** A notification (`send_message`) looks up the employees' contact rows and reads each `contactWay` bitmask. It then calls the senders:
  - email, once per address;
  - Line, Teams, Slack and Discord, once each when some contact asks for them;
  - SMS, once for the whole phone list.
- **Retries.** Email, Line and the webhooks retry with exponential backoff. SMS tries each phone once.
- **History.** Every sender call ends in one notification history record. The history table keeps one row per (log id, recipient, message). A repeat is merged into that row with its retry count raised by one.
- **Statistics.** The statistics endpoints tally logs by risk level, location and function (each of the last two cut to the ten most frequent), and tally notifications by status.

Modules, one per concern of the program:

| module | file | models |
|---|---|---|
| `Constants` | constants.dfy | `PUBLISHER_*` bits, statuses and risk levels, and the decoding of the `contactWay` mask |
| `Records` | records.dfy | `Log`, `Message`, `EmployeeContact`, `NotificationHistory`, `DBFilter` |
| `Text` | text.dfy | `", ".join`, `str(int)`, and Python's `repr` of a string (its choice of quote and its escapes) and of a list of strings, as the notification texts use them |
| `Query` | query.dfy | `makeFilter` and the row range of a page |
| `Transport` | transport.dfy | SMTP, the Line API, the webhooks and the SMS gateway. They are modelled as a `Network` object whose `answer` function fixes the reply of the n-th attempt. It records the attempts, the backoff sleeps, the sender calls and the `send_message` calls. |
| `Notification`, `NotificationFacts` | notification.dfy | the history table (`HistoryStore`) and `_save_notification_history` |
| `Messaging`, `MessagingFacts` | message.dfy, message_facts.dfy | `send_message`, `send_email`, `send_line`, `webhook`, `sms` |
| `Database` | database.dfy | the log table (`LogStore`), `need_send`, `check_log`, `insert_log`, `update_log` |
| `Statistics` | statistics.dfy | the counting in `get_logs_statistics` and `get_notification_statistics` |
| `Api` | main.dfy | `logs()` and the notification history page |

How the model represents the program:

- **Stores.** Each store (the log table, the history table) is a class with its rows, the next id and an `online` flag. When the flag is false, every call to that store fails, as a raised client error does in the program.
- **Transport.** The sender methods keep the loops of the program. Each is proved against specification functions of the oracle's replies:
  - `FirstDelivered` is the index of the first accepted reply.
  - `Backoff` is the list of sleeps.
  - `EmailRecord`, `LineRecord`, `WebhookRecord` and `SmsRecord` are the history record each sender writes.
- **Statuses.** The program mixes status enum strings (`Status.SUCCESS`) with integer codes (`STATUS_FAILED = 2`). The model uses one `Status` datatype. `Constants.StatusOfCode` relates it to the integer codes.
- **Constants.** app/message.py reads the `PUBLISHER_*` and `STATUS_*` constants from `settings`, but they are defined in app/constants.py. The model takes them from app/constants.py.
- **Calls to `_save_notification_history`.** app/message.py passes keyword arguments in several places, while the function takes one `NotificationHistory`. Each such call is modelled as building that record and saving it.
- **`NotificationStatus`.** app/main.py imports it from app/notification.py, which does not define it. It is read as the `Status` enum of app/constants.py.
- **Line failure text.** `send_line` records its failure text as "Email 發送失敗 (嘗試 n 次)". The model keeps that text (`Messaging.LineRecord`).
- **Duplicate logs in `logs()`.** The model's `logs()` increments the stored row of a repeated problem. What the program actually does is stated separately in `Api.SubmitLogAsWritten`; see "## Findings".

## Model

| member | source | states |
|---|---|---|
| Constants.StatusOfCode | app/constants.py:13-16 | an integer is a status code exactly when it is 0..3, and the status it denotes has that code |
| Constants.MaskBit | app/constants.py:5-10 | in the mask of a channel set, the bit of a channel is set exactly when the channel is in the set |
| Constants.ChannelsOfMask | app/constants.py:5-10 | decoding the mask of any channel set gives back exactly that set: the six bits do not interfere |
| Text.NatToString | app/database.py:204 | `str(n)` is all digits, has no leading zero, and reads back as `n` |
| Text.IntToString | app/message.py:201 | `str(n)` of any integer starts with `-` exactly when `n` is negative, and the digits after it read back as the magnitude of `n` |
| Text.QuoteOf | app/message.py:35 | `repr` prefers `'`, and uses `"` only to avoid escaping a `'`: the chosen quote occurs in the text only when both kinds of quote do |
| Text.StrRepr | app/message.py:35 | the `repr` of a string opens and closes with that quote |
| Text.ListRepr | app/message.py:35 | the `repr` of a list is bracketed |
| Text.UnescapeEscape | app/message.py:35 | the escaping between the quotes loses nothing: reading the escapes back gives the string |
| Text.EscapePlain | app/message.py:35 | a string with no quote, backslash or control character is written unchanged |
| Text.ApostropheQuotedWithDouble | app/message.py:35 | employees `["O'Brien"]` are rendered `["O'Brien"]`, quoted with `"` |
| Query.ValueOf | app/database.py:47 | a filter passes its single value when it has exactly one, otherwise the whole list |
| Query.MakeFilter | app/database.py:43-49 | one clause per filter, appended in list order, with the column, operator and value of that filter; earlier clauses kept |
| Query.RangeOf | app/database.py:130 | the inclusive range starts at `offset` and spans exactly `limit` rows |
| Query.Page | app/database.py:117-135 | a page holds at most `limit` rows: the rows from `offset` on, as many as exist up to `limit` |
| Transport.Network.Deliver | app/message.py:184-190 | an attempt receives the oracle's next reply and is appended to the attempt trace |
| Notification.Reconcile | app/notification.py:36-83 | the table after a save: unchanged without a log id or when the store fails; otherwise a merge into the keyed row, or the record appended under the next id exactly when no row has its key; ids stay distinct and at most one row is added |
| Notification.FindKey | app/notification.py:44-54 | finds the first stored row with the record's (log id, recipient, message) key, and none when no row has it |
| Notification.HistoryStore.Save | app/notification.py:30-88 | returns True exactly when the record has a log id and the store works; the table becomes the merge-or-insert result and stays one row per key |
| Notification.WriteByIdChangesOneRow | app/notification.py:66-70 | with distinct ids, the update filtered on the existing row's id rewrites that row only |
| Notification.ReconcileMergeKeepsKeys | app/notification.py:52-70 | a merge keeps ids distinct and one row per key |
| Notification.ReconcileInsertKeepsKeys | app/notification.py:78-83 | an insert for a key not yet stored keeps ids distinct and one row per key |
| NotificationFacts.ReconcileWithoutLogIdOrStore | app/notification.py:36-38 | without a log id, or when the store fails, saving leaves the table as it was |
| NotificationFacts.ReconcileKeepsOneRowPerKey | app/notification.py:43-83 | after a save, exactly one row has the record's key; a row is added only when none had it |
| NotificationFacts.ReconcileMerges | app/notification.py:52-70 | merging: retry count is the stored one + 1; status, error and sent time come from the new record; id, log id, recipient and message stay; other rows unchanged |
| NotificationFacts.ReconcileInserts | app/notification.py:78-83 | inserting: the record with a fresh id, its own status, error and retry count, stamped `sent_at`, appended after the existing rows |
| Notification.ReconcileAll | app/message.py:66-85 | the table after the fanout's saves, each record reconciled with the table the earlier ones left: ids stay distinct, each record adds at most one row, and a failing store leaves the table as it was |
| NotificationFacts.ReconcileKeepsKeys | app/notification.py:43-83 | a save never removes a stored key, and stores the saved record's key when it has a log id and the store works |
| NotificationFacts.ReconcileAllKeepsEveryRecord | app/notification.py:43-83 | after a fanout's saves with the store working, every record with a log id has a row with its key: no call's outcome is lost |
| NotificationFacts.SavingTwiceKeepsOneRow | app/notification.py:43-83 | two saves with the same key leave one row, with retry count one above the first record's and the second record's status |
| Messaging.Resolve | app/message.py:32 | exactly the contact rows whose employee number is one of the message's employees |
| Messaging.FirstDelivered | app/message.py:114-147 | the index of the first accepted reply: every earlier reply was rejected; none when every reply was rejected |
| Messaging.FirstDeliveredAt | app/message.py:114-147 | an accepted reply after a run of rejected ones is the first delivery |
| Messaging.Backoff | app/message.py:150-154 | the n-th backoff sleep is 2 to the power (first + n) |
| Messaging.SendEmail | app/message.py:100-165 | up to 3 attempts, stopping at the first accepted one; sleeps 2 s then 4 s between attempts only; one record, Success with the attempt index or Failed with retry count 3 and the last error; returns whether one was accepted |
| Messaging.PostWithRetry | app/message.py:184-210 | up to `max_retries` POSTs, stopping at the first accepted reply, sleeping 2^attempt only when another attempt follows; returns the first accepted index or the last error |
| Messaging.SendLine | app/message.py:169-221 | without a token, one Failed record and no attempt; otherwise the retry loop with HTTP 200 as success and its record |
| Messaging.Webhook | app/message.py:225-296 | an unsupported type returns False with no record and no attempt; without a URL, one Failed record and no attempt; otherwise the retry loop with 200 or 204 as success and its record |
| Messaging.SubmitEach | app/message.py:314-337 | one submission per phone to `phone@gateway`, in order; the delivered count and the failed phones of those replies |
| Messaging.SendSms | app/message.py:300-359 | without a gateway, one Failed record and no attempt; otherwise one attempt per phone to `phone@gateway`, one summary record, and True exactly when some phone went through |
| Messaging.CollectContacts | app/message.py:49-63 | the aggregation loop computes the email list, the four flags and the phone list of `Aggregate` |
| Messaging.PlanIsPlannable | app/message.py:66-85 | every planned call has one address or a supported webhook type or a non-empty phone list |
| Messaging.RunJob | app/message.py:66-85 | one sender call leaves exactly one history record, under the log id and that call's recipient; the table becomes `Reconcile` of the old one with that record, and the store's online flag is unchanged |
| Messaging.RunPlan | app/message.py:66-85 | the sender calls are made in plan order, each leaving one matching record, whatever earlier calls returned; the table becomes `ReconcileAll` of the old one with those records in order |
| Messaging.SendMessage | app/message.py:21-96 | with no contact found, one Failed record and nothing sent; otherwise exactly the plan's sender calls in order, one record per call, and the history table reconciled with those records one after the other |
| MessagingFacts.EmailsOfMeaning | app/message.py:49-52 | an address is in the email list exactly when some contact with the Email bit has it as a non-empty email; at most one per contact |
| MessagingFacts.PhonesOfMeaning | app/message.py:61-63 | a phone is in the phone list exactly when some contact with the SMS bit has it as a non-empty phone; at most one per contact |
| MessagingFacts.PlanEmailCalls | app/message.py:66-70 | `send_email` is called with `[e]` once per occurrence of `e` in the email list |
| MessagingFacts.PlanLineCalls | app/message.py:72-73 | `send_line` is called once when the Line flag is set, never otherwise |
| MessagingFacts.PlanTeamsCalls | app/message.py:75-76 | the Teams webhook is called once when its flag is set, never otherwise |
| MessagingFacts.PlanSlackCalls | app/message.py:78-79 | the Slack webhook is called once when its flag is set, never otherwise |
| MessagingFacts.PlanDiscordCalls | app/message.py:81-82 | the Discord webhook is called once when its flag is set, never otherwise |
| MessagingFacts.PlanSmsCalls | app/message.py:84-85 | `sms` is called once with the whole phone list when it is non-empty, never otherwise |
| MessagingFacts.ChannelRequestedIffEnabled | app/message.py:53-60 | Line, Teams, Slack and Discord are each called once exactly when some contact's mask has that bit |
| MessagingFacts.EmailAndSmsContact | app/message.py:49-85 | a contact with mask 33, an address and a phone gets exactly one email call and one SMS call, in that order |
| MessagingFacts.BackoffIncreasing | app/message.py:150-154 | backoff sleeps strictly increase |
| MessagingFacts.EmailSchedule | app/message.py:111-154 | 1 to 3 attempts, one sleep fewer than attempts, the n-th sleep 2^(n+1); three failures sleep exactly 2 s and 4 s |
| MessagingFacts.EmailRecordOutcome | app/message.py:138-165 | Success exactly when one of the three attempts went through, with the first such index as retry count; otherwise Failed, retry count 3, last error |
| MessagingFacts.HttpSchedule | app/message.py:184-210 | with n >= 1 retries: 1 to n attempts, all n when none is accepted, one sleep fewer than attempts, the k-th sleep 2^k |
| MessagingFacts.LineRecordOutcome | app/message.py:184-221 | Success exactly when some reply is HTTP 200, with the retry count the index of the first HTTP 200, where the loop stops; otherwise Failed with retry count `max_retries` and the last error |
| MessagingFacts.WebhookRecordOutcome | app/message.py:261-296 | Success exactly when some reply is HTTP 200 or 204, with the retry count the index of the first such reply, where the loop stops; otherwise Failed with retry count `max_retries` and the last error |
| MessagingFacts.SmsCountsAddUp | app/message.py:314-337 | delivered count plus failed phones is the number of phones |
| MessagingFacts.SmsAllDelivered | app/message.py:340-345 | the delivered count equals the number of replies exactly when every phone went through |
| MessagingFacts.SmsSomeDelivered | app/message.py:340-359 | the delivered count is positive exactly when some phone went through |
| MessagingFacts.FailedPhonesMeaning | app/message.py:314-337 | the failed list names exactly the phones whose submission failed |
| MessagingFacts.SmsRecordOutcome | app/message.py:340-359 | Success exactly when there are phones and all went through; a partial failure lists the failed phones; no success at all records "所有收件者發送失敗" |
| Database.Threshold | app/database.py:142-147 | every threshold is between 1 and 5, and it is 1 exactly for the emergency level |
| Database.ThresholdDecreasesWithRisk | app/database.py:142-147 | a higher risk level never needs more occurrences; strictly fewer between distinct levels 1..3 |
| Database.FindTriple | app/database.py:220-231 | the first stored row with the log's location, function and text, or none when no row has them |
| Database.NeedSend | app/database.py:139-161 | the query on location, function, text, risk level and `count >= threshold` finds a row; False when the store fails; whenever it holds, `check_log` finds the problem as well |
| Database.CheckLog | app/database.py:220-247 | a Log exactly when the store works and some row has the triple; it is the first such row, whole (id and count included) |
| Database.WriteLogById | app/database.py:62-70 | the update filtered on an id rewrites exactly the rows with that id |
| Database.LogStore.Insert | app/database.py:171 | the row is stored under the next id; nothing changes and None when the store fails |
| Database.LogStore.UpdateById | app/database.py:198 | the row with the id is rewritten, ids stay distinct; nothing changes when the store fails |
| Database.InsertLog | app/database.py:165-187 | stores the log without its own id; exactly one `send_message` titled "系統緊急通知" under the new id when the risk level is 3 and the insert worked, none otherwise |
| Database.UpdateLog | app/database.py:191-216 | without an id, nothing written or sent; otherwise the row with the id is rewritten, then one "系統通知" message with the count is sent exactly when `need_send` holds on the updated table |
| Database.CheckLogUnique | app/database.py:220-244 | with one row per problem, `check_log` returns that problem's row |
| Database.EscalatesIffAtThreshold | app/database.py:139-158 | after rewriting a problem's row, `need_send` holds exactly when the new count reaches the level's threshold |
| Database.EscalationPersists | app/database.py:149-158 | once a problem reached its threshold, every later occurrence with a higher count notifies again |
| Database.EmergencyEscalatesAtOnce | app/database.py:142-158 | `need_send` alone: it holds for any table holding an emergency row with count at least 1. A first occurrence notifies through `insert_log` instead (`Database.InsertLog`) |
| Statistics.Bump | app/main.py:204 | `d[k] = d.get(k, 0) + 1` adds one to the count of `k` only, keeps keys distinct and adds one to the sum |
| Statistics.TallyCounts | app/main.py:194-210 | a tally counts each key as often as it occurs, holds each key once, and its values sum to the number of rows |
| Statistics.TallyKeysOccur | app/main.py:198-210 | every key of a tally comes from the counted rows |
| Statistics.SortByCount | app/main.py:217-218 | the sorted entries are a permutation of the tally, counts non-increasing |
| Statistics.TopTenSelects | app/main.py:217-218 | at most ten entries (all when there are at most ten), descending; kept and dropped together are the tally; no dropped count exceeds a kept one |
| Statistics.TallyLogs | app/main.py:198-210 | the loop builds the per-level, per-location and per-function tallies of the rows |
| Statistics.GetLogsStatistics | app/main.py:179-218 | no rows gives zero and empty maps; otherwise the row count, a per-level tally summing to it, and the top ten locations and functions |
| Statistics.TallyStatuses | app/main.py:335-343 | the loop builds the per-status tally and counts the Success rows |
| Statistics.GetNotificationStatistics | app/main.py:316-357 | no rows gives a zero total and no counts; otherwise a per-status tally summing to the total, the Success count (the tally's Success entry), and success + failed = total |
| Api.ItemOf | app/main.py:57-66 | the item built from a request has no id and count 1 |
| Api.Rejection | app/main.py:38-54 | a request is rejected before the store exactly when it is out of range (422) or lacks location, function or log (400) |
| Api.Create | app/main.py:76-81 | a new problem is inserted once and answered "created"; 500 and no row when the store fails; one row per problem kept |
| Api.SubmitLog | app/main.py:36-87 | 422/400 with nothing touched; a repeated problem's row gets count + 1 and the request's fields, answered "updated" with that count, notifying exactly when the count reaches the threshold; a new problem is inserted with count 1 and answered "created"; 500 when the store fails; one row per problem kept |
| Api.Increment | app/main.py:68-75 | a repeated problem's row is rewritten under its id with the request's fields and count + 1, answered "updated" with that count, notifying exactly when the count reaches the threshold; one row per problem kept |
| Api.KeepsTriplesUnique | app/main.py:68-75 | rewriting a problem's row with a log of the same problem keeps one row per problem |
| Api.SubmitLogAsWritten | app/main.py:68-75 | as written, every repeated problem is answered 500 with the table, the history and the transports unchanged |
| Api.NotificationHistoryPage | app/main.py:230-273 | 422 unless 1 <= limit <= 500 and offset >= 0; 500 when the store fails; otherwise at most `limit` rows, the ones from `offset` on |

## Left out

- Supabase and Redis clients. Each table is a sequence of rows plus an `online` flag for the whole table. A store that fails on one call and works on the next is not modelled. So `update_log` cannot fail its update and then run its `need_send` query successfully.
- SMTP sessions, MIME assembly, attachment files and `requests.post` payloads. An attempt records only its channel and target. Subject, body, HTML flag and headers reach no reply.
- `time.sleep` only records the duration. `datetime.now()` is the `now` parameter.
- Date and time parsing, `isoformat`, and the "today − 7 days" defaults. Dates are strings. The statistics take the rows of the date-range query as given.
- `success_rate` and `round` (floating point) are left out.
- The counts by channel in `get_notification_statistics`: the history rows this core writes have no channel column.
- The log id, channel, status and date filters of `get_notification_history`, and its ordering by `created_at`. The page is taken over the rows the filtered, ordered query selects.
- The outer `except` of `send_message` (app/message.py:87-96). No step of the model raises, so that branch cannot be reached.
- `.get` defaults for missing columns. Stored rows and contact rows always carry every column here. These are `count` 1 and `employees` [] in `check_log`, `riskLevel` 0 and 'Unknown' in the statistics, and `contactWay` 0.
- The `line`, `teams`, `slack` and `discord` columns of a contact. The core never reads them.
- `get_logs_list`, `get_log_by_id`, `get_notification_by_id`, and the root and health endpoints. They only shape requests or responses.
- `upsert`, `delete` and `call_by_sql`: no callers in the modelled logic.
- Logging calls: no behaviour.
- Concurrency. The query-then-write sequences are modelled as atomic.
- Statistics.TopTenSelects: does not state that entries with equal counts keep the dict's insertion order. `SortByCount` is a stable insertion sort, as Python's `sorted` is, but no lemma states stability.
- Messaging.SendSms: the `sent_at` stamp and the history write happen through `HistoryStore.Save`. For each phone, the SMTP connection, the login and the send inside that phone's `try` make up one attempt. A failing connection or login therefore fails that phone only.
- Text.StrRepr: non-ASCII characters that Python does not count as printable (U+00A0 or U+2028, say) are written as they are. Python writes them as `\xNN`, `\uNNNN` or `\UNNNNNNNN`. ASCII control characters are escaped as Python does.

## Findings

| source | as written | input that shows it | evidently intended | confidence | as-written member | corrected member |
|---|---|---|---|---|---|---|
| app/main.py:69-73 | the duplicate branch increments the freshly built `item` (id None, count 1) and passes it to `update_log`. `update_log` returns None for an id of None (app/database.py:192, 214-216), so the endpoint answers 500 | a second identical `GET /logs?location=A&function=B&log=C` once the first has been stored | increment the stored row: take the id and count of the row `check_log` returned, write count + 1 under that id, and answer "updated" | high (not executed) | Api.SubmitLogAsWritten | Api.SubmitLog |
