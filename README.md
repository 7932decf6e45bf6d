# Intake bot: a Dafny model

This project models the core of a Telegram bot that takes service requests
("обращения") for six building sites and routes staff answers back to the
people who filed them.

A submitter goes through a fixed conversation, one step per state:

1. Picks a site from an inline keyboard (SELECT_ADDRESS).
2. Types the request text (INPUT_TEXT).
3. Optionally attaches documents and photos (UPLOAD_FILES). A prompt message counts the attachments.
4. Leaves contact details (INPUT_PHONE).
5. Confirms a preview (CONFIRMATION).

On "send", the bot does the following:

- takes the next number from the ticket counter and saves the counter to `data/counter.json`;
- appends the ticket to the list in `data/requests.json`;
- posts a summary to the staff group, then the document and photo batches;
- thanks the submitter.

When a staff member replies in the group to a summary, the bot handles it as follows:

- it reads the ticket number back out of the replied-to text with a regular expression;
- it looks up the submitter's id in the ticket list;
- it relays the reply (text or one media kind) to that submitter, and reports to the group.

The model has eight modules:

- `Wrappers`: the `Option` type.
- `Strings`: Python's `str()` of an integer, `int()` of a digit string, and `str.find`.
- `JsonValue`: the JSON values the stores hold, with Python truthiness and `==`.
- `Conversation`: `_load_json` and its fallback to an empty list or object, chosen by file name.
- `Telegram`: the messages the bot sends. A successful send becomes one `Outgoing` value in an outbox.
- `Tickets`: tickets, the ticket list, `save_request_to_file`, and `load_counter` / `save_counter`.
- `Reply`: `get_request_number` as an explicit search, plus `get_user_id`, `_send_reply` and `handle_group_reply`.
- `Flow`: the keyboard and callback decoding, the attachment wording and batches, the ConversationHandler's routing, and the class `IntakeBot`.

`IntakeBot`'s fields are the four pieces of state the handlers update:

- the per-user conversation states and sessions (`user_data`);
- the counter and its file;
- the ticket list;
- the outbox.

Each handler is a method. `Handle` routes one update. `Process` runs the routed handler (through `Run`) and records the state it returns.

A foreign call whose failure the bot catches is modelled as a flag in an `Env` (or `ReplyEnv`) parameter, and the model takes both branches. The clock is `Env.now`. The id of a freshly sent prompt is `Env.promptId`.

Where the code and its own docstrings and dead branches suggest otherwise, the model follows what the code does:

- **Two different ticket-list paths.** The ticket list is written to the relative path `data/requests.json` but read by the reply router from the absolute `/data/requests.json`. `Conversation.StorePathsDifferButShareDefault` records that these differ. `Flow.StaffReplyReachesAuthor` is stated for a router that reads the list the bot wrote.
- **The "open" default is dead.** `save_request_to_file` defaults a missing status to "open", but `confirmation` always passes status 1 (`Flow.ConfirmedStatusKept`).
- **The counter is loaded once.** `confirmation` loads the counter lazily, but `main` has always loaded it already. The model loads it in the constructor only.

## Model

| member | source | states |
|---|---|---|
| Conversation.DefaultFor | conversation.py:11 | the fallback is an empty list exactly for a file named requests.json, an empty object otherwise |
| Conversation.LoadJson | conversation.py:9-18 | a missing, undecodable or unreadable file gives the fallback; a readable one gives its content; any other error propagates |
| Conversation.StorePathsDifferButShareDefault | reply.py:26 | the writer's and the reader's ticket paths are different paths, yet without a readable file both load as an empty list |
| Conversation.DefaultDependsOnNameOnly | conversation.py:11-18 | two paths with the same last component load the same way |
| JsonValue.Get | reply.py:32-33 | `dict.get`: the stored value, or None for an absent key |
| Strings.Decimal | bot.py:179 | `str(i)` of a natural number is a non-empty digit string with a leading zero only for 0 |
| Strings.DecimalRoundTrip | bot.py:204 | `int(str(n)) == n` for every natural n |
| Strings.IntToString | bot.py:366 | `str(i)` puts a minus sign before the digits of a negative number |
| Strings.ParseInt | bot.py:204 | `int(t)` of a digit string is its decimal value, a leading '-' negates and a leading '+' is dropped; any other string (the empty one, one starting with neither a digit nor a sign) is a ValueError |
| Strings.IndexOf | bot.py:204 | the first occurrence of a character, and None exactly when it does not occur |
| Reply.RunEnd | reply.py:16 | the greedy `\d+` ends at the first non-digit, and everything it spans is a digit |
| Reply.LineEnd | reply.py:16 | `.*` cannot cross a newline: the line end is the first '\n' or the end of the text |
| Reply.MatchAt | reply.py:16 | a match of the fixed part of the pattern starts with the phrase's first letter |
| Reply.SearchFrom | reply.py:16 | the scan of `re.search`: start positions upwards, the greedy `.*` backtracking from the line end at each; its meaning is stated by SearchSound, SearchComplete, FoundIffOccurs, SkipToLine and LastOnFirstMatchingLineWins |
| Reply.GetRequestNumber | reply.py:12-14 | no text or empty text gives None |
| Reply.LastMatch | reply.py:16 | the backtracking of the greedy `.*` from the line end: no match exactly when no start in the range matches; LastMatchSound and LastMatchIsLargest state which one it returns |
| Reply.LastMatchSound | reply.py:16 | what the backtracking of `.*` returns is a match at some start in the range |
| Reply.LastMatchIsLargest | reply.py:16 | the backtracking of the greedy `.*` returns the match with the largest start on the line |
| Reply.SearchSound | reply.py:16-19 | every number `re.search` yields is captured by a match at some position |
| Reply.SearchComplete | reply.py:16 | when a match exists at or after the start, the search finds one |
| Reply.LargestMatchExists | reply.py:16 | a line with a match has a match with the largest start |
| Reply.FoundIffOccurs | reply.py:16-19 | a number is found if and only if the pattern occurs, and what is found is the digit run of an occurrence |
| Reply.LastOnFirstLineWins | reply.py:16 | of the occurrences on the first line, the last one gives the number |
| Reply.SkipToLine | reply.py:16 | start positions before a line with no occurrence from there on find nothing: the scan reaches that line |
| Reply.LastOnFirstMatchingLineWins | reply.py:16 | on the first line that holds an occurrence, wherever it is in the text, the last occurrence on that line gives the number |
| Reply.RunEndIsFirstNonDigit | reply.py:16 | the run `\d+` takes ends exactly at the first non-digit |
| Reply.WholeDigitRunCaptured | reply.py:16-19 | a match captures the whole digit run after '#', and `int()` gives its value |
| Reply.LookupUserId | reply.py:31-35 | the `for` loop over the ticket list: the first object whose number equals n gives its `user_id`, a non-object stops with None; stated by FirstMatchWins, LookupFindsFirstMatch and NoMatchGivesNone |
| Reply.FirstMatchWins | reply.py:31-33 | the first entry whose number matches gives the `user_id`; later duplicates are never read |
| Reply.LookupFindsFirstMatch | reply.py:31-33 | a non-None result is the `user_id` of the first matching entry |
| Reply.NoMatchGivesNone | reply.py:31-35 | a list of objects none of which matches gives None |
| Reply.UserIdFor | reply.py:24-37 | loading errors and a non-list give None; a list gives the first-match lookup |
| Reply.GetUserId | reply.py:24-37 | the loop with its early returns computes exactly `UserIdFor` |
| Reply.RelayText | reply.py:45 | every relayed text or caption contains the ticket reference `#n` |
| Reply.RelayOf | reply.py:40-103 | the relay takes the first content kind in priority order and sends it to the resolved author: the text ends with the staff member's text (or caption), contains `#n`, and carries that kind's file (`photo[1]` for a photo); unsupported content, or a photo with a single size, gives False |
| Reply.ReplyNumber | reply.py:109-121 | the number is exactly what `get_request_number` gives for the replied-to text of a present message, and 0 when there is no message, no reply or no number |
| Reply.GroupReplySends | reply.py:106-173 | the messages `handle_group_reply` sends as written: at most two; stated by the lemmas below |
| Reply.HandleGroupReply | reply.py:106-173 | the handler's steps send exactly the messages `GroupReplySends` lists |
| Reply.SilentWithoutTicketNumber | reply.py:109-121 | no message, no reply, or no number (0 included): nothing is sent |
| Reply.UnresolvedAuthorNotice | reply.py:142-152 | an unresolved author gives exactly one "no recipient" notice to the staff chat |
| Reply.RelayGoesToAuthor | reply.py:156-163 | a relay is the first send, goes to the resolved author and names the ticket |
| Reply.DeliveredOnlyAfterRelay | reply.py:156-163 | the "delivered" notice follows a relay that succeeded, which was sent first |
| Reply.NotDeliveredOnlyAfterRelay | reply.py:156-171 | as written, "could not deliver" appears only after a successful relay whose "delivered" notice failed |
| Reply.FailedRelayUnreported | reply.py:156-158 | as written, a relay that fails produces no notice at all |
| Reply.IntendedGroupReplySends | reply.py:156-171 | corrected: at most two sends, and exactly the sends of the code as written except after a relay whose send failed |
| Reply.IntendedNoticeTellsOutcome | reply.py:156-171 | corrected: for a relay attempted, "delivered" exactly when it succeeded and "could not deliver" exactly when its send failed; unsupported content still gets no notice |
| Tickets.WithDefaultStatus | bot.py:150-151 | only a missing status becomes "open"; a given one is kept |
| Tickets.Appended | bot.py:143-154 | the written list is the old list unchanged with the new ticket at its end |
| Tickets.SavedCounter | bot.py:76-83 | a successful save writes `{"counter": n}`; a failed one leaves the file as it was |
| Tickets.LoadCounter | bot.py:61-73 | all branches: the missing file's initial value (saved, or raising if the directory cannot be made), 1 for undecodable JSON or an absent key, the stored integer, and raising on unreadable data, non-object data or a `counter` value that is not an integer |
| Tickets.CounterSurvivesRestart | bot.py:61-83 | a counter that was saved is what the next start-up loads |
| Tickets.TicketJson | bot.py:386-397 | the saved object carries the ticket's `number` and `user_id` |
| Tickets.StoreLookup | reply.py:31-33 | read back, the ticket list yields the `user_id` of the first ticket with the number, None when there is none |
| Tickets.FirstTicketAppended | bot.py:154 | appending keeps earlier first matches and makes a new number findable |
| Tickets.FirstTicketNone | reply.py:31-35 | no ticket is found exactly when no ticket carries the number |
| Tickets.SavedTicketIsFound | reply.py:31-33 | a ticket saved under an unused number is the one the router resolves |
| Flow.AddressKeyboard | bot.py:178-180 | one button per address in list order, with callback data `addr_i` |
| Flow.SecondField | bot.py:204 | `split("_")[1]` raises exactly when the data has no '_' |
| Flow.DecodeAddress | bot.py:204-205 | the selected address is always one of the six, and data without '_' raises; KeyboardRoundTrip states the round trip |
| Flow.PyIndex | bot.py:205 | list indexing with Python's negative indices, and IndexError exactly outside `-len..len-1` |
| Flow.SecondFieldOfCallback | bot.py:204 | the second field of `addr_d` is d |
| Flow.KeyboardRoundTrip | bot.py:204-205 | pressing the i-th address button selects the address written on it |
| Flow.PreviewButtonNotAnAddress | bot.py:204 | "send" and "cancel" data make `address_selected` raise |
| Flow.NegativeIndexCountsFromEnd | bot.py:204-205 | `addr_-1` selects the last address |
| Flow.AttachmentWord | bot.py:254 | each of the three words is chosen exactly for its range of counts |
| Flow.Batch | bot.py:403-404 | the zip-and-filter keeps only attached files, at most all of them; BatchMembers and BatchAppend state which and in what order |
| Flow.BatchesPartition | bot.py:403-404 | every attachment lands in exactly one of the two batches |
| Flow.BatchAppend | bot.py:238-249 | an attachment added last comes last in its batch |
| Flow.BatchMembers | bot.py:403-404 | a batch holds exactly the files tagged with its kind |
| Flow.Route | bot.py:489-506 | each handler is picked exactly for the updates it accepts: the entry points `/start` and `new_request` in any state (re-entry allowed), the current state's handlers with their filters, then `/cancel` in an active conversation; any other update, with or without a conversation, is ignored |
| Flow.Advance | bot.py:489-506 | a returned state is stored, END forgets the user, an exception keeps the state; other users are untouched |
| Flow.DisplayName | bot.py:389 | the username when it is non-empty, else the full name |
| Flow.MakeTicket | bot.py:386-397 | the saved request carries the counter, the timestamp, `username or full_name`, the user's id, the session's fields and status 1 |
| Flow.ConfirmedStatusKept | bot.py:396 | the saved status is 1, never the "open" default |
| Flow.CompletedIsPrefix | bot.py:399-424 | the sends that go out are the awaited ones up to the first that raises, all exactly when none raises |
| Flow.CompletedSnoc | bot.py:399-424 | one more awaited send goes out exactly when all before it and it succeed |
| Flow.DispatchAttempts | bot.py:399-424 | the sends of the `try` block in order, each with whether it raises; AttemptsAt, AttemptsMedia and AttemptsOk state its layout |
| Flow.AttemptsAt | bot.py:399-424 | the summary at index 0, the non-empty document and photo batches next, then the buttons' removal and the thanks for ticket n |
| Flow.AttemptsMedia | bot.py:402-409 | the media groups lie between the summary and the buttons' removal, documents before photos, each the non-empty batch of its kind |
| Flow.AttemptsOk | bot.py:399-424 | every attempt succeeds exactly when the summary, each non-empty batch, the buttons' removal and the thanks do |
| Flow.Recovery | bot.py:426-444 | the `except` branch: the buttons' removal exactly when that retry works, then always the failure message, last |
| Flow.AttemptsShape | bot.py:399-424 | summary first, non-empty batches (documents before photos), button removal, thanks; all succeed exactly under `DispatchOk` |
| Flow.SendSends | bot.py:351-444 | everything a "send" press sends; stated by SendVerdict, SendGroupMessages and SendBatches |
| Flow.SendVerdict | bot.py:351-444 | a "send" press ends with one verdict, last: the thanks exactly when the ticket was saved and all sends succeeded, the failure message otherwise |
| Flow.ThanksOnlyLast | bot.py:399-424 | of the attempts only the last is the thanks, none is the failure message, and all succeed exactly under `DispatchOk` |
| Flow.SendSendsSplit | bot.py:426-444 | after the sends that went out, the recovery holds only button removal and the failure message |
| Flow.SendGroupMessages | bot.py:352-400 | nothing reaches the staff group unless `save_counter` returned (a failed write is swallowed) and the ticket was written; the summary is then the first send |
| Flow.SendBatches | bot.py:403-409 | each batch sent is non-empty and holds exactly the files of its kind; documents go before photos |
| Flow.SummaryBody | bot.py:367-369 | the part after `#n` holds the site, the contacts and the name, and ends with the request text and a newline |
| Flow.RenderedSummary | bot.py:366-369 | the summary holds `#n`, the site, the contacts and the name, and ends with the request text |
| Flow.FirstLineNumber | reply.py:16-19 | a first line of the summary's shape yields its digit run |
| Flow.SummaryRoundTrip | bot.py:366 | a reply to the rendered summary of ticket n recovers n, whatever address, phone, name and text it holds |
| Flow.StaffReplyReachesAuthor | reply.py:142-163 | a staff reply to ticket n's summary is relayed first, to the author the ticket list names, with `#n` in it |
| Flow.Uploaded | bot.py:235-249 | a document's id is appended with the tag `document`; otherwise the last (largest) photo size, `photo[-1]`, with the tag `photo`; with neither, nothing is appended; earlier attachments and tags are kept; the address, text and phone stay; the prompt id is replaced by the resent prompt's id exactly when a prompt exists and editing it fails |
| Flow.UploadSent | bot.py:251-273 | the edited or resent count message; stated by CountShownIsRecorded |
| Flow.CountShownIsRecorded | bot.py:251-273 | the count edited in or resent is the number of attachments now recorded, with its word, and only once a prompt exists |
| Flow.SessionAfter | bot.py:183-462 | the session each handler leaves; `Run` and `Handle` are proved to follow it |
| Flow.SentBy | bot.py:183-462 | what each handler sends; `Run` and `Handle` are proved to follow it |
| Flow.StepKeepsReady | bot.py:489-506 | a step that changes one user's session and leaves it ready for the next state keeps every user ready |
| Flow.StoreStep | bot.py:355-357 | saving under the counter and advancing it keeps saved numbers increasing and below the counter |
| Flow.FreshNumberFound | bot.py:355-397 | a ticket saved under the counter's value is the one the router finds, when pre-start tickets never used it |
| Flow.StoreAfterStep | bot.py:355-397 | after one handler the list is unchanged or has one ticket more, under the old counter and by this user, which the router finds when the number is fresh; the invariant holds for the new counter |
| Flow.NextOf | bot.py:197-462 | the state each handler returns: END exactly for `cancel` and a "send" press with a group id; SELECT_ADDRESS exactly for the entry points and a "cancel" press with a group id |
| Flow.NextOfRaises | bot.py:200-346 | a handler raises exactly on undecodable address data, on a session without the address or text the preview reads, and in `confirmation` without GROUP_ID |
| Flow.StateOrder | bot.py:489-506 | states only move forward; only an undecodable address or a missing GROUP_ID raises |
| Flow.Step | bot.py:489-506 | one update for one user on values, as `IntakeBot.Handle` records it; stated through FormWalk |
| Flow.Walk | bot.py:489-506 | several updates in turn; stated through FormWalk |
| Flow.WalkFirst | bot.py:489-506 | the first of several updates is handled first |
| Flow.FormAddressStep | bot.py:179-211 | in SELECT_ADDRESS, the first address button moves to INPUT_TEXT with the first address recorded |
| Flow.FormTextSteps | bot.py:214-315 | a text in INPUT_TEXT, "continue" in UPLOAD_FILES and a phone in INPUT_PHONE move to UPLOAD_FILES, INPUT_PHONE and CONFIRMATION, recording the text (no attachments) and then the phone |
| Flow.FormFilled | bot.py:183-315 | from any state, /start, the first address button, "leak", "continue" and "+1000" reach CONFIRMATION with that session |
| Flow.FormWalk | bot.py:183-409 | the whole form from any state reaches CONFIRMATION with a complete session whose ticket has the first address, text "leak", phone "+1000" and no attachments; the "send" press that follows is a send press (so `IntakeBot.Handle` appends that ticket under the old counter and advances the counter) and ends the conversation |
| Flow.IntakeBot.constructor | bot.py:487 | the counter is what `load_counter` returns; no conversations, no sends |
| Flow.IntakeBot.Start | bot.py:183-197 | the session is cleared and the address menu is sent or edited in; state SELECT_ADDRESS |
| Flow.IntakeBot.NewRequest | bot.py:318-337 | like start, always as a new message |
| Flow.IntakeBot.AddressSelected | bot.py:200-211 | records the decoded address and sends two messages, or raises with nothing changed |
| Flow.IntakeBot.InputText | bot.py:214-231 | records the text, empties the attachments, remembers the prompt's id |
| Flow.IntakeBot.UploadFiles | bot.py:234-275 | the session becomes `Uploaded` (the document or the largest photo size appended with its tag) and the outbox gains `UploadSent` (the count edited into the prompt, or resent) |
| Flow.IntakeBot.FilesContinue | bot.py:278-291 | removes the button when that works, always asks for contacts |
| Flow.IntakeBot.InputPhone | bot.py:294-315 | records the contacts, then shows the preview with the attachment count, or raises on a missing address or text |
| Flow.IntakeBot.SaveRequestToFile | bot.py:119-173 | appends the ticket, or raises with the list unchanged |
| Flow.IntakeBot.Await | bot.py:399-424 | one awaited send, skipped once an earlier one raised |
| Flow.IntakeBot.Dispatch | bot.py:399-424 | the outbox gains exactly the attempts up to the first failure |
| Flow.IntakeBot.Submit | bot.py:351-444 | the counter advances and `save_counter` runs first; the ticket is written when `save_counter` returns and the session is complete; the outbox gains `SendSends` |
| Flow.IntakeBot.Recover | bot.py:426-444 | the outbox gains exactly `Recovery`: the buttons' removal when that retry works, then the failure message; nothing else changes |
| Flow.IntakeBot.Confirmation | bot.py:340-447 | raises without GROUP_ID even for "cancel"; "cancel" restarts; "send" submits and ends |
| Flow.IntakeBot.Cancel | bot.py:450-462 | the cancellation notice; the conversation ends |
| Flow.IntakeBot.RunStep | bot.py:183-337 | a handler other than `confirmation` returns `NextOf`, leaves the session as `SessionAfter` and sends `SentBy`, and leaves the counter, counter.json and the list alone |
| Flow.IntakeBot.Run | bot.py:489-504 | the routed handler returns `NextOf`, leaves the user's session as `SessionAfter` says and the outbox extended by `SentBy`; a send press advances the counter, saves it to counter.json and appends the ticket when `Saves`; any other update leaves counter, counter.json and list alone |
| Flow.IntakeBot.Process | bot.py:489-506 | the routed handler runs and its returned state is recorded: the invariant kept, the user's session and sends as `SessionAfter` and `SentBy` say, others' sessions untouched, the list changed only on a send press by one ticket under the old counter |
| Flow.IntakeBot.Handle | bot.py:489-506 | keeps the invariant; ignores unrouted updates and changes nothing for them; otherwise as `Process`: records the returned state; the user's session and sends as `SessionAfter` and `SentBy` say, others' sessions untouched; counter.json and the list change only on a send press, as `Run` states; one ticket at most, under the old counter, by this user, and resolvable by the router |

## Left out

- The Flask `/ping` endpoint, its thread, polling, handler registration and the BOT_TOKEN check are I/O around the core.
- Telegram calls are modelled as outbox entries. A send whose failure is not caught is assumed to succeed. This covers the sends in `start`, `new_request`, `address_selected`, `input_text`, the contact request in `files_continue`, `input_phone`, `cancel`, the resent count in `upload_files`, and the failure message in the `except` branch of `confirmation`.
  - `query.answer()` and `get_file()` are not modelled; the file id is taken as given.
- Message wording, emoji and HTML markup are fixed by the `Outgoing` constructor names. Only the varying parts are fields.
- For `Flow.RenderedSummary`, the summary's text is taken as staff clients hold it:
  - the `<code>` tags are gone;
  - the `mention_html()` link shows the full name;
  - HTML escaping of user text is not modelled.
- Flow.Route: python-telegram-bot keys conversations by (chat, user). The model keys them by user alone; for a private chat the two coincide.
- The standalone `start` and `new_request` handlers registered after the ConversationHandler are not modelled. That handler claims the same updates first.
- Strings.IsDigit: `\d` and `int()` accept every Unicode decimal digit. The model accepts ASCII digits only.
- Strings.ParseInt: surrounding whitespace and `_` separators, which `int()` also accepts, are not modelled.
- Tickets.LoadCounter: a `counter` value that is not an integer is modelled as raising. Python would return it and fail later at `counter + 1`, or, for a float, go on counting.
- Flow.IntakeBot.SaveRequestToFile: reading, decoding and the temporary-file mechanics are one success flag, and JSON parsing is abstract. The flag also stands for the `AttributeError` of a non-list file.
- Temporary files, `makedirs` and partial writes are not modelled.
- Flow.IntakeBot.Handle: the router is shown to resolve the new ticket only when the tickets from before start-up never used its number. A counter reset to 1 by an undecodable counter file can reuse old numbers. A reply then goes to the older ticket's author, because the lookup takes the first match.
- Flow.SummaryRoundTrip: stated for non-negative numbers. A negative counter renders as `#-n`, which `\d+` does not match.
- Flow.IntakeBot.Handle: handlers run one at a time. Concurrent updates, and the read-modify-write race on the two files, are not modelled.
- The 21 → "вложений" plural is what the code's rule gives and is modelled as written.
- `is_request_closed` in conversation.py is commented out and is not modelled.
- JSON floats are not part of `JsonValue.Json`; a float `number` or `user_id` in the ticket list is not modelled.

## Findings

| source | as written | input that shows it | evidently intended | confidence | as-written member | corrected member |
|---|---|---|---|---|---|---|
| reply.py:156-171 | "could not deliver" is sent only when the "delivered" notice itself raises. `_send_reply` catches its own send errors and returns False, and a False result sends nothing. | A text reply, for a resolvable ticket, to an author who has blocked the bot: the relay's send raises inside `_send_reply`, and the staff group hears nothing. | "delivered" after a successful relay, "could not deliver" after a relay whose send failed; unsupported content still ignored | not executed | Reply.FailedRelayUnreported | Reply.IntendedNoticeTellsOutcome |
