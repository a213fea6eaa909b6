# Selfbot posting loop, modelled in Dafny

Selfbot posts a configured message to a list of Discord channels. The list is
kept in a JSON channel file. Each record has a name, a post URL, a channel id,
a message and a `chance`. This model covers three parts of `bot.py`:

- `send_post` (module `Dispatcher`): one channel's post. It classifies each
  HTTP reply, and on a rate-limit reply (429) it sleeps a computed back-off and
  tries again, making at most three requests in all.
- One pass of the `main_code` loop (module `Scheduler`). The pass walks a copy
  of the channel list and rolls `randint(0, 100)` for each channel. It
  dispatches the channel when `chance >= roll`. A channel that answers 403 is
  removed from the live list and the file is rewritten at once. A 401 ends
  the process on the spot. Every other channel is followed by a 10-20 second
  interval sleep. The pass ends with the long sleep chosen at startup.
- The record `add_channel` builds (module `Channels`). The name is stripped.
  Each literal backslash-n in the message becomes a line break. The URL is
  derived from the id. The record is appended to the loaded list.

The two loops, `send_post`'s retry loop and the pass over the channel list,
are methods, each proved equal to a specification function:

- `SendPost` against `Dispatch`.
- `VisitChannel` against `Visit`.
- `VisitSnapshot` against `PassUpTo`.
- `RunPass` against `Pass`.

`add_channel`'s `channels.append` (bot.py:264) acts on a list just loaded from
the file and shared with nothing else, so it is the function
`Channels.AddChannel`, which returns the extended list.

The properties are proved as lemmas about those functions. Things the program
gets from outside become inputs:

- The HTTP replies are a sequence with one entry per request `send_post` may
  make.
- The random roll and interval come in one `Draw` per channel.
- Sleeps and file writes are recorded as events in a trace.

The model follows the code where it behaves differently from what its
prompts and messages suggest:

- On slowmode, a reported wait of at most 300 seconds makes the code sleep
  wait + 20, up to 320 seconds. Only a wait above 300 is replaced by exactly
  300 (`Dispatcher.SlowmodeCapIsNotABound`).
- A channel with chance 0 is still dispatched when the roll is 0, which is 1
  roll in 101 (`Scheduler.DispatchOdds`).
- The chance prompt asks for 0 - 100, but `add_channel` never checks it, so
  the model allows any integer.

## Model

| member | source | states |
|---|---|---|
| Dispatcher.RetryDelay | bot.py:115-151 | slowmode and write-limit sleep exactly 300 s above a 300 s report; at or below it slowmode sleeps exactly the report + 20 (so at most 320) and the write limit exactly max(report, 60) (so 60 to 300); any other sub-code sleeps the report + 20 uncapped; under the cap the sleep is never shorter than the report |
| Dispatcher.Classify | bot.py:96-159 | 200 is Sent, 401 is Fatal, 403 is Forbidden, each iff that status; a 429 with a parseable body whose delay (defaults 20 s, code 0) `time.sleep` accepts, 0 to about 9.2e9 s, retries after exactly that delay; everything else (network error, unparseable body, a refused delay, other status) ends the call as Failed |
| Dispatcher.Sleepable | bot.py:127-151 | its body is the definition: the durations `time.sleep` accepts, 0 to 2^63 - 1 ns; `Classify` retries only on these and `DispatchSleepsAccepted` shows every back-off is one |
| Dispatcher.Run | bot.py:95-162 | its body is the definition: the loop with the attempts still left, one reply per request; characterized by `RunExplained` |
| Dispatcher.Dispatch | bot.py:63-162 | its body is the definition: `Run` with all three attempts; characterized by `DispatchCharacterized`, bounded by `DispatchBounded`, and implemented by `SendPost` |
| Dispatcher.RunExplained | bot.py:95-161 | the recursive specification's sleeps are the waits of the leading 429 replies, after which either the next reply ends the call or the budget ran out and the call failed |
| Dispatcher.ExplainsUnique | bot.py:95-161 | at most one result fits a given reply sequence |
| Dispatcher.DispatchCharacterized | bot.py:95-161 | a result is what `send_post` produces iff it fits the replies in that way (both directions) |
| Dispatcher.DispatchBounded | bot.py:64-65 | at most three requests and three sleeps; one request more than sleeps unless all three attempts were 429s and the call failed |
| Dispatcher.FirstReplyDecides | bot.py:99-113 | a first reply that is not a retryable 429 decides the outcome after one request with no sleep; a network error or an unlisted status fails |
| Dispatcher.DispatchSleepsAccepted | bot.py:123-151 | every back-off the call performs is one `time.sleep` accepts: non-negative and within its 64-bit nanosecond range |
| Dispatcher.HugeWaitFails | bot.py:148-155 | a 429 with an unknown sub-code reporting 1e10 s fails after one request with no sleep, because the sleep overflows inside the `try` |
| Dispatcher.SlowmodeCapIsNotABound | bot.py:125-133 | a 300 s slowmode report sleeps 320 s, a 301 s report sleeps 300 s |
| Dispatcher.LongSlowmodeGivesUp | bot.py:123-129 | three slowmode replies reporting 1000 s give three 300 s sleeps, three requests and Failed |
| Dispatcher.DispatchEndsAfter | bot.py:95-159 | waits followed by a deciding reply give exactly that outcome, request count and sleeps |
| Dispatcher.DispatchExhausted | bot.py:95-162 | three retryable 429s give Failed after three requests and those three sleeps |
| Dispatcher.SendPost | bot.py:63-162 | the loop with its return, exit, break and continue branches returns exactly the specification's outcome, request count and sleeps |
| Channels.Strip | bot.py:251 | the result neither starts nor ends with whitespace (Python `str.isspace`), and everything cut from either end is whitespace |
| Channels.IsSpace | bot.py:251 | its body is the definition: the characters Python's `str.isspace` accepts, the set `strip()` removes; `Strip`'s ensures are stated with it |
| Channels.StripIdempotent | bot.py:251 | stripping a stripped name changes nothing |
| Channels.Unescape | bot.py:253 | the replacement never lengthens the message and handles its first character as `str.replace` does |
| Channels.Escape | bot.py:253 | how a multi-line message is typed at the one-line prompt: never shorter, newline written as backslash-n |
| Channels.UnescapeLeavesNoEscapes | bot.py:253 | no literal backslash-n survives the replacement |
| Channels.UnescapeIdentity | bot.py:253 | a message without backslash-n is stored unchanged |
| Channels.UnescapeEscape | bot.py:253 | typing the escaped form of a message without literal backslash-n yields that message |
| Channels.EscapeUnescape | bot.py:253 | writing the stored message back in prompt form gives exactly the typed line, for every line without a line break (every line `input()` returns) |
| Channels.NatToDecimal | bot.py:258 | the rendered id is a non-empty string of digits without a leading zero |
| Channels.IntToDecimal | bot.py:258 | its body is the definition: `str(channel_id)`, a minus sign before the digits of a negative id; `IntToDecimalRoundTrip` shows it reads back as the id |
| Channels.DecimalValueOfNat | bot.py:258 | the digits read back as the number |
| Channels.IntToDecimalRoundTrip | bot.py:258 | `str(id)`, sign included, parses back to the id |
| Channels.ChannelUrl | bot.py:258 | the URL starts with the v9 channels prefix and ends with `/messages` |
| Channels.ChannelUrlRoundTrip | bot.py:258 | the id can be read back from the URL, so distinct ids give distinct URLs |
| Channels.NewChannel | bot.py:251-262 | the record's name is the typed name stripped, its message the typed message with each backslash-n replaced, its URL the one built from the id; it keeps id and chance, its URL names its id, its name has no surrounding whitespace and its message no backslash-n left |
| Channels.AddChannel | bot.py:256-264 | the list grows by exactly one record, the old records unchanged and in order, the new one last |
| Scheduler.FirstIndex | bot.py:210 | the position found holds the channel and nothing before it does |
| Scheduler.RemoveFirst | bot.py:210 | `remove` shortens the live list by exactly one |
| Scheduler.RemoveFirstSplits | bot.py:210 | the result is the list before the first equal record followed by the list after it |
| Scheduler.RemoveFirstMultiset | bot.py:210 | exactly one copy of the record leaves the list |
| Scheduler.RemoveFirstKeepsTail | bot.py:201-210 | removing the first copy of a record that occurs before a tail keeps that tail at the end of the list |
| Scheduler.DispatchOdds | bot.py:203-205 | of the rolls 0..n-1, a chance c dispatches on none if c < 0, all if c >= n, else c + 1 (with n = 101: chance 100 always, chance 0 once) |
| Scheduler.Dispatches | bot.py:205 | its body is the definition: `channel['chance'] >= roll`; `DispatchOdds` counts the rolls on which it holds and `Expected` decides by it |
| Scheduler.Visit | bot.py:205-223 | a turn leaves the live list alone or removes the first copy of its channel |
| Scheduler.PassUpTo | bot.py:201-223 | after k snapshot entries at most k decisions were made |
| Scheduler.Pass | bot.py:200-226 | its body is the definition: the whole snapshot, then the long sleep, or the exit or crash; characterized by `PassEnding`, `PassDecidesEachChannel`, `PassEffects` and `PassKeepsTheRest`, and implemented by `RunPass` |
| Scheduler.WholeSleepable | bot.py:226 | its body is the definition: the whole seconds `time.sleep` accepts, 0 to 9223372036; `PassEnding` shows the pass completes exactly when the long sleep is one |
| Scheduler.FileContents | bot.py:165-167 | its body is the definition: the list the file holds after a trace, the last list `update_channels_json` wrote or the list loaded at the start; `FileMatchesLive` shows it is always the live list |
| Scheduler.ExitedStays | bot.py:107-109 | once `send_post` exits, no later entry changes the state |
| Scheduler.SnapshotTailIsLive | bot.py:201-212 | while running, the entries not yet visited form the end of the live list, so every entry is visited once |
| Scheduler.EntryIsLive | bot.py:208-210 | the channel a turn removes is always in the live list, so `remove` never raises |
| Scheduler.Expected | bot.py:203-206 | a channel is skipped iff its chance is below the roll; a dispatched one gets `send_post`'s outcome |
| Scheduler.VisitDecides | bot.py:205-219 | a turn records one decision; it ends the pass iff the outcome is Fatal; it removes the channel iff Forbidden |
| Scheduler.PassDecisions | bot.py:201-223 | the decisions are the expected ones for the entries visited in order; all entries are visited unless a 401 came, and then it is the last decision |
| Scheduler.VisitCounts | bot.py:205-223 | a turn adds one interval sleep iff skipped, sent or failed, and one file write iff forbidden |
| Scheduler.PassCounts | bot.py:201-223 | over the pass, interval sleeps equal the skipped, sent or failed channels and file writes equal the removals |
| Scheduler.FileMatchesLive | bot.py:208-211 | after every turn the last written channel list is the live list |
| Scheduler.LiveLosesRemoved | bot.py:208-212 | the live list plus the removed channels is the snapshot as a multiset, and the list is shorter by the number of removals |
| Scheduler.PassEnding | bot.py:200-226 | the pass completes iff no 401 came and `time.sleep` accepts the long sleep (0 to 9223372036 s), and crashes iff no 401 came and it does not; a full pass decides every entry and ends with exactly one long sleep; an exited pass ends on the fatal decision |
| Scheduler.PassDecidesEachChannel | bot.py:201-206 | each channel the whole pass reached got the decision its roll and its own `send_post` calls for |
| Scheduler.PassEffects | bot.py:201-226 | the whole pass sleeps one interval per skipped, sent or failed channel, writes the file once per removal, and leaves the live list in the file |
| Scheduler.PassKeepsTheRest | bot.py:201-212 | after the whole pass the live list is the snapshot less one copy of each forbidden channel |
| Scheduler.TwoChannelPass | bot.py:200-226 | chance 100 whose first reply is a 200 (any body) and chance 0 with a non-zero roll: sent, skipped, two interval sleeps, one long sleep |
| Scheduler.VisitChannel | bot.py:202-223 | the loop body gives exactly the specification's turn |
| Scheduler.VisitSnapshot | bot.py:201-223 | the `for` over `channels[:]`, stopping on exit, gives exactly the specification's state after the whole snapshot |
| Scheduler.RunPass | bot.py:200-226 | one pass as written gives exactly the specification's live list, decisions, trace and ending |

## Left out

- The HTTP call, the request headers, the random user-agent choice and the referer (bot.py:67-93, 97) are a foreign library call. Only the reply is modelled: a status, a parsed body or `Unparseable`, or a network error.
- Real time and randomness. `time.sleep` becomes a trace event. `randint(0, 100)` and `uniform(10, 20)` are inputs whose ranges are preconditions of the pass.
- The interval is a real number. Floating-point rounding of it and of `retry_after` is not modelled.
- A non-numeric `retry_after` (a string, null, list or object) is folded into `Unparseable`. Inside the source's `try`, the first use of the value raises: `retry_after > 300` on slowmode (bot.py:125), `max(retry_after, 60)` on the write limit (bot.py:136), and the log line's `:.2f` format on any other sub-code (bot.py:150). The call then ends as Failed with no sleep.
- A non-finite `retry_after` (NaN or an infinity) is not representable. Each behaves like a finite report the model covers. An infinite report on slowmode or the write limit exceeds 300, so the code sleeps 300 and retries, as for a report of 1000. Minus infinity on the write limit gives max(-inf, 60) = 60 and a retry, as for a report of 0. NaN on any sub-code, infinity on other sub-codes and minus infinity on slowmode make `time.sleep` raise, so the call fails, as for `Unparseable`.
- Startup is not modelled: dotenv loading, the token check, the manual `.env` read and logger setup (bot.py:13-60).
- JSON reading and writing, the `.json` extension checks and the directory listing (bot.py:165-167, 178-198, 230-249, 266-267) are file I/O. `update_channels_json` is a `Persist` event carrying the list it writes.
- `add_channel` writes the file after appending. That write is I/O and is not an event here.
- Console prompts, `int(input())` parsing and its errors, the menu and the crash handler (bot.py:171-176, 273-288) are interactive I/O. Ids, chances and the long sleep arrive as integers.
- A long sleep below 0 or above 9223372036 s makes `time.sleep` raise. The model ends that pass as `Crashed` and does not model the crash handler.
- `Dispatcher.MaxSleep`, the float bound of `time.sleep`, is taken as exactly 2^63 - 1 ns. CPython first rounds the float to nanoseconds, and that rounding at the edge is not modelled.
- Log messages are side effects only.
- The endless `while True` (bot.py:200) is modelled as one pass. The next pass starts from the live list this one leaves.
- The process exit on a 401 is modelled as the pass ending `Exited`. Nothing after it runs.
- Channel records are compared as whole values, like `list.remove` compares dicts. Extra keys a hand-edited file might carry are not modelled.
