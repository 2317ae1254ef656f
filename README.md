# Persona bots: the per-channel conversation engine

The repository runs four Discord bots, each with its own persona: the engineer
(`engineer.py`), the designer (`designer.py`), the marketer (`marketer.py`) and the
thinker (`thinker.py`). Each bot keeps three module-level dictionaries keyed by channel:

- `conversation_log`: a capped list of `{role, content, ts}` entries;
- `last_autoreply`: the time of the last autonomous reply;
- `autoreply_counts`: an unpruned list of autonomous-reply times.

Every human message is logged. A mention always gets a reply attempt and is never
throttled. Any other message may get an unprompted reply, gated by a random draw and a
two-part throttle: a strict cooldown and an inclusive count of sends inside a trailing
window. A background task also scans
the channels and sometimes opens a discussion with a fixed seed utterance. A fifth bot,
`discordbot.py`, only answers mentions and keeps an uncapped list of
`ユーザー: …` / `AI: …` lines per channel.

The four persona files differ in their constants and in engineer.py's failure handling,
which the `strictGenerate` flag selects. The model therefore has:

- one engine, parameterised by a `Persona` record (`Config`), with the three dictionaries
  as one `State` value (`Engine`);
- pure transitions over that state for every handler, and the throttle (`RateLimit`),
  the capped log (`History`), the prompt builder (`PromptBuilder`) and engineer.py's
  failure classification (`Generation`);
- a class `Agents.Agent` whose fields are the three dictionaries. Its methods update them
  in place, step by step as the Python code does, and each method is proved to perform
  exactly the corresponding `Engine` transition. So every property proved about the
  engine holds of the object;
- one module per persona file (`Engineer`, `Designer`, `Marketer`, `Thinker`). Each holds
  that file's constants, the exact prompt texts and lemmas that pin down its thresholds;
- `MentionBot` for `discordbot.py`: a pure handler `React` and a class `Bot` that updates
  the history dictionary in place and is proved against it.

The outside world enters as parameters:

- The clock is two integers. `now` is the time a message arrives (or a channel is
  scanned), which `add_log` and `can_autoreply` read. `done` is the time after
  generation, which the reply's log entry and `record_autoreply` read.
- A call to `random.random()` is a `draw: real`.
- The generation backend's result is a `GenOutcome`: `NoResponse`, `Response(text)` or
  `Raised(message)`.
- The idle scan's send permission is a boolean per channel.
- What a handler does to the world is a list of `Effect`s: `Request(prompt)` for a call
  to the backend and `Send(channel, text)` for a message.

Four points of the code's behaviour are easy to misread:

- A channel that never had an autonomous reply counts its last one as time 0
  (`last_autoreply.get(c, 0)`). So it is closed until the clock reaches the cooldown
  (`Engine.FreshChannelGate`).
- The reply probability is not clamped.
- The send-time list is never pruned; old times are only filtered out when counting.
- Only engineer.py answers a failed mention with an apology. The other three drop the
  failure silently.

## Model

| member | source | states |
|---|---|---|
| History.Appended | engineer.py:44-48 | `add_log` on one channel's list: the result holds at most `cap` entries and ends with the new entry; below the cap nothing is dropped; at the cap exactly the oldest entry goes and the rest keep their order |
| History.AppendAll | engineer.py:44-48 | any number of `add_log` calls leave exactly the newest `cap` entries of the whole stream, in order (FIFO eviction), and never more than `cap` |
| History.Last | engineer.py:68 | `list[-k:]`: the last `k` entries, or all of them when fewer, as a suffix of the list |
| Engine.Log | engineer.py:68 | `conversation_log.get(c, [])`: the channel's list when it has one, the empty list otherwise |
| Engine.LastSend | engineer.py:52 | `last_autoreply.get(c, 0)`: the recorded time when there is one, 0 otherwise |
| Engine.Sends | engineer.py:56 | `autoreply_counts.get(c, [])`: the channel's send list when it has one, the empty list otherwise |
| Engine.AddLog | engineer.py:44-48 | only the channel's log changes, to the capped append of the new entry; the other channels' logs and both throttle maps are untouched; the cap invariant is preserved |
| RateLimit.CanFire | engineer.py:50-59 | `can_autoreply`'s test: true exactly when the cooldown has passed since the last send (`now - last >= cooldown`) and fewer than the maximum of the send times lie inside the window |
| RateLimit.InWindowCounts | engineer.py:56-57 | the length of the filtered list equals the number of positions in the send list whose time is inside the window |
| RateLimit.InWindow | engineer.py:56 | the window filter keeps exactly the send times `t` with `now - t <= window` (inclusive), each as often as it occurs, and never more than the list had |
| RateLimit.InWindowAppend | engineer.py:56 | the filter of a concatenation is the concatenation of the filters |
| RateLimit.InWindowKeepsRecent | engineer.py:56 | send times all inside the window are all counted |
| RateLimit.AgedOutDropped | engineer.py:56 | a send time older than the window no longer counts |
| RateLimit.RecentSendsBlock | engineer.py:50-59 | once at least `maxInWindow` sends lie inside the window, `can_autoreply` is false whatever the cooldown says and whatever older sends there were |
| Engine.FreshChannelGate | engineer.py:50-59 | on a channel with no record, `can_autoreply` holds exactly when `now >= cooldown`, because the last send defaults to 0 |
| Engine.CanAutoreply | engineer.py:50-59 | `can_autoreply` on a channel: true exactly when its last send (0 when missing) plus the cooldown is at most `now` and fewer than `maxInWindow` of its send times lie inside the window; on a fresh channel exactly when `now >= cooldown` and the maximum is positive |
| Engine.GateAfterSends | engineer.py:50-64 | after a run of `record_autoreply` calls on a fresh channel, `can_autoreply` sees exactly those send times, the last one as the last send |
| Engine.WindowFullBlocks | engineer.py:56-58 | whatever sends came before, recording `maxInWindow` sends inside the window closes the channel |
| Engine.RecordAutoreply | engineer.py:61-64 | the last send becomes `now` and exactly `now` is appended to the channel's send list; other channels and the logs are untouched; the channel stays closed for every time before `now + cooldown` (strict cooldown) |
| Engine.Format | engineer.py:130 | the sent text is `**[`, the persona's name, `]** ` and then the reply, whole and at the end |
| Engine.RecordAll | engineer.py:61-64 | a run of `record_autoreply` calls on one channel leaves the logs as they were, makes the last of their times the channel's last send, appends exactly those times, in order, to its send list, and changes no other channel |
| Engine.OtherSpoke | engineer.py:150-151 | true exactly when some entry of the recent window has a role other than `ユーザー` |
| Engine.OtherSpokeRecent | engineer.py:150-151 | testing the `[-k:]` slice is testing whether one of the last `k` entries of the whole log has a role other than `ユーザー` |
| Engine.ReplyProbability | engineer.py:147-153 | the reply probability is the base probability plus the boost exactly when one of the last `decisionLookback` entries is not a user's, and the base probability otherwise; it is not clamped |
| Engine.AutonomousFires | engineer.py:146-155 | the unprompted reply fires exactly when the draw is below the probability for the recent log and `can_autoreply` holds, in both directions for each of the two cases |
| PromptBuilder.Prompt | engineer.py:66-76 | the prompt is exactly four consecutive parts, in order and without overlap: the persona text and the history header; the rendered transcript of the newest `promptLookback` entries; the persona's new-utterance label; and the user's text, a blank line, the speaker's name and the persona's fixed instruction. So the history always sits after the persona text and before the new utterance |
| PromptBuilder.Line | engineer.py:73 | one entry renders as `role: content` followed by a newline: its length is the role's and the content's plus three, and it ends with the newline |
| PromptBuilder.Transcript | engineer.py:70-73 | the rendered history is empty exactly when there are no entries, and otherwise ends with a newline |
| PromptBuilder.TranscriptConcat | engineer.py:70-73 | rendering two runs of entries one after the other renders their concatenation |
| PromptBuilder.RenderedIsNewestTail | engineer.py:68-73 | the history block holds at most `promptLookback` entries and is exactly the chronological tail of the channel's full transcript: nothing is reordered or skipped |
| Engine.NewMessageIsNewestLine | engineer.py:123-128 | because the human message is logged before `generate` builds the prompt, the prompt's history block already ends with that message's line |
| Agents.Agent.BuildPrompt | engineer.py:66-76 | the `prompt +=` loop over the newest `promptLookback` entries produces the prompt the specification function `Prompt` defines; the method has no `modifies` clause, so it reads the log and changes nothing |
| Agents.Agent.AddLog | engineer.py:44-48 | `setdefault`, `append` and the `[-cap:]` slice in place produce the new state `Engine.AddLog` defines, and the cap invariant holds |
| Agents.Agent.RecordAutoreply | engineer.py:61-64 | the two in-place map updates produce the new state `Engine.RecordAutoreply` defines |
| Agents.Agent.constructor | engineer.py:34-36 | a bot starts with three empty dictionaries |
| Generation.MentionsAuth | engineer.py:96 | the `API_KEY`/`AUTHENTICATION` test on the upper-cased text; a text shorter than 7 characters never passes it |
| Generation.MentionsQuota | engineer.py:98 | the `QUOTA`/`LIMIT` test on the upper-cased text; a text shorter than 5 characters never passes it |
| Generation.MentionsModel | engineer.py:100 | the `MODEL` test on the upper-cased text; a text shorter than 5 characters never passes it |
| Generation.Classify | engineer.py:96-103 | the ordered, case-insensitive keyword test: `API_KEY`/`AUTHENTICATION` gives the authentication category even when a quota or model keyword is present; otherwise `QUOTA`/`LIMIT` gives quota; otherwise `MODEL` gives model; anything else is unknown (both directions of each case) |
| Text.ContainsPlaced | engineer.py:96-100 | `pat in s`, as the keyword and marker tests use it: never true when the pattern is longer than the text, always true when the pattern opens or closes the text |
| Generation.ClassifyIgnoresCase | engineer.py:96-100 | upper-casing the text first does not change its category |
| Generation.KeywordLettersAbsent | engineer.py:96-103 | a text without `_`, `H`, `Q` or `L` in either case cannot hold any keyword, so it is unknown |
| Generation.Generate | engineer.py:78-103 | `generate` succeeds exactly on a response, which must also be non-empty for the engineer; the result is the stripped response text; the engineer turns every raised exception into its category's text and a missing response into `API呼び出しエラー: No response from Gemini API`; the other personas pass a raised exception's message through and fail on a missing response with Python's `None.text` error |
| Generation.ErrorText | engineer.py:96-103 | the re-raised text for each category: the authentication text carries `API認証エラー`; the quota text lacks it and carries `使用量制限`; the model text lacks both and carries `モデルエラー`; the unknown text is `API呼び出しエラー: ` followed by the original message, unchanged |
| Generation.Fail | engineer.py:91-103 | the `except` block of the engineer's `generate` always fails; an unknown failure is re-raised as `API呼び出しエラー: ` and the original text; a classified failure is re-raised with a text that leads the mention handler to that category's apology |
| Generation.CategoryApology | engineer.py:137-143 | each category's apology: the authentication, quota and model apologies are their fixed texts; the generic apology starts with its fixed opening, is never longer than the opening, 50 characters and the closing, quotes the whole details exactly when they have at most 50 characters, and quotes exactly their first 50 characters otherwise |
| Generation.Apology | engineer.py:136-143 | the ordered marker search: a text holding `API認証エラー` gets the authentication apology; otherwise one holding `使用量制限` gets the quota apology; otherwise one holding `モデルエラー` gets the model apology; the generic apology is sent exactly when the text holds none of the three |
| Generation.EmptyResponseIsUnknown | engineer.py:86-87 | an empty response is re-raised as `API呼び出しエラー: Empty text response from Gemini API`, because its own text has no keyword |
| Generation.ApologyFollowsCategory | engineer.py:131-141 | for the three fixed re-raised texts, the mention handler's marker search recovers the category and sends that category's apology |
| Generation.AuthTextFound | engineer.py:136-137 | the authentication text carries the `API認証エラー` marker |
| Generation.QuotaTextFound | engineer.py:138-139 | the quota text lacks the authentication marker and carries `使用量制限` |
| Generation.ModelTextLacksEarlier | engineer.py:136-139 | the model text carries neither of the two markers tested before its own |
| Generation.ModelTextFound | engineer.py:140-141 | the model text carries `モデルエラー` |
| Generation.UnknownIsQuoted | engineer.py:142-143 | an unknown failure whose own text has no marker gets the generic apology, which quotes the first 50 characters of the re-raised text |
| Generation.ApologyReadsText | engineer.py:136-143 | the marker search reads the text, not the category: an unknown failure whose message is `モデルエラー` is answered with the model apology |
| Generation.EmptyResponseIsQuoted | engineer.py:142-143 | the apology for an empty response is the generic one, and it quotes the whole re-raised text, which is under 50 characters |
| Engine.OnMessage | engineer.py:116-163 | a bot's message changes nothing; other channels' logs never change; the throttle maps either stay as they were or change only at the message's channel, to the last send `done` and one appended stamp; a mention never touches the throttle and its first effect is the one request for a reply, with the prompt built after the user entry was logged; at most a request and one send to the message's channel; the cap invariant is preserved |
| Engine.Answered | engineer.py:126-144 | the mention branch's new state: a failure changes nothing; a reply is logged at `done` on its channel alone; both throttle maps stay as they were; the cap invariant is preserved |
| Engine.Answer | engineer.py:126-144 | the mention branch requests the prompt over the channel's log first; it sends the formatted reply on success, the apology for the failure's text when the persona classifies failures, and nothing else |
| Engine.Attempted | engineer.py:155-163 | an autonomous attempt's new state: a failure changes nothing; a reply is logged at `done` on its channel, then the last send becomes `done` and `done` is appended to that channel's send list, and no other channel changes; the cap invariant is preserved |
| Engine.Attempt | engineer.py:155-163 | an autonomous attempt requests the prompt over the channel's log; it sends exactly when the reply was generated, and then sends only the formatted reply; a failure sends nothing |
| Engine.OnMessageLog | engineer.py:121-163 | a human message appends the user entry before any branching; the reply entry, at `done`, follows exactly when a reply was attempted and generated; a failure leaves only the user entry; a message that is neither a mention nor fires changes nothing beyond the user entry and has no effects |
| Engine.MentionFailure | engineer.py:126-144 | a failed mention reply leaves only the user entry and the throttle as it was; the engineer sends the apology for the failure's text, the other personas send nothing |
| Engine.OnMessageRecordsAfterReply | engineer.py:155-160 | the throttle is written only when the autonomous path fires and the reply was generated: then the last send is `done` and exactly one stamp is appended; otherwise both throttle maps are unchanged |
| Agents.Agent.OnMessage | engineer.py:116-163 | the handler run step by step on the object produces the new state and effects `Engine.OnMessage` defines, and keeps the cap invariant |
| Agents.Agent.AnswerMention | engineer.py:126-144 | the mention's `try` block on the object produces `Engine.Answer`'s state and effects |
| Agents.Agent.TryAutoreply | engineer.py:155-163 | the autonomous `try` block on the object (log, then record, then send) produces `Engine.Attempt`'s state and effects |
| Engine.ScanStep | engineer.py:173-186 | a channel without send permission is skipped; a failed generation leaves the state as it was; the state changes only with permission, a draw below the idle probability, an open throttle and a generated reply; other channels' logs and throttle entries never change; the cap invariant is preserved; the only request's prompt is built from the persona's seed utterance over the channel's log; a send happens exactly when the state changes, and it is the formatted reply; a skipped or failed channel sends nothing |
| Engine.ScanStepFires | engineer.py:175-184 | when the scan may send, the draw is below the idle probability, the throttle is open and the reply was generated, the reply (not the seed) is logged at `done` and the send recorded at `done` |
| Engine.ScanStepChanges | engineer.py:175-184 | the scan changes a channel's state exactly under those four conditions |
| Engine.Scan | engineer.py:171-186 | one pass over the channels in order keeps the cap invariant |
| Engine.ScanFailureIsSkip | engineer.py:171-186 | failure isolation: a channel whose generation fails leaves the pass's final state exactly as if the bot could not send there, so the channels after it are unaffected |
| Engine.FailedStepIsSkip | engineer.py:185-186 | one failed channel leaves the state as a skipped one does |
| Engine.LastStepSkipped | engineer.py:185-186 | two passes over the same channels whose last channel fails in one and is skipped in the other end in the same state |
| Agents.Agent.ScanChannel | engineer.py:173-186 | the body of the scan for one channel on the object produces `Engine.ScanStep`'s state and effects |
| Agents.Agent.IdleScan | engineer.py:171-186 | the loop over the channels on the object produces the state and effects of `Engine.Scan` over all of them, and keeps the cap invariant |
| Engineer.DecisionThresholds | engineer.py:146-155 | the engineer replies unprompted exactly when the throttle is open and the draw is below 0.30, or below 0.55 when one of the last six entries is not a user's |
| Engineer.IdleThreshold | engineer.py:175-184 | the engineer's idle scan changes a channel exactly when it has send permission, the draw is below 0.05, the throttle is open and the reply was generated and is non-empty |
| Engineer.ThreeSendsFillWindow | engineer.py:50-64 | with cooldown 20, window 60 and at most 3 sends: sends 20 apart are each allowed (the cooldown is met exactly); 60 after the first, the window (inclusive) still holds all three and the channel is closed; one later it opens |
| Engineer.ThreeSendsUnder | engineer.py:50-59 | the same run for any persona with these three constants |
| Engineer.FullThenReleased | engineer.py:56-58 | three sends 20 apart keep the window full 20 after the third and free it one later |
| Engineer.QuotaFailureApologises | engineer.py:131-139 | a mention whose generation raises a quota error is answered with the quota apology, and the log keeps only the user's entry |
| Designer.DecisionThresholds | designer.py:91-97 | the designer replies unprompted exactly when the throttle is open and the draw is below 0.25, or below 0.55 when one of the last six entries is not a user's |
| Designer.IdleThreshold | designer.py:110-121 | the designer's idle scan changes a channel exactly when it has send permission, the draw is below 0.04, the throttle is open and the reply was generated |
| Marketer.DecisionThresholds | marketer.py:89-95 | the marketer replies unprompted exactly when the throttle is open and the draw is below 0.28, or below 0.58 when one of the last six entries is not a user's |
| Marketer.IdleThreshold | marketer.py:108-119 | the marketer's idle scan changes a channel exactly when it has send permission, the draw is below 0.045, the throttle is open and the reply was generated |
| Thinker.DecisionThresholds | thinker.py:88-94 | the thinker replies unprompted exactly when the throttle is open and the draw is below 0.18, or below 0.53 when one of the last eight entries is not a user's |
| Thinker.IdleThreshold | thinker.py:107-118 | the thinker's idle scan changes a channel exactly when it has send permission, the draw is below 0.03, the throttle is open and the reply was generated |
| Thinker.SixtyFirstEntryEvictsOldest | thinker.py:28-31 | a full log of 60 entries loses exactly its oldest entry when one more is added, and keeps the other 59 in order |
| Thinker.FourSendsThenRelease | thinker.py:33-40 | with cooldown 30, window 120 and at most 4 sends, sends at 0, 30, 60 and 90 close the channel at 120, since all four are inside the window; at 121 the send at 0 has left it and the channel opens |
| Thinker.FourSendsUnder | thinker.py:24-26 | the same run for any persona with these three constants |
| Text.IsSpace | engineer.py:89 | the characters `str.strip()` removes, Python's `isspace` set: space, tab, newline and carriage return are among them, ASCII letters and digits are not, and none lies above U+3000 |
| Text.Strip | engineer.py:89 | `str.strip()`: the result is a contiguous piece of the text, no longer than it, with only white space around it; it neither starts nor ends with white space; it is empty exactly when the text is all white space |
| Text.StartOfText | engineer.py:89 | the leading white space ends at the first non-space character, or at the end of the text |
| Text.EndOfText | engineer.py:89 | the trailing white space of a piece starts just after its last non-space character |
| Text.Upper | engineer.py:96 | `str.upper()` keeps the length and upper-cases each ASCII letter in place |
| Text.UpperIdempotent | engineer.py:96 | upper-casing twice is upper-casing once |
| Text.Take | engineer.py:143 | `s[:50]`: the first 50 characters, or the whole text when it is shorter |
| MentionBot.Token | discordbot.py:32 | the mention token of the bot is `<@`, the decimal form of the bot's own id (digits that read back as the id) and `>` |
| MentionBot.UserText | discordbot.py:32 | the user's text is no longer than the message and neither starts nor ends with white space |
| MentionBot.FullPrompt | discordbot.py:45 | the prompt starts with the persona text and a blank line and ends with the newest history line |
| Text.Decimal | discordbot.py:32 | `str(id)`: a non-empty run of decimal digits without a leading zero whose value is `id` |
| Text.RemoveAll | discordbot.py:32 | `replace(token, "")` never adds a character and never lengthens the text |
| Text.RemoveAllAbsent | discordbot.py:32 | a text without the token is left as it is |
| Text.Join | discordbot.py:45 | `sep.join(lines)` starts with the first line and ends with the last |
| Text.JoinSnoc | discordbot.py:45 | joining one more line adds the separator and that line at the end |
| MentionBot.React | discordbot.py:26-53 | a bot's message or a message without a mention leaves the history unchanged and has no effects; other channels' histories never change |
| MentionBot.Exchange | discordbot.py:31-53 | the mention branch changes only its own channel's history |
| MentionBot.EmptyMentionGreets | discordbot.py:32-35 | a mention whose text is empty after the token is removed and the rest stripped gets `はい、呼びましたか？`, and the history is unchanged |
| MentionBot.BareMentionIsEmpty | discordbot.py:32-35 | the bare mention token is such a message |
| MentionBot.NoTokenOnlyStrips | discordbot.py:32 | a message without the token is only stripped |
| MentionBot.LinesLabelled | discordbot.py:42-53 | a history line is its label, `ユーザー: ` or `AI: `, followed by the text unchanged; a user's line and the bot's line for the same text always differ |
| MentionBot.ReplyAddsTwoLines | discordbot.py:42-53 | after a generated reply the channel's history grew by exactly two lines, `ユーザー: text` then `AI: reply` with the reply unstripped, and the last effect sends the reply |
| MentionBot.FailureKeepsUserLine | discordbot.py:42-47 | when generation fails, the user line stays in the history and nothing is sent |
| MentionBot.PromptExtendsHistory | discordbot.py:45 | the prompt shows the whole uncapped history: on a channel with earlier lines it is the prompt over those lines, then a newline and the new user line |
| MentionBot.PromptOnFreshChannel | discordbot.py:38-45 | on a channel's first message the list is created and the prompt is the persona text, a blank line and the user line alone |
| MentionBot.Bot.constructor | discordbot.py:19 | the bot starts with an empty history |
| MentionBot.Bot.OnMessage | discordbot.py:26-35 | the handler on the object produces the history and effects `MentionBot.React` defines |
| MentionBot.Bot.Answer | discordbot.py:37-53 | the lazy creation of the channel's list, the appends before and after generation and the prompt join, in place, produce `MentionBot.Exchange`'s history and effects |

## Left out

- The Discord client, intents, `client.run`, `on_ready`/`setup_hook` wiring and the
  background task's sleep/`is_closed` loop are transport and lifecycle plumbing. One scan
  pass is modelled; the sleep intervals (30–45 s, 40–60 s, 35–60 s, 60–120 s) are not.
- `genai.configure`, `model.generate_content` and environment loading are foreign calls
  and I/O. The backend is a `GenOutcome` parameter, and every `print` is dropped.
- `time.time()` and `random.random()` are floats and nondeterminism. Times are integers
  and the draw is a `real` parameter; the distribution is not modelled. One handler run
  sees one arrival time `now` and one post-generation time `done`. The Python code reads
  the clock separately in each call, and the model does not capture a clock that moves
  between `add_log` and `can_autoreply`.
- A failing `channel.send` is not modelled: every send succeeds. In the persona bots a
  send failure after a successful reply would leave the reply logged and, on the
  autonomous path, recorded. In `discordbot.py` it would leave the `AI:` line unappended;
  Discord's refusal of an empty message is not modelled either.
- The idle scan's permission exception and any exception outside `generate` are not
  modelled. Only generation failures are, and they are isolated per channel.
- Concurrency between the background task and `on_message` is not modelled. Both run on
  one asyncio loop, and the model runs each handler to completion, one at a time.
- Formatting beyond the fixed `**[name]** ` prefix (`Engine.Format`) is not modelled;
  Discord renders the text.
- Text.Upper: only ASCII letters are upper-cased. Python's full Unicode case mapping
  (for example `ß` to `SS`, which changes the length) is not modelled. The keywords are
  ASCII, so a non-ASCII letter can affect classification only through a mapping that
  yields ASCII letters.
- Text.RemoveAll: the contract states only that no character is added and the text does
  not grow. The definition is
  the left-to-right, non-overlapping removal that `str.replace` performs, but no lemma
  characterises it beyond `Text.RemoveAllAbsent`.
- For the three personas that only strip, a missing response fails with the message that
  Python's `AttributeError` on `None.text` carries; those personas drop every failure, so
  the text is never seen.
