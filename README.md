# gerritbot2 event core, in Dafny

gerritbot2 is a pair of chat-bot plugins that relay Gerrit code-review
activity into chat rooms. This project models the part of both plugins that
decides what to do with one Gerrit event, and proves properties of it.

**gerritbot plugin** (`plugins/gerritbot/gerritbot.py`):

- The typed event model, built from a JSON payload by `from_data`: `Entity`,
  `PatchSet`, `Change`, `PatchSetCreated` and `CommentAdded`.
- The dispatcher `process_event`. It counts event types, projects, reviewers
  and uploaders. It drops unknown types and unregistered projects, and routes
  the rest to a handler.
- The two decorators around the handlers:
  - `filter_by_email`, an allow-list of email suffixes and addresses;
  - `filter_by_prior`, a cache of change ids already announced.
- The consumer loop `loop_process_events`, which drains the work queue.
- The `gerrit_stats` command's report.
- The review links that `callback_message` builds.

**osgerrit plugin** (`plugins/osgerrit/osgerrit.py`), which works on raw JSON:

- `ok_by_email`.
- `process_patchset_created`: deduplicates change ids, records them, formats
  the labels and splits the commit message into lines.
- `process_event`.

How the model is built:

- Python values are the `Json` datatype.
- A Python exception is an `Err` result.
- Each handler is a pure function from the old plugin state to the new state
  and its outcome.
- Each plugin is a class with the source's fields. Its methods make the
  source's steps, loops included, and are proved equal to those functions.

A payload that fails to parse is not harmless in the code as written, and
the model follows the code. In `gerritbot.py`, `from_data` (line 380) and
the pop of `type` from a value that is not a dict (line 367) sit outside any
`try` that catches them.
`loop_process_events` (lines 353-364) has only `try/finally`. So such a
payload ends the consumer thread. `GerritBot.DispatchEscapes`,
`GerritBot.EscapeEndsLoop` and `GerritBot.ParseFailureEndsLoop` state this.

Modules:

| file | module | what it holds |
|---|---|---|
| `text.dfy` | `Text` | the string operations the source calls: `split`, `splitlines`, `replace`, `title`, `endswith` and string order |
| `values.dfy` | `Values` | decoded JSON; subscripting, `get`, `in`, truth, hashing, `int(...)`, `str(int)` |
| `events.dfy` | `Events` | the event classes and their `from_data` |
| `email_filter.dfy` | `EmailFilter` | the suffix and allow-list loops both plugins share |
| `sorting.dfy` | `Sorting` | `sorted` on counter keys |
| `gerritbot.dfy` | `GerritBot` | the gerritbot plugin |
| `review_links.dfy` | `ReviewLinks` | the review links of `callback_message` |
| `osgerrit.dfy` | `OsGerrit` | the osgerrit plugin |

## Model

| member | source | states |
|---|---|---|
| Text.Words | plugins/gerritbot/gerritbot.py:44-45 | `str.split()`: every piece it returns is non-empty and holds no whitespace; `WordsSplitAt` and `WordsSingle` pin down which pieces |
| Text.WordsOfUnwords | plugins/gerritbot/gerritbot.py:333 | splitting words joined by single spaces gives back the words, so each argument piece `gerrit_stats` sees is non-empty and holds no space |
| Text.WordsSingle | plugins/gerritbot/gerritbot.py:333 | a single non-empty word without spaces splits into just itself |
| Text.WordsStep | plugins/gerritbot/gerritbot.py:333 | splitting a word, a space and a rest gives the word followed by the words of the rest |
| Text.WordsSplitAt | plugins/gerritbot/gerritbot.py:333 | any whitespace character separates: the words of `a`, a space character and `b` are the words of `a` followed by the words of `b`, so leading, repeated and tab whitespace yield no empty pieces |
| Text.SplitLines | plugins/osgerrit/osgerrit.py:165 | `str.splitlines()`: no line it returns contains a line break; the step lemmas below pin down which lines |
| Text.SplitLinesOfTerminated | plugins/osgerrit/osgerrit.py:165-166 | a text made of break-free lines, each ended by a newline, splits back into exactly those lines, in order |
| Text.SplitLinesStep | plugins/osgerrit/osgerrit.py:165 | a break-free line ended by a newline splits off as the first line, before the lines of the rest |
| Text.SplitLinesSingle | plugins/osgerrit/osgerrit.py:165 | a non-empty break-free text is a single line |
| Text.SplitLinesCrLf | plugins/osgerrit/osgerrit.py:165 | "\r\n" ends one line, as a single terminator |
| Text.SplitLinesBreak | plugins/osgerrit/osgerrit.py:165 | every other line boundary (a lone "\r", "\v", "\f", the separators, NEL, U+2028/2029) ends one line |
| Text.SplitLinesOfText | plugins/osgerrit/osgerrit.py:165-166 | newline-ended lines followed by an unterminated last line split back into exactly those lines, the last one included only when non-empty |
| Text.ReplaceChar | plugins/gerritbot/gerritbot.py:339 | `str.replace` of one character by another: same length, each occurrence replaced, every other character kept |
| Text.StrLessIrreflexive | plugins/gerritbot/gerritbot.py:343 | Python's string order, which `sorted` uses on counter keys, is irreflexive |
| Text.StrLessTransitive | plugins/gerritbot/gerritbot.py:343 | the string order is transitive |
| Text.StrLessTotal | plugins/gerritbot/gerritbot.py:343 | any two distinct strings are ordered one way or the other |
| Values.HashKey | plugins/gerritbot/gerritbot.py:371 | using a value as a dict key raises `TypeError` exactly for lists and dicts; a string is its own key |
| Values.Get | plugins/osgerrit/osgerrit.py:143 | `v[k]` gives the field of a dict holding `k`, raises `KeyError(k)` on a dict without it and `TypeError` on any other value |
| Values.GetOr | plugins/osgerrit/osgerrit.py:148 | `v.get(k, d)` gives the field, or `d` when the dict lacks `k`, and raises `AttributeError` on anything but a dict |
| Values.DigitsValueOfDigits | plugins/gerritbot/gerritbot.py:135-138 | the decimal digits of a natural number are digits whose value is that number |
| Values.ParseIntOfDecimal | plugins/gerritbot/gerritbot.py:135-138 | `int(str(n)) == n` for every integer, as the size and number coercions rely on |
| Events.EntityRoundTrip | plugins/gerritbot/gerritbot.py:109-116 | `Entity.from_data` of an entity's own payload gives the entity back |
| Events.PatchSetRoundTrip | plugins/gerritbot/gerritbot.py:119-138 | `PatchSet.from_data` of a patch set's payload gives it back |
| Events.ChangeRoundTrip | plugins/gerritbot/gerritbot.py:141-164 | `Change.from_data` of a change's payload gives it back |
| Events.PatchSetCreatedRoundTrip | plugins/gerritbot/gerritbot.py:167-181 | `PatchSetCreated.from_data` of the event's payload gives it back |
| Events.CommentAddedRoundTrip | plugins/gerritbot/gerritbot.py:184-200 | `CommentAdded.from_data` of the event's payload gives it back, the optional comment included |
| Events.EventRoundTrip | plugins/gerritbot/gerritbot.py:206-221 | every event parses back through the class of its type |
| Events.EntityKeys | plugins/gerritbot/gerritbot.py:109-116 | a missing `username` raises `KeyError('username')`, then a missing `name` raises `KeyError('name')`; otherwise `email` defaults to `None` |
| Events.PatchSetParsed | plugins/gerritbot/gerritbot.py:119-138 | a parsed patch set came from a dict holding every required key; its sizes are `int(...)` of the payload's and its time is the payload's `createdOn` |
| Events.ChangeParsed | plugins/gerritbot/gerritbot.py:141-164 | a parsed change came from a dict holding every required key; `number` is `int(...)` of the payload's; id, project and url are kept; `topic` defaults to `None` |
| Events.PatchSetSizeText | plugins/gerritbot/gerritbot.py:134-138 | a size given as text parses iff `int(...)` accepts the text, and then has that value |
| Events.PatchSetSizeField | plugins/gerritbot/gerritbot.py:134-138 | whatever value stands in `sizeInsertions` decides the result through `int(...)` alone: its value on success, its error otherwise, every other field decoding unchanged |
| EmailFilter.Scan | plugins/gerritbot/gerritbot.py:86-99 | the nested `send_message` loops compute `Decision`: raise when `endswith` meets a non-string under a suffix other than "*", else the allow-list verdict |
| EmailFilter.NoSuffixesPass | plugins/gerritbot/gerritbot.py:87-88 | with no suffixes configured every event passes |
| EmailFilter.StarPasses | plugins/gerritbot/gerritbot.py:90-92 | a "*" suffix passes every event unless `endswith` raises |
| EmailFilter.UnmatchedDropped | plugins/gerritbot/gerritbot.py:86-100 | with suffixes, none of them "*", and no suffix match and no listed email, the event is dropped |
| EmailFilter.DecisionMeaning | plugins/gerritbot/gerritbot.py:86-99 | for string candidates: pass iff no suffix is configured, or "*" is one, or some candidate ends with some suffix, or some candidate is listed |
| EmailFilter.NonTextRaises | plugins/gerritbot/gerritbot.py:94-95 | a candidate that is not a string raises `AttributeError` whenever a suffix other than "*" is configured |
| Sorting.KeyLessIrreflexive | plugins/gerritbot/gerritbot.py:343 | no counter key sorts before itself |
| Sorting.KeyLessTransitive | plugins/gerritbot/gerritbot.py:343 | the key order is transitive |
| Sorting.KeyLessTotal | plugins/gerritbot/gerritbot.py:343 | two distinct keys of the same kind are ordered |
| Sorting.InsertIncreasing | plugins/gerritbot/gerritbot.py:343 | inserting a new comparable key into an increasing sequence keeps it increasing and adds exactly that key |
| Sorting.SortedKeys | plugins/gerritbot/gerritbot.py:343 | `sorted` of keys it can compare: increasing, and exactly the keys, each once |
| Sorting.IncreasingUnique | plugins/gerritbot/gerritbot.py:343 | two increasing sequences with the same keys are equal, so the order of the report is determined |
| GerritBot.EventClassFor | plugins/gerritbot/gerritbot.py:206-221 | only a string type can name a class |
| GerritBot.KnownClasses | plugins/gerritbot/gerritbot.py:206-221 | exactly `comment-added` and `patchset-created` are parsed, each by its own class |
| GerritBot.HandlerNames | plugins/gerritbot/gerritbot.py:405 | the two parsed types map to the handler methods `process_comment_added` and `process_patchset_created` |
| GerritBot.DefaultTablesSorted | plugins/gerritbot/gerritbot.py:224-229 | the default table list is `sorted(DEF_STATS)`: increasing, and exactly its four tables |
| GerritBot.NonNull | plugins/gerritbot/gerritbot.py:84-85 | the candidates kept are exactly those that are not `None` |
| GerritBot.Cards | plugins/gerritbot/gerritbot.py:300-324 | one card per room, addressed to that room, linking the change URL and carrying the event; the "comment" template exactly for a comment, and the commit message as body exactly for a new patch set when `include_commit_body` is set |
| GerritBot.TemplateFor | plugins/gerritbot/gerritbot.py:300-312 | the template is "comment" exactly for a comment event, "proposal" otherwise |
| GerritBot.HandlingKeepsCounters | plugins/gerritbot/gerritbot.py:299-324 | the handlers and their decorators never touch the counters |
| GerritBot.CountProjectCounts | plugins/gerritbot/gerritbot.py:384-385 | the project's counter goes up by one unless it is `None`; an unhashable project raises |
| GerritBot.CountActorCounts | plugins/gerritbot/gerritbot.py:386-393 | the comment author's or the uploader's counter goes up by one when the email is truthy; an unhashable one raises |
| GerritBot.RouteCounts | plugins/gerritbot/gerritbot.py:381-404 | after parsing, only an unhashable project or email escapes; otherwise exactly the project and actor counters change, each by one |
| GerritBot.EventTypeCounted | plugins/gerritbot/gerritbot.py:371 | `event_types` goes up by one at the type, whatever happens next |
| GerritBot.NoTypeNoOp | plugins/gerritbot/gerritbot.py:367-370 | a payload without `type` changes nothing |
| GerritBot.DiscardedUnknown | plugins/gerritbot/gerritbot.py:372-378 | a hashable type without a class is discarded after only `event_types` changed |
| GerritBot.ProjectFilter | plugins/gerritbot/gerritbot.py:394-404 | past the counters, the handler runs iff the project is known and registered (or none are registered) |
| GerritBot.EscapeBeforeHandler | plugins/gerritbot/gerritbot.py:366-417 | an exception escapes only before a handler runs, so the cache and the cards sent are untouched |
| GerritBot.DispatchEscapes | plugins/gerritbot/gerritbot.py:366-393 | `process_event` raises exactly when the payload is not a dict, its type is unhashable, its class cannot parse it, or counting meets an unhashable project or email |
| GerritBot.ParseFailureEscapes | plugins/gerritbot/gerritbot.py:371-380 | an event its class cannot parse raises the parser's error, after `event_types` is bumped and with nothing else changed |
| GerritBot.BareCommentEscapes | plugins/gerritbot/gerritbot.py:195-196 | a `comment-added` payload with no fields raises `KeyError('author')` out of `process_event` |
| GerritBot.DispatchKeepsTables | plugins/gerritbot/gerritbot.py:224-229 | every dispatch keeps exactly the four tables of `DEF_STATS` |
| GerritBot.RouteKeepsTables | plugins/gerritbot/gerritbot.py:381-413 | counting the project and the actor and handling a parsed event keeps exactly the four tables of `DEF_STATS` |
| GerritBot.EmailGateMeaning | plugins/gerritbot/gerritbot.py:73-99 | with `None` or string emails, the event passes iff no suffix is configured, or "*" is one, or a present email ends with a suffix, or a present email is listed |
| GerritBot.EmailRejectedNoOp | plugins/gerritbot/gerritbot.py:100-101 | an event the email filter rejects changes nothing; a passing one goes to `filter_by_prior` |
| GerritBot.SeenSuppressed | plugins/gerritbot/gerritbot.py:59-60 | an id already in the cache is dropped with no change |
| GerritBot.UnseenRecordedAfterBody | plugins/gerritbot/gerritbot.py:61-63 | a new id runs the handler first and is recorded only when the handler returned |
| GerritBot.NullIdBypassesCache | plugins/gerritbot/gerritbot.py:56-58 | an event without change id runs the handler and never reads or writes the cache |
| GerritBot.PriorGateCache | plugins/gerritbot/gerritbot.py:48-65 | the cache only ever gains the event's own id, and only after a completed send |
| GerritBot.DrainTaskDone | plugins/gerritbot/gerritbot.py:353-364 | the loop dequeues a prefix of the queue and calls `task_done` once per item |
| GerritBot.DrainStopsAtTombstone | plugins/gerritbot/gerritbot.py:356-358 | every item dequeued before the last is a payload; the loop stopped iff the last was the sentinel |
| GerritBot.DrainInOrder | plugins/gerritbot/gerritbot.py:353-364 | payloads are processed in queue order: draining `q1 + q2` replays `q1`, then drains `q2` |
| GerritBot.TombstoneStops | plugins/gerritbot/gerritbot.py:356-358 | the sentinel stops the loop right after the payloads queued before it |
| GerritBot.EscapeEndsLoop | plugins/gerritbot/gerritbot.py:353-364 | the first payload that raises out of `process_event` ends the consumer with that error, its `task_done` counted and every later item left queued |
| GerritBot.ParseFailureEndsLoop | plugins/gerritbot/gerritbot.py:353-380 | a payload its class cannot parse ends the consumer with the parser's error, leaving the later items queued |
| GerritBot.Selected | plugins/gerritbot/gerritbot.py:336-337 | the names reported are exactly the requested names that are tables |
| GerritBot.TableRowKeys | plugins/gerritbot/gerritbot.py:340-344 | the rows of a non-empty table list its keys, each once, increasing |
| GerritBot.TableRowsUnique | plugins/gerritbot/gerritbot.py:338-344 | a table's rows are determined by the table |
| GerritBot.RowsOfSortedKeys | plugins/gerritbot/gerritbot.py:343-344 | rows built from `sorted(table)` with their counts are the table's rows |
| GerritBot.SortedRows | plugins/gerritbot/gerritbot.py:338-344 | a table's rows: N/A when empty, else key and count in sorted order; `TypeError` iff the keys mix kinds |
| GerritBot.ReportExtend | plugins/gerritbot/gerritbot.py:345-350 | each table adds a header, its rows and a newline to the report |
| GerritBot.WriteTables | plugins/gerritbot/gerritbot.py:336-351 | the report loop succeeds iff every selected table can be sorted, else raises `TypeError`; on success it is the headers and rows of the selected tables, in request order |
| GerritBot.AppendTable | plugins/gerritbot/gerritbot.py:337-350 | one table of the report: it fails with `TypeError` iff its keys cannot be ordered, and otherwise extends the report by its header, sorted rows and newline |
| GerritBot.SelectedBlocks | plugins/gerritbot/gerritbot.py:337-343 | one requested, present table whose keys cannot be ordered makes the report as a whole fail |
| GerritBot.GerritBotPlugin.constructor | plugins/gerritbot/gerritbot.py:246-253 | fresh counters from `DEF_STATS`, an empty cache, an empty queue |
| GerritBot.GerritBotPlugin.FilterByEmail | plugins/gerritbot/gerritbot.py:68-99 | collects the emails, builds their set and runs the loops, agreeing with `EmailGate` |
| GerritBot.PresentEmails | plugins/gerritbot/gerritbot.py:84-85 | building the set of non-`None` emails raises `TypeError` iff some email cannot be hashed, and otherwise keeps exactly the non-`None` emails |
| GerritBot.GerritBotPlugin.SendNotifications | plugins/gerritbot/gerritbot.py:302-324 | renders, then sends one card per room, with the commit message as body when configured; a render failure sends nothing |
| GerritBot.GerritBotPlugin.FilterByPrior | plugins/gerritbot/gerritbot.py:48-65 | the cache test, the handler and the recording, agreeing with `PriorGate` |
| GerritBot.GerritBotPlugin.ProcessReview | plugins/gerritbot/gerritbot.py:299-324 | a handler with both decorators, agreeing with `Handling` |
| GerritBot.GerritBotPlugin.ProcessEvent | plugins/gerritbot/gerritbot.py:366-417 | `process_event` on the fields, agreeing with `Dispatch` and keeping the tables of `DEF_STATS` |
| GerritBot.GerritBotPlugin.RouteEvent | plugins/gerritbot/gerritbot.py:381-417 | the part of `process_event` after parsing, agreeing with `Route` and keeping the tables of `DEF_STATS` |
| GerritBot.GerritBotPlugin.LoopProcessEvents | plugins/gerritbot/gerritbot.py:353-364 | the `while not self.dying` loop, agreeing with `Drain` on the queue, the state and the `task_done` count |
| GerritBot.GerritBotPlugin.Stats | plugins/gerritbot/gerritbot.py:328-351 | the default or requested tables, reported as `WriteTables` states |
| ReviewLinks.SchemeRoundTrip | plugins/gerritbot/gerritbot.py:271-274 | the scheme chosen for a match reads back as whether the `s` group matched |
| ReviewLinks.ReviewUrlRoundTrip | plugins/gerritbot/gerritbot.py:271-275 | the review URL gives back the scheme and the change number |
| ReviewLinks.JsonUrlRoundTrip | plugins/gerritbot/gerritbot.py:271-276 | the JSON URL gives back the scheme and the change number |
| OsGerrit.TemplateParams | plugins/osgerrit/osgerrit.py:155-166 | `tpl_params` is built iff the change has a string `commitMessage`; otherwise `KeyError('commitMessage')` or `AttributeError` |
| OsGerrit.CopyPeople | plugins/osgerrit/osgerrit.py:160-162 | the copy loop adds exactly the people entries present in the patch set |
| OsGerrit.WithPeopleMeaning | plugins/osgerrit/osgerrit.py:160-162 | after the copy the parameters hold the base keys and exactly the people entries present; a present entry is copied as it is and every other base entry is kept |
| OsGerrit.CommitLines | plugins/osgerrit/osgerrit.py:164-166 | the append loop yields the `splitlines()` of the message, in order |
| OsGerrit.OsGerritBotPlugin.constructor | plugins/osgerrit/osgerrit.py:101-104 | an empty cache and nothing sent |
| OsGerrit.OsGerritBotPlugin.OkByEmail | plugins/osgerrit/osgerrit.py:113-135 | collects the patch-set emails, skipping entries without `email`, and runs the loops, agreeing with `EmailOk` |
| OsGerrit.OsGerritBotPlugin.Propose | plugins/osgerrit/osgerrit.py:148-173 | labels, parameters, rendering and cards, agreeing with `Proposal`; a failure sends nothing |
| OsGerrit.OsGerritBotPlugin.SendCards | plugins/osgerrit/osgerrit.py:168-173 | one card per room, quoting the commit message and linking the change URL |
| OsGerrit.OsGerritBotPlugin.ProcessPatchsetCreated | plugins/osgerrit/osgerrit.py:140-173 | `process_patchset_created`, agreeing with `PatchsetCreated` on the cache, the cards and the outcome |
| OsGerrit.OsGerritBotPlugin.ProcessEvent | plugins/osgerrit/osgerrit.py:175-196 | `process_event`, agreeing with `Dispatch`, which does not take the `event_type` argument |
| OsGerrit.EmailsMeaning | plugins/osgerrit/osgerrit.py:114-120 | for a patch set of dicts, the candidates are exactly the emails of the owner, author and uploader entries that have one |
| OsGerrit.EmailOkMeaning | plugins/osgerrit/osgerrit.py:113-135 | with string emails, the check passes iff no suffix is configured, or "*" is one, or an entry's email ends with a suffix, or an entry's email is listed |
| OsGerrit.SuffixedEmails | plugins/osgerrit/osgerrit.py:125-131 | some collected email ends with some suffix iff some person's email in the patch set does |
| OsGerrit.ListedEmails | plugins/osgerrit/osgerrit.py:132-134 | some collected email is allow-listed iff some person's email in the patch set is |
| OsGerrit.NullEmailRaises | plugins/osgerrit/osgerrit.py:116-129 | an entry whose `email` is `None` makes the check raise `AttributeError` once a suffix other than "*" is configured (gerritbot drops `None` first) |
| OsGerrit.InsertsLabelValue | plugins/osgerrit/osgerrit.py:148-149 | the inserts label is "+" followed by `min(0, n)`, so every non-negative count shows as "+0" |
| OsGerrit.DeletesLabelValue | plugins/osgerrit/osgerrit.py:150-154 | the deletes label reads back as `max(0, n)`, is "-0" for zero, and otherwise has no minus sign |
| OsGerrit.CommitMessageLines | plugins/osgerrit/osgerrit.py:163-166 | for a message of newline-ended break-free lines then a last line that may lack a newline, `commitMessageLines` holds exactly those lines in order, with no empty line after a final newline, and the rest of the change is copied unchanged |
| OsGerrit.CommitMessageSplit | plugins/osgerrit/osgerrit.py:163-166 | for any string message, `commitMessageLines` is its `splitlines()` and every other field of the change is copied |
| OsGerrit.EmailRejectedNoOp | plugins/osgerrit/osgerrit.py:141-142 | a failed email check leaves the cache and the outbox as they were |
| OsGerrit.RecordedBeforeSending | plugins/osgerrit/osgerrit.py:143-173 | a new id is recorded with its creation time whatever happens afterwards; the event is sent iff the proposal succeeds |
| OsGerrit.SeenSuppressed | plugins/osgerrit/osgerrit.py:144-145 | a cached id is suppressed with no change |
| OsGerrit.SecondDeliverySuppressed | plugins/osgerrit/osgerrit.py:143-147 | the same event delivered twice is sent once: the second delivery finds its id recorded |
| OsGerrit.PatchsetCreatedTypes | plugins/osgerrit/osgerrit.py:186 | the handler is reached exactly by the types "patchset-created" and "patchset_created" |
| OsGerrit.HandlerNameIs | plugins/osgerrit/osgerrit.py:186 | the handler name is `process_` followed by a name iff the type, with each `-` read as `_`, is that name |
| OsGerrit.ReplacedPatchsetCreated | plugins/osgerrit/osgerrit.py:186 | exactly "patchset-created" and "patchset_created" read as `patchset_created` once each `-` is read as `_` |
| OsGerrit.DispatcherType | plugins/osgerrit/osgerrit.py:186-188 | only the type "event" names the dispatcher itself |
| OsGerrit.NoTypeNoOp | plugins/osgerrit/osgerrit.py:176-183 | a missing, unreadable or empty type makes `process_event` a no-op |
| OsGerrit.DispatchRoutes | plugins/osgerrit/osgerrit.py:186-196 | for a string type nothing escapes: a new patch set runs the handler, "event" raises `TypeError` inside the `try`, and every other type is ignored |

## Left out

- MQTT, SSH and HTTP transport are left out. This covers the watcher threads, `select` polling, retries and reconnection, and the `requests.get` fetch in `callback_message`. These are network I/O.
- `activate`, `deactivate` and the threads are left out, as are the `dying` flag set from another thread and the sentinel posting. These are concurrency. Each plugin's constructor models `__init__` followed by `activate`.
- The `TTLCache` behind `seen_reviews` has a size bound and an expiry time; neither is modelled. The cache is a map that only grows, because eviction depends on the clock.
- The `tabulate` text layout and the `tabulate_format` setting are left out. A report is its headers, its rows and the newlines.
- Chat-framework calls are parameters of the model:
  - `rooms()` is the `rooms` field.
  - `process_template` is a predicate saying when rendering fails.
  - `send_card` appends to an outbox and is assumed never to fail.
- Regular-expression scanning in `callback_message` is left out. The model starts from one match, meaning the `s` group and the digits.
- `configure`, `get_configuration_template` and `get_gerrit_user` are left out. They only copy settings.
- JSON floats are left out, as are non-ASCII digits and underscores accepted by `int(...)`, and the non-ASCII case mappings of `str.title()`.
- `datetime` values are kept as epoch seconds. `datetime.fromtimestamp` range errors are not modelled.
- `set()` in `filter_by_email` is kept as the list of non-`None` emails. The decision does not depend on order or duplicates. The `TypeError` the set raises for an unhashable email is modelled.
- A handler name is found by `getattr` on the plugin object. The model covers the names the plugin defines, and not the attributes it inherits from the chat framework's `BotPlugin`.
- When `seen_reviews` is still `None`, the plugin was never activated, and the raw plugin's `seen_reviews[...] = ...` raises `TypeError`. The model starts from an activated plugin.
- Log messages are left out.
- GerritBot.GerritBotPlugin.Stats: `args` is taken as the raw command text and split with `str.split()`, as line 333 does. The plugin declares `split_args_with=str_split`, which would hand over a list; the model assumes the framework passes the text, and does not model a list argument.
- GerritBot.RequestedTables: same assumption as `Stats`, on the text it splits.
- Values.HashKey: a boolean counter key is folded into the integer key (`True` is `1`), as Python's dict does. A report row for such a key therefore shows `1` or `0`, whereas Python shows the key object inserted first (`True`). `GerritBot.Row` keeps the folded key.
