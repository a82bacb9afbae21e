# News bot selection engine, in Dafny

The news bot polls one news-search RSS feed per configured topic (a
"tag"). It publishes fresh entries it has not published before to a
Telegram channel and keeps a persistent `seen` ledger between runs. This
project models the part of `run_once` that decides what gets published:

- the loop over topics and entries, with the quotas `MAX_PER_RUN`
  (default 5) and `MAX_PER_TAG` (default 2);
- the identity of an entry: its stripped link, or its stripped title when
  there is no link;
- skipping entries that are already in the ledger or older than
  `MAX_AGE_HOURS` (default 24), where a limit of 0 or less disables the age check;
- the growth of the ledger and the state record written back;
- the comma path of `parse_tags`;
- `html_escape`.

Modules:

- `Text`: Python's `str.strip` (the full `isspace` set), `str.split` on one
  character, and `sep.join` as its inverse.
- `Tags`: `parse_tags`. The outcome of `json.loads` is a parameter.
- `Escape`: `html_escape` as the three chained replacements, shown equal to
  escaping each character and inverted by an unescape.
- `Feed`: the entry record, the stripped candidate the loop works with, the
  identifier, and `should_post` over whole seconds.
- `Selection`: the reference definition of the selection loop
  (`SelectTag` for one topic, `SelectRun`/`Select` for the topics in
  order), and its properties: quotas, provenance, freshness, ledger growth,
  and no identifier published twice.
- `Skipping`: a skipped entry consumes no quota. It can be inserted
  anywhere without changing a run.
- `Rerun`: what a later run publishes, given the ledger of an earlier one.
- `Engine`: `run_once` as the program runs it. This is the nested loops
  with `break`/`continue`, the ledger map reassigned after each post, each
  loop proved to compute `Select`, and the state record written back.
- `Scenarios`: the two-topic quota run and a link shared by two topics,
  worked through by hand.

The bot stores the SHA-256 digest of `link or title` as the ledger key. The
model uses that text itself as the key, taking the digest to be injective.
A ledger entry records the topic and the link, as the bot writes
`{"tag": tag, "url": link}`.

A second run over unchanged feeds publishes nothing when the first run
reached neither quota (`Rerun.RerunPublishesNothing`). When the first run
stopped on a quota, entries it did not reach may be published by a later
run, within that run's own quotas (`Rerun.QuotaCarriesOver` shows one
case). So the second run publishing nothing is not promised in general,
and the model follows the code here. Whatever the feeds, no
identifier in the ledger is ever published again
(`Rerun.NeverRepublished`).

## Model

| member | source | states |
|---|---|---|
| Text.TrimStart | news_bot_gemini_news.py:221 | the result is a suffix of the input; everything removed is whitespace; the result starts with non-whitespace or is empty |
| Text.TrimEnd | news_bot_gemini_news.py:221 | the result is a prefix of the input; everything removed is whitespace; the result ends with non-whitespace or is empty |
| Text.Trim | news_bot_gemini_news.py:221-222 | the result has no whitespace at either end; it is no longer than the input; it is empty exactly when the input is all whitespace |
| Text.TrimIsSlice | news_bot_gemini_news.py:221-222 | the stripped text is one contiguous slice of the input, and every character removed before or after it is whitespace |
| Text.TrimFixesTrimmed | news_bot_gemini_news.py:91 | stripping leaves a text unchanged exactly when it has no whitespace at either end |
| Text.Split | news_bot_gemini_news.py:100 | splitting on a separator gives at least one piece; no piece contains the separator; there is exactly one piece iff the separator does not occur |
| Text.JoinSplit | news_bot_gemini_news.py:100 | joining the pieces of a split with the separator gives back the original text |
| Text.SplitJoin | news_bot_gemini_news.py:100 | splitting a join of separator-free pieces gives back those pieces |
| Tags.Clean | news_bot_gemini_news.py:97-100 | every kept tag is non-empty and stripped, and there are no more tags than items |
| Tags.CleanSingle | news_bot_gemini_news.py:100 | one item gives its stripped text when that is not empty, and nothing otherwise |
| Tags.CleanAppend | news_bot_gemini_news.py:100 | the filter works item by item and in order: cleaning a concatenation is the concatenation of the cleaned parts |
| Tags.CleanKeeps | news_bot_gemini_news.py:97-100 | every item that is not blank after stripping is kept, stripped |
| Tags.ParseTags | news_bot_gemini_news.py:90-100 | a blank setting gives no tags; every tag is non-empty and stripped; on the comma path (the setting does not start with `[`, or its JSON does not decode) the result is the split pieces of the stripped setting, each stripped, blank ones dropped, in order, and no tag contains a comma |
| Tags.CleanTrimmed | news_bot_gemini_news.py:100 | a list of non-empty stripped items passes the filter unchanged |
| Tags.ParseTagsCommaRoundTrip | news_bot_gemini_news.py:90-100 | for any non-empty list of non-empty, stripped, comma-free tags, parsing their comma-joined text gives back exactly that list |
| Escape.ReplaceChar | news_bot_gemini_news.py:134 | after replacing a character by a text that does not contain it, the character is gone; no other character is introduced except those of the replacement |
| Escape.HtmlEscapeIsEscapeEach | news_bot_gemini_news.py:133-134 | the three chained replacements (`&` first) equal escaping each character on its own, so no entity is escaped twice |
| Escape.EscapeOne | news_bot_gemini_news.py:134 | on a single character, the three passes give exactly that character's entity, or the character itself |
| Escape.HtmlEscapeSafe | news_bot_gemini_news.py:133-134 | the escaped text contains no `<` and no `>`, and every `&` in it starts `&amp;`, `&lt;` or `&gt;` |
| Escape.HtmlEscapeRoundTrip | news_bot_gemini_news.py:133-134 | unescaping the three entities recovers the original text exactly, so escaping loses nothing |
| Feed.ToCandidate | news_bot_gemini_news.py:221-224 | title and link are the entry's title and link, stripped; the date is the publication time when the entry has one, else the update time, and absent when it has neither |
| Feed.UidAgreement | news_bot_gemini_news.py:232 | entries with the same non-empty stripped link share an identifier whatever their titles; link-less entries share one iff their stripped titles agree; entries with links share one iff the links agree |
| Feed.ShouldPost | news_bot_gemini_news.py:175-179 | an entry may be posted iff the age limit is 0 or less, or the age in seconds is at most the limit times 3600 |
| Feed.FreshnessBoundary | news_bot_gemini_news.py:178-179 | with a positive limit, an age of exactly the limit passes and one second more fails |
| Feed.FreshnessDisabled | news_bot_gemini_news.py:176-177 | a limit of zero or less accepts any timestamp |
| Feed.FreshWithoutDateOrInFuture | news_bot_gemini_news.py:224-230 | an entry with no publication or update time, or one dated at or after the current time, is fresh |
| Feed.MktimeRejectsFreshEntry | news_bot_gemini_news.py:224-226 | as written: on a host three hours ahead of UTC, an entry 22 hours old is rejected under a 24-hour limit |
| Feed.UtcAgeDecides | news_bot_gemini_news.py:175-179 | with the parsed date read as UTC, a dated entry is fresh exactly when its true age is within the limit |
| Feed.StaleStaysStale | news_bot_gemini_news.py:178-179 | an entry too old to post now is too old at every later time |
| Selection.SelectTagBounds | news_bot_gemini_news.py:217-248 | one topic posts no more than either quota leaves, and only entries of its own feed that are fresh |
| Selection.SelectTagLedger | news_bot_gemini_news.py:232-246 | within one topic, the ledger keeps every earlier record and gains exactly the identifiers of the posted entries |
| Selection.SelectTagRecords | news_bot_gemini_news.py:246 | within one topic, each posted entry is recorded under its identifier with that topic and its link |
| Selection.SelectTagDistinct | news_bot_gemini_news.py:232-246 | within one topic, no posted entry was already in the ledger and no identifier is posted twice |
| Selection.SelectRunBounds | news_bot_gemini_news.py:208-219 | at most max(0, MAX_PER_RUN) posts in a run, and at most max(0, MAX_PER_TAG) per topic; a topic is visited only while the run quota is open; the run stops before the last topic only because that quota is used up |
| Selection.SelectRunProvenance | news_bot_gemini_news.py:209-236 | every entry published under a topic comes from that topic's feed and is fresh |
| Selection.SelectRunLedger | news_bot_gemini_news.py:208-250 | the ledger only grows: no record is removed or changed; its new keys are exactly the identifiers published; each is recorded with the topic it was published under |
| Selection.SelectRunDistinct | news_bot_gemini_news.py:208-248 | no published entry was in the ledger at the start of the run, and no identifier is published twice in a run, even across topics; the first topic to reach it wins |
| Skipping.SkippedMonotone | news_bot_gemini_news.py:233-236 | an entry skipped against a ledger is still skipped once the ledger has grown |
| Skipping.SkippedEntryTagInert | news_bot_gemini_news.py:217-236 | inserting an already-seen or stale entry anywhere in a topic's feed changes neither its posts nor the ledger, so a skip consumes no quota |
| Skipping.SkippedEntryInert | news_bot_gemini_news.py:208-236 | inserting an entry already in the starting ledger, or stale, anywhere in any topic's feed changes neither what the run publishes nor the final ledger |
| Rerun.TagCoverage | news_bot_gemini_news.py:217-236 | a topic that reached neither quota read its whole feed: afterwards every entry of it is skipped |
| Rerun.RunCoverage | news_bot_gemini_news.py:208-236 | a run that reached neither quota visited every topic and left every entry skipped |
| Rerun.TagNothingNew | news_bot_gemini_news.py:232-236 | when every entry of a topic is skipped, it posts nothing and leaves the ledger unchanged |
| Rerun.RunNothingNew | news_bot_gemini_news.py:208-236 | when every entry is skipped, a run publishes nothing and leaves the ledger unchanged |
| Rerun.RerunPublishesNothing | news_bot_gemini_news.py:195-251 | after a run that reached neither quota, a run over the same feeds at the same time or later publishes nothing and leaves the ledger unchanged |
| Rerun.NeverRepublished | news_bot_gemini_news.py:232-234 | whatever feeds a later run gets, it publishes no identifier the earlier ledger held or the earlier run published |
| Rerun.QuotaCarriesOver | news_bot_gemini_news.py:210-219 | with MAX_PER_TAG 2 and three fresh entries in one topic, the first run publishes two and the second run publishes the third |
| Engine.LoadState | news_bot_gemini_news.py:106-113 | a missing or unreadable state file gives the state with an empty ledger and no last run; otherwise the stored record is used as it is |
| Engine.FetchTopic | news_bot_gemini_news.py:212-224 | the topic of one tag: its entries are exactly the entries its feed returned, in order, each stripped and dated by `ToCandidate` |
| Engine.Topics | news_bot_gemini_news.py:209-214 | one topic per configured tag in order; its entries are exactly the entries its feed returned, in order, each stripped and dated by `ToCandidate` |
| Engine.SelectForTag | news_bot_gemini_news.py:215-248 | the entry loop with its counter, `break` and `continue` computes exactly the reference definition for one topic; the run total grows by the topic's posts, which are at most max(0, MAX_PER_TAG) |
| Engine.SelectPosts | news_bot_gemini_news.py:208-248 | the nested loops compute exactly `Select`; a tag's feed is fetched only after the run quota was checked open, so the fetched tags are exactly the tags of the batches, in order; the loops respect both quotas, publish at most max(0, MAX_PER_RUN) entries, stop early only on the run quota, grow the ledger by exactly the published identifiers, each recorded with its topic, and publish no identifier twice or any that was seen before |
| Engine.RunOnce | news_bot_gemini_news.py:195-251 | without a token and channel, or with no tags, nothing is published or saved. Otherwise what `Select` gives is published, and only the feeds of the topics visited are fetched; the saved state holds the grown ledger, the run's time stamp as `last_run`, and every other key unchanged |
| Scenarios.TwoTopicsShareTheRunQuota | news_bot_gemini_news.py:208-248 | topics A and B with three fresh entries each and limits 3 and 2: A publishes two, B one; the ledger holds exactly those three, each under its topic |
| Scenarios.DuplicateLinkAcrossTopics | news_bot_gemini_news.py:208-248 | a link under topics A and B is published once, by A; B's copy is skipped without using B's single slot, so B's next entry is published |

## Findings

| source | as written | input that shows it | evidently intended | confidence | as-written member | corrected member |
|---|---|---|---|---|---|---|
| news_bot_gemini_news.py:226 | `time.mktime(published_parsed)` reads the feed's UTC date fields as local time, so on a host ahead of UTC every age is too large by the offset | host at UTC+3, `MAX_AGE_HOURS` 24, entry published 22 hours ago: it is rejected | read the fields as UTC (`calendar.timegm`), so an entry's age is its true age | medium, not executed | Feed.MktimeRejectsFreshEntry | Feed.UtcAgeDecides |

## Left out

- Fetching RSS (`feedparser.parse`, the search URL) is left out. It is a network call, so the feed of each topic is the `fetch` parameter of `Engine.RunOnce`, a pure function. The model says which feeds are fetched, and in what order (`fetched`), but not the cost of a fetch, a failing fetch, or a feed that changes between fetches.
- Summaries from the language-model service, the snippet regexes, `extract_domain` and `build_message` are left out. They only shape the message text and do not affect what is selected; `html_escape`, which they use, is modelled.
- Delivery to Telegram (`post_message`) is left out. It catches a `TelegramError` itself, so an entry whose delivery failed that way is still recorded, and being posted means being selected.
- An exception that nothing inside `run_once` catches is not modelled: any error other than a `TelegramError` while the loop runs. It leaves `run_once`, and the handler around the entry point catches it. The save is then skipped, so the publications of that run are never recorded. The model assumes every run reaches the save.
- Reading and writing the state file is left out. It is file I/O, so `Engine.LoadState` takes the decoded record (None for a missing or unreadable file), and `Engine.RunOnce` returns the record it would save. Failed saves and the atomicity of `os.replace` are not modelled.
- `Engine.LoadState`: a stored JSON value that is not an object, or whose `seen` is not an object of records, is not modelled; the stored value is assumed to be that shape.
- SHA-256 (`hash_id`) is left out. The text `link or title` stands for its digest, so collisions are not modelled, nor texts that `errors="ignore"` encodes to the same bytes.
- The clock is a parameter: one `now` for the whole run. The code reads the time afresh for each undated entry and inside each `should_post` call, so the age of an undated entry is taken as 0, not a few microseconds.
- `Feed.ShouldPost`: timestamps are whole seconds, and floating-point rounding of the age is not modelled. The model reads the parsed date as UTC; `time.mktime` reads it as local time (see Findings).
- The JSON branch of `parse_tags` is left out. `json.loads` is foreign code, so its outcome is the parameter `decoded` (None when it raises), and `str(x)` of non-string items is not modelled.
- Environment variables, logging, `asyncio` and the process entry point are left out. The three limits are the `Limits` parameter, and "token and channel configured" is the `configured` flag.
