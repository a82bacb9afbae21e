/**
 * `run_once` as the program runs it: the nested loops over topics and
 * entries with their counters, `break` and `continue`, the `seen` mapping
 * reassigned after each post, and the state record written back at the end. Each
 * method is proved to compute exactly what the reference definition in
 * `Selection` says, and so to keep every property proved about it.
 */
module Engine {
  import opened Wrappers
  import opened Feed
  import opened Selection
  import opened Tags

  /**
   * The persisted state: the `seen` mapping (absent when the stored record
   * has no such key), the `last_run` time text (None stands for JSON null),
   * and every other key of the record, kept as opaque text.
   */
  datatype RunState = RunState(seen: Option<Ledger>, lastRun: Option<string>, extra: map<string, string>)

  /**
   * `load_state`: the stored record, when the state file exists and could be
   * read and decoded (`stored` is None otherwise), else the empty state.
   */
  function LoadState(stored: Option<RunState>): (s: RunState)
    ensures stored.None? ==> s.seen == Some(map[]) && s.lastRun.None? && s.extra == map[]
    ensures stored.Some? ==> s == stored.value
  {
    stored.GetOr(RunState(Some(map[]), None, map[]))
  }

  /**
   * One topic: the tag with what the fetch collaborator returns for it,
   * each entry stripped and dated by `ToCandidate`.
   */
  function FetchTopic(tag: string, fetch: string -> seq<Entry>): (topic: Topic)
    ensures topic.tag == tag && |topic.entries| == |fetch(tag)|
    ensures forall j :: 0 <= j < |fetch(tag)| ==> topic.entries[j] == ToCandidate(fetch(tag)[j])
  {
    Topic(tag, seq(|fetch(tag)|, j requires 0 <= j < |fetch(tag)| => ToCandidate(fetch(tag)[j])))
  }

  /**
   * `topics` are what fetching each of `tags` in turn gives. The fetched
   * topic is only brought into play where a feed is actually fetched.
   */
  predicate Fetches(tags: seq<string>, fetch: string -> seq<Entry>, topics: seq<Topic>)
  {
    && |topics| == |tags|
    && (forall i :: 0 <= i < |tags| ==> topics[i].tag == tags[i])
    && forall i {:trigger FetchTopic(tags[i], fetch)} :: 0 <= i < |tags| ==> topics[i] == FetchTopic(tags[i], fetch)
  }

  /** The topics in configured order, each as `FetchTopic` gives it. */
  function Topics(tags: seq<string>, fetch: string -> seq<Entry>): (topics: seq<Topic>)
    ensures |topics| == |tags|
    ensures forall i :: 0 <= i < |tags| ==> topics[i].tag == tags[i] && |topics[i].entries| == |fetch(tags[i])|
    ensures forall i, j :: 0 <= i < |tags| && 0 <= j < |fetch(tags[i])| ==> topics[i].entries[j] == ToCandidate(fetch(tags[i])[j])
    ensures Fetches(tags, fetch, topics)
  {
    seq(|tags|, i requires 0 <= i < |tags| => FetchTopic(tags[i], fetch))
  }

  /** One turn of the topic loop keeps it in step with `SelectRun`. */
  lemma TopicStep(topics: seq<Topic>, whole: RunResult, batches: seq<seq<Candidate>>, seen: Ledger, total: int,
                  posted: seq<Candidate>, seen': Ledger, total': int, lim: Limits, now: int)
    requires 0 < |topics| && total < lim.maxPerRun && total == Total(batches)
    requires whole.batches == batches + SelectRun(topics, seen, total, lim, now).batches
    requires whole.seen == SelectRun(topics, seen, total, lim, now).seen
    requires TagRun(posted, seen') == SelectTag(topics[0].tag, topics[0].entries, seen, total, 0, lim, now)
    requires total' == total + |posted|
    ensures total' == Total(batches + [posted])
    ensures whole.batches == batches + [posted] + SelectRun(topics[1..], seen', total', lim, now).batches
    ensures whole.seen == SelectRun(topics[1..], seen', total', lim, now).seen
  {
    var rest := SelectRun(topics[1..], seen', total', lim, now).batches;
    assert batches + ([posted] + rest) == batches + [posted] + rest;
    TotalAppend(batches, posted);
  }

  /** What a run over topics named by `tags` guarantees, gathered from `Selection`. */
  lemma RunFacts(tags: seq<string>, topics: seq<Topic>, seen0: Ledger, lim: Limits, now: int, batches: seq<seq<Candidate>>, seen: Ledger)
    requires |topics| == |tags| && forall i :: 0 <= i < |tags| ==> topics[i].tag == tags[i]
    requires RunResult(batches, seen) == Select(topics, seen0, lim, now)
    ensures |batches| <= |tags|
    ensures |Flatten(batches)| == Total(batches) <= Max(0, lim.maxPerRun)
    ensures forall i :: 0 <= i < |batches| ==> |batches[i]| <= Max(0, lim.maxPerTag)
    ensures forall k :: 0 <= k < |batches| ==> Total(batches[..k]) < lim.maxPerRun
    ensures |batches| < |tags| ==> Total(batches) >= lim.maxPerRun
    ensures Extends(seen0, seen)
    ensures seen.Keys == seen0.Keys + Uids(Flatten(batches))
    ensures forall i :: 0 <= i < |batches| ==> Records(seen, tags[i], batches[i])
    ensures forall k :: 0 <= k < |Flatten(batches)| ==> Uid(Flatten(batches)[k]) !in seen0
    ensures DistinctUids(Flatten(batches))
  {
    SelectRunBounds(topics, seen0, 0, lim, now);
    SelectRunLedger(topics, seen0, 0, lim, now);
    SelectRunDistinct(topics, seen0, 0, lim, now);
    TotalFlatten(batches);
  }

  lemma TotalAppend(batches: seq<seq<Candidate>>, b: seq<Candidate>)
    ensures Total(batches + [b]) == Total(batches) + |b|
  {
    if batches != [] {
      assert (batches + [b])[1..] == batches[1..] + [b];
      TotalAppend(batches[1..], b);
    }
  }

  /**
   * The inner loop of `run_once` over one topic's entries (the topic's
   * counter starts at 0): until either quota is used up, skip, with no
   * quota consumed, an entry whose identifier is already in `seen` or that
   * is too old, and otherwise publish it, record it in `seen` under the
   * topic and its link, and count it against both quotas. Delivery to the
   * channel handles its own `TelegramError`, so a published entry is
   * recorded whether or not it reached the channel.
   */
  method SelectForTag(tag: string, entries: seq<Candidate>, seen0: Ledger, total0: int, lim: Limits, now: int)
    returns (posted: seq<Candidate>, seen: Ledger, totalPosted: int)
    ensures TagRun(posted, seen) == SelectTag(tag, entries, seen0, total0, 0, lim, now)
    ensures totalPosted == total0 + |posted|
    ensures |posted| <= Max(0, lim.maxPerTag)
  {
    posted, seen, totalPosted := [], seen0, total0;
    var countForTag := 0;
    for j := 0 to |entries|
      invariant countForTag == |posted| && totalPosted == total0 + |posted|
      invariant SelectTag(tag, entries, seen0, total0, 0, lim, now).posted
             == posted + SelectTag(tag, entries[j..], seen, totalPosted, countForTag, lim, now).posted
      invariant SelectTag(tag, entries, seen0, total0, 0, lim, now).seen
             == SelectTag(tag, entries[j..], seen, totalPosted, countForTag, lim, now).seen
    {
      SelectTagStep(tag, entries, j, seen, totalPosted, countForTag, lim, now);
      if totalPosted >= lim.maxPerRun || countForTag >= lim.maxPerTag {
        break;
      }
      var e := entries[j];
      var uid := Uid(e);
      if uid in seen {
        continue;
      }
      if !ShouldPost(Timestamp(e, now), now, lim.maxAgeHours) {
        continue;
      }
      ghost var rest := SelectTag(tag, entries[j + 1..], seen[uid := SeenEntry(tag, e.link)], totalPosted + 1, countForTag + 1, lim, now).posted;
      assert posted + ([e] + rest) == posted + [e] + rest;
      seen := seen[uid := SeenEntry(tag, e.link)];
      posted := posted + [e];
      totalPosted := totalPosted + 1;
      countForTag := countForTag + 1;
    }
    SelectTagBounds(tag, entries, seen0, total0, 0, lim, now);
    assert entries[|entries|..] == [];
  }

  /**
   * Fetching one topic's feed (the network call, then the stripping of each
   * entry), as `FetchTopic` describes it: `topics` stands for all of them.
   */
  method FetchFeed(tags: seq<string>, fetch: string -> seq<Entry>, i: nat, ghost topics: seq<Topic>) returns (topic: Topic)
    requires i < |tags| && Fetches(tags, fetch, topics)
    ensures topic == topics[i]
  {
    topic := FetchTopic(tags[i], fetch);
  }

  /**
   * The selection loop of `run_once`: the tags in order, each with a fresh
   * per-topic counter. As soon as the run's quota is used up it stops,
   * before the next tag's feed is fetched; `fetched` lists the tags whose
   * feeds were fetched, in order. `topics` stands for what fetching every
   * tag would give; only those in `fetched` are fetched.
   */
  method SelectPosts(tags: seq<string>, fetch: string -> seq<Entry>, seen0: Ledger, lim: Limits, now: int, ghost topics: seq<Topic>)
    returns (batches: seq<seq<Candidate>>, seen: Ledger, fetched: seq<string>)
    requires Fetches(tags, fetch, topics)
    ensures RunResult(batches, seen) == Select(topics, seen0, lim, now)
    ensures |batches| <= |tags| && fetched == tags[..|batches|]
    ensures |Flatten(batches)| == Total(batches) <= Max(0, lim.maxPerRun)
    ensures forall i :: 0 <= i < |batches| ==> |batches[i]| <= Max(0, lim.maxPerTag)
    ensures forall k :: 0 <= k < |batches| ==> Total(batches[..k]) < lim.maxPerRun
    ensures |batches| < |tags| ==> Total(batches) >= lim.maxPerRun
    ensures Extends(seen0, seen)
    ensures seen.Keys == seen0.Keys + Uids(Flatten(batches))
    ensures forall i :: 0 <= i < |batches| ==> Records(seen, tags[i], batches[i])
    ensures forall k :: 0 <= k < |Flatten(batches)| ==> Uid(Flatten(batches)[k]) !in seen0
    ensures DistinctUids(Flatten(batches))
  {
    batches, seen, fetched := [], seen0, [];
    var totalPosted := 0;
    ghost var whole := Select(topics, seen0, lim, now);
    assert topics[0..] == topics;
    for i := 0 to |tags|
      invariant |batches| == i && fetched == tags[..i]
      invariant totalPosted == Total(batches)
      invariant whole.batches == batches + SelectRun(topics[i..], seen, totalPosted, lim, now).batches
      invariant whole.seen == SelectRun(topics[i..], seen, totalPosted, lim, now).seen
    {
      if totalPosted >= lim.maxPerRun {
        break;
      }
      var topic := FetchFeed(tags, fetch, i, topics);
      assert tags[..i + 1] == fetched + [tags[i]];
      fetched := fetched + [tags[i]];
      ghost var seenBefore, totalBefore := seen, totalPosted;
      var posted;
      posted, seen, totalPosted := SelectForTag(topic.tag, topic.entries, seen, totalPosted, lim, now);
      assert topics[i..][0] == topic && topics[i..][1..] == topics[i + 1..];
      TopicStep(topics[i..], whole, batches, seenBefore, totalBefore, posted, seen, totalPosted, lim, now);
      batches := batches + [posted];
    }
    assert topics[|topics|..] == [];
    assert RunResult(batches, seen) == whole;
    RunFacts(tags, topics, seen0, lim, now, batches, seen);
  }

  /**
   * `run_once`. Without a bot token and channel, or with no topics, it
   * returns before writing anything (`saved` is None). Otherwise it loads
   * the state, runs the selection loop over the configured topics against
   * the stored `seen` mapping (`fetched` names the tags whose feeds it
   * fetched), and writes back the state with the grown
   * mapping and `stamp` (the current time as ISO text) as `last_run`,
   * every other key untouched.
   */
  method RunOnce(configured: bool, stored: Option<RunState>, rawTags: string, decoded: Option<seq<string>>,
                 fetch: string -> seq<Entry>, lim: Limits, now: int, stamp: string)
    returns (published: seq<seq<Candidate>>, saved: Option<RunState>, fetched: seq<string>)
    ensures !configured || ParseTags(rawTags, decoded) == [] ==> published == [] && saved.None? && fetched == []
    ensures configured && ParseTags(rawTags, decoded) != [] ==>
      var state := LoadState(stored);
      var topics := Topics(ParseTags(rawTags, decoded), fetch);
      var before := state.seen.GetOr(map[]);
      && saved.Some?
      && RunResult(published, saved.value.seen.GetOr(map[])) == Select(topics, before, lim, now)
      && saved.value.seen.Some?
      && Extends(before, saved.value.seen.value)
      && saved.value.lastRun == Some(stamp)
      && saved.value.extra == state.extra
      && |published| <= |topics|
      && fetched == ParseTags(rawTags, decoded)[..|published|]
      && |Flatten(published)| == Total(published) <= Max(0, lim.maxPerRun)
  {
    published, saved, fetched := [], None, [];
    if !configured {
      return;
    }
    var state := LoadState(stored);
    var seen := state.seen.GetOr(map[]);
    var tags := ParseTags(rawTags, decoded);
    if tags == [] {
      return;
    }
    var grown;
    published, grown, fetched := SelectPosts(tags, fetch, seen, lim, now, Topics(tags, fetch));
    saved := Some(RunState(Some(grown), Some(stamp), state.extra));
  }
}
