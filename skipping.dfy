/**
 * Skips consume nothing: an entry that is already in the ledger, or too
 * old, can be added anywhere to any topic's feed without changing what a
 * run publishes or how the ledger ends up.
 */
module Skipping {
  import opened Feed
  import opened Selection

  /** `entries` with `e` inserted before position `j`. */
  function InsertAt(entries: seq<Candidate>, j: nat, e: Candidate): seq<Candidate>
    requires j <= |entries|
  {
    entries[..j] + [e] + entries[j..]
  }

  /** A skip stays a skip once the ledger has grown. */
  lemma SkippedMonotone(e: Candidate, seen: Ledger, seen': Ledger, lim: Limits, now: int)
    requires Skipped(e, seen, lim, now)
    requires Extends(seen, seen')
    ensures Skipped(e, seen', lim, now)
  {
  }

  /** Within one topic, an inserted skipped entry changes neither the posts, nor the counters, nor the ledger. */
  lemma {:induction false} SkippedEntryTagInert(tag: string, entries: seq<Candidate>, j: nat, e: Candidate,
                                                seen: Ledger, total: int, count: int, lim: Limits, now: int)
    requires j <= |entries|
    requires Skipped(e, seen, lim, now)
    ensures SelectTag(tag, InsertAt(entries, j, e), seen, total, count, lim, now)
         == SelectTag(tag, entries, seen, total, count, lim, now)
  {
    var w := InsertAt(entries, j, e);
    if j == 0 {
      assert w[0] == e && w[1..] == entries;
    } else {
      assert w[0] == entries[0];
      assert w[1..] == InsertAt(entries[1..], j - 1, e);
      if total >= lim.maxPerRun || count >= lim.maxPerTag {
      } else if Skipped(entries[0], seen, lim, now) {
        SkippedEntryTagInert(tag, entries[1..], j - 1, e, seen, total, count, lim, now);
      } else {
        var h := entries[0];
        var seen' := seen[Uid(h) := SeenEntry(tag, h.link)];
        SkippedMonotone(e, seen, seen', lim, now);
        SkippedEntryTagInert(tag, entries[1..], j - 1, e, seen', total + 1, count + 1, lim, now);
      }
    }
  }

  /**
   * Across a run: an entry already in the ledger when the run starts, or
   * too old, changes nothing wherever it appears, also in a later topic's
   * feed.
   */
  lemma {:induction false} SkippedEntryInert(topics: seq<Topic>, i: nat, j: nat, e: Candidate,
                                             seen: Ledger, total: int, lim: Limits, now: int)
    requires i < |topics| && j <= |topics[i].entries|
    requires Skipped(e, seen, lim, now)
    ensures SelectRun(topics[i := Topic(topics[i].tag, InsertAt(topics[i].entries, j, e))], seen, total, lim, now)
         == SelectRun(topics, seen, total, lim, now)
  {
    var w := topics[i := Topic(topics[i].tag, InsertAt(topics[i].entries, j, e))];
    if total < lim.maxPerRun {
      if i == 0 {
        SkippedEntryTagInert(topics[0].tag, topics[0].entries, j, e, seen, total, 0, lim, now);
        assert w[1..] == topics[1..];
      } else {
        assert w[0] == topics[0];
        var t := SelectTag(topics[0].tag, topics[0].entries, seen, total, 0, lim, now);
        SelectTagLedger(topics[0].tag, topics[0].entries, seen, total, 0, lim, now);
        SkippedMonotone(e, seen, t.seen, lim, now);
        assert w[1..] == topics[1..][i - 1 := Topic(topics[i].tag, InsertAt(topics[i].entries, j, e))];
        SkippedEntryInert(topics[1..], i - 1, j, e, t.seen, total + |t.posted|, lim, now);
      }
    }
  }
}
