/**
 * What a second run sees after a first one. Nothing the ledger holds is
 * ever published again, whatever the second run's feeds. A second run
 * over the same feeds publishes nothing when the first run reached neither
 * quota (`RerunPublishesNothing`). When the first run stopped on a quota,
 * entries it did not reach may be published by a later run, within that
 * run's own quotas (`QuotaCarriesOver` shows one case).
 */
module Rerun {
  import opened Wrappers
  import opened Feed
  import opened Selection

  /** Every entry of every topic would be skipped against `seen`. */
  predicate AllSkipped(topics: seq<Topic>, seen: Ledger, lim: Limits, now: int)
  {
    forall i, j :: 0 <= i < |topics| && 0 <= j < |topics[i].entries| ==> Skipped(topics[i].entries[j], seen, lim, now)
  }

  /** A topic whose quotas were never reached was read to its end: afterwards every entry of it is a skip. */
  lemma {:induction false} TagCoverage(tag: string, entries: seq<Candidate>, seen: Ledger, total: int, count: int, lim: Limits, now: int)
    requires var r := SelectTag(tag, entries, seen, total, count, lim, now);
      count + |r.posted| < lim.maxPerTag && total + |r.posted| < lim.maxPerRun
    ensures var r := SelectTag(tag, entries, seen, total, count, lim, now);
      forall j :: 0 <= j < |entries| ==> Skipped(entries[j], r.seen, lim, now)
  {
    var r := SelectTag(tag, entries, seen, total, count, lim, now);
    if entries != [] {
      SelectTagLedger(tag, entries, seen, total, count, lim, now);
      if Skipped(entries[0], seen, lim, now) {
        TagCoverage(tag, entries[1..], seen, total, count, lim, now);
      } else {
        var e := entries[0];
        var seen' := seen[Uid(e) := SeenEntry(tag, e.link)];
        SelectTagLedger(tag, entries[1..], seen', total + 1, count + 1, lim, now);
        TagCoverage(tag, entries[1..], seen', total + 1, count + 1, lim, now);
      }
      forall j | 0 <= j < |entries| ensures Skipped(entries[j], r.seen, lim, now) {
        if j > 0 { assert entries[j] == entries[1..][j - 1]; }
      }
    }
  }

  /** A run whose quotas were never reached visited every topic to its end and left every entry a skip. */
  lemma {:induction false} RunCoverage(topics: seq<Topic>, seen: Ledger, total: int, lim: Limits, now: int)
    requires var r := SelectRun(topics, seen, total, lim, now);
      && total + Total(r.batches) < lim.maxPerRun
      && forall i :: 0 <= i < |r.batches| ==> |r.batches[i]| < lim.maxPerTag
    ensures var r := SelectRun(topics, seen, total, lim, now);
      |r.batches| == |topics| && AllSkipped(topics, r.seen, lim, now)
  {
    var r := SelectRun(topics, seen, total, lim, now);
    if topics != [] {
      var t := SelectTag(topics[0].tag, topics[0].entries, seen, total, 0, lim, now);
      var rest := SelectRun(topics[1..], t.seen, total + |t.posted|, lim, now);
      assert r.batches == [t.posted] + rest.batches;
      assert r.batches[0] == t.posted;
      assert forall i :: 0 <= i < |rest.batches| ==> rest.batches[i] == r.batches[i + 1];
      TagCoverage(topics[0].tag, topics[0].entries, seen, total, 0, lim, now);
      RunCoverage(topics[1..], t.seen, total + |t.posted|, lim, now);
      SelectRunLedger(topics[1..], t.seen, total + |t.posted|, lim, now);
      forall i, j | 0 <= i < |topics| && 0 <= j < |topics[i].entries|
        ensures Skipped(topics[i].entries[j], r.seen, lim, now)
      {
        if i > 0 { assert topics[i] == topics[1..][i - 1]; }
      }
    }
  }

  /** When every entry is a skip, a topic publishes nothing and leaves the ledger as it was. */
  lemma {:induction false} TagNothingNew(tag: string, entries: seq<Candidate>, seen: Ledger, total: int, count: int, lim: Limits, now: int)
    requires forall j :: 0 <= j < |entries| ==> Skipped(entries[j], seen, lim, now)
    ensures SelectTag(tag, entries, seen, total, count, lim, now) == TagRun([], seen)
  {
    if entries != [] {
      assert forall j :: 0 <= j < |entries[1..]| ==> entries[1..][j] == entries[j + 1];
      TagNothingNew(tag, entries[1..], seen, total, count, lim, now);
    }
  }

  /** When every entry is a skip, a run publishes nothing and leaves the ledger as it was. */
  lemma {:induction false} RunNothingNew(topics: seq<Topic>, seen: Ledger, total: int, lim: Limits, now: int)
    requires AllSkipped(topics, seen, lim, now)
    ensures var r := SelectRun(topics, seen, total, lim, now);
      Total(r.batches) == 0 && r.seen == seen
  {
    if topics != [] && total < lim.maxPerRun {
      TagNothingNew(topics[0].tag, topics[0].entries, seen, total, 0, lim, now);
      assert AllSkipped(topics[1..], seen, lim, now) by {
        forall i, j | 0 <= i < |topics[1..]| && 0 <= j < |topics[1..][i].entries|
          ensures Skipped(topics[1..][i].entries[j], seen, lim, now)
        {
          assert topics[1..][i] == topics[i + 1];
        }
      }
      RunNothingNew(topics[1..], seen, total, lim, now);
    }
  }

  /**
   * Re-running over the same feeds with the ledger of a first run that
   * reached neither quota, at the same time or later, publishes nothing and
   * leaves the ledger as the first run left it.
   */
  lemma RerunPublishesNothing(topics: seq<Topic>, seen: Ledger, lim: Limits, now: int, later: int)
    requires now <= later
    requires var r := Select(topics, seen, lim, now);
      && Total(r.batches) < lim.maxPerRun
      && forall i :: 0 <= i < |r.batches| ==> |r.batches[i]| < lim.maxPerTag
    ensures var r := Select(topics, seen, lim, now);
      var again := Select(topics, r.seen, lim, later);
      Total(again.batches) == 0 && again.seen == r.seen
  {
    var r := Select(topics, seen, lim, now);
    RunCoverage(topics, seen, 0, lim, now);
    forall i, j | 0 <= i < |topics| && 0 <= j < |topics[i].entries|
      ensures Skipped(topics[i].entries[j], r.seen, lim, later)
    {
      var e := topics[i].entries[j];
      if Uid(e) !in r.seen {
        StaleStaysStale(e, now, later, lim.maxAgeHours);
      }
    }
    RunNothingNew(topics, r.seen, 0, lim, later);
  }

  /**
   * Whatever a later run is given, it never publishes an entry whose
   * identifier the ledger held or an earlier run published: the identifiers
   * of the two runs are disjoint.
   */
  lemma NeverRepublished(first: seq<Topic>, second: seq<Topic>, seen: Ledger, lim: Limits, now: int, later: int)
    ensures var r1 := Select(first, seen, lim, now);
      var r2 := Select(second, r1.seen, lim, later);
      && (forall i :: 0 <= i < |Flatten(r2.batches)| ==> Uid(Flatten(r2.batches)[i]) !in seen)
      && Uids(Flatten(r1.batches)) !! Uids(Flatten(r2.batches))
  {
    var r1 := Select(first, seen, lim, now);
    var r2 := Select(second, r1.seen, lim, later);
    SelectRunLedger(first, seen, 0, lim, now);
    SelectRunDistinct(second, r1.seen, 0, lim, later);
    var f2 := Flatten(r2.batches);
    forall x | x in Uids(f2) ensures x !in Uids(Flatten(r1.batches)) && x !in seen {
      var i :| 0 <= i < |f2| && Uid(f2[i]) == x;
    }
  }

  /**
   * A second run over the same feeds can publish: with MAX_PER_TAG = 2, a
   * topic with three fresh entries gets two in the first run and the third
   * in the next.
   */
  lemma QuotaCarriesOver()
    ensures
      var a, b, c := Candidate("a", "https://x/a", None), Candidate("b", "https://x/b", None), Candidate("c", "https://x/c", None);
      var topics := [Topic("T", [a, b, c])];
      var lim := Limits(5, 2, 24);
      var r := Select(topics, map[], lim, 0);
      r.batches == [[a, b]] && Select(topics, r.seen, lim, 0).batches == [[c]]
  {
    var a, b, c := Candidate("a", "https://x/a", None), Candidate("b", "https://x/b", None), Candidate("c", "https://x/c", None);
    var lim := Limits(5, 2, 24);
    var topics := [Topic("T", [a, b, c])];
    assert topics[1..] == [];
    var s1 := map[]["https://x/a" := SeenEntry("T", "https://x/a")]["https://x/b" := SeenEntry("T", "https://x/b")];
    assert SelectTag("T", [c], s1, 2, 2, lim, 0) == TagRun([], s1);
    assert SelectTag("T", [b, c], map[]["https://x/a" := SeenEntry("T", "https://x/a")], 1, 1, lim, 0) == TagRun([b], s1);
    assert SelectTag("T", [a, b, c], map[], 0, 0, lim, 0) == TagRun([a, b], s1);
    assert SelectRun([], s1, 2, lim, 0) == RunResult([], s1);
    assert Select(topics, map[], lim, 0) == RunResult([[a, b]], s1);
    var s2 := s1["https://x/c" := SeenEntry("T", "https://x/c")];
    assert SelectTag("T", [c], s1, 0, 0, lim, 0) == TagRun([c], s2);
    assert SelectTag("T", [b, c], s1, 0, 0, lim, 0) == TagRun([c], s2);
    assert SelectTag("T", [a, b, c], s1, 0, 0, lim, 0) == TagRun([c], s2);
    assert SelectRun([], s2, 1, lim, 0) == RunResult([], s2);
    assert Select(topics, s1, lim, 0) == RunResult([[c]], s2);
  }
}
