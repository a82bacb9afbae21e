/**
 * The selection rule of `run_once`, as a reference definition: which
 * entries of which topics get published in one run and how the `seen`
 * ledger grows. Topics are visited in order; within a topic, entries are
 * visited in feed order and each goes through the same chain: quota check
 * (stop the topic, or the whole run), identity, ledger membership,
 * freshness. A skipped entry consumes no quota; an accepted one is recorded
 * under its identifier and counts against both quotas.
 */
module Selection {
  import opened Feed

  /** A ledger value: the topic under which an item was posted, and its link. */
  datatype SeenEntry = SeenEntry(tag: string, url: string)

  /** The `seen` mapping: identifier to where it was posted. */
  type Ledger = map<string, SeenEntry>

  /** MAX_PER_RUN, MAX_PER_TAG and MAX_AGE_HOURS. */
  datatype Limits = Limits(maxPerRun: int, maxPerTag: int, maxAgeHours: int)

  /** A topic query and the entries its feed returned, in feed order. */
  datatype Topic = Topic(tag: string, entries: seq<Candidate>)

  /** What one topic contributes: the entries posted for it, and the ledger afterwards. */
  datatype TagRun = TagRun(posted: seq<Candidate>, seen: Ledger)

  /**
   * What a run contributes: one batch of posted entries per topic visited
   * (batch `i` belongs to topic `i`; topics after the last batch were never
   * visited), and the ledger afterwards.
   */
  datatype RunResult = RunResult(batches: seq<seq<Candidate>>, seen: Ledger)

  function Max(a: int, b: int): int
  {
    if a < b then b else a
  }

  /** An entry the loop passes over: already seen, or too old. */
  predicate Skipped(e: Candidate, seen: Ledger, lim: Limits, now: int)
  {
    Uid(e) in seen || !IsFresh(e, now, lim.maxAgeHours)
  }

  /**
   * The inner loop over one topic's entries, entered with `total` posts so
   * far in the run and `count` so far for this topic.
   */
  function SelectTag(tag: string, entries: seq<Candidate>, seen: Ledger, total: int, count: int, lim: Limits, now: int): TagRun
    decreases |entries|
  {
    if entries == [] || total >= lim.maxPerRun || count >= lim.maxPerTag then TagRun([], seen)
    else if Skipped(entries[0], seen, lim, now) then SelectTag(tag, entries[1..], seen, total, count, lim, now)
    else
      var e := entries[0];
      var r := SelectTag(tag, entries[1..], seen[Uid(e) := SeenEntry(tag, e.link)], total + 1, count + 1, lim, now);
      TagRun([e] + r.posted, r.seen)
  }

  /** The outer loop over the topics, entered with `total` posts so far; each topic's counter starts at 0. */
  function SelectRun(topics: seq<Topic>, seen: Ledger, total: int, lim: Limits, now: int): RunResult
    decreases |topics|
  {
    if topics == [] || total >= lim.maxPerRun then RunResult([], seen)
    else
      var t := SelectTag(topics[0].tag, topics[0].entries, seen, total, 0, lim, now);
      var r := SelectRun(topics[1..], t.seen, total + |t.posted|, lim, now);
      RunResult([t.posted] + r.batches, r.seen)
  }

  /** One step of the topic loop at position `j`: stop, skip `entries[j]`, or post it. */
  lemma SelectTagStep(tag: string, entries: seq<Candidate>, j: nat, seen: Ledger, total: int, count: int, lim: Limits, now: int)
    requires j < |entries|
    ensures var e := entries[j];
      var here := SelectTag(tag, entries[j..], seen, total, count, lim, now);
      if total >= lim.maxPerRun || count >= lim.maxPerTag then here == TagRun([], seen)
      else if Skipped(e, seen, lim, now) then here == SelectTag(tag, entries[j + 1..], seen, total, count, lim, now)
      else
        var r := SelectTag(tag, entries[j + 1..], seen[Uid(e) := SeenEntry(tag, e.link)], total + 1, count + 1, lim, now);
        here == TagRun([e] + r.posted, r.seen)
  {
    assert entries[j..][0] == entries[j] && entries[j..][1..] == entries[j + 1..];
  }

  /** One step of the topic sequence at position `i`, when the run's quota is not used up. */
  lemma SelectRunStep(topics: seq<Topic>, i: nat, seen: Ledger, total: int, lim: Limits, now: int)
    requires i < |topics| && total < lim.maxPerRun
    ensures var t := SelectTag(topics[i].tag, topics[i].entries, seen, total, 0, lim, now);
      var r := SelectRun(topics[i + 1..], t.seen, total + |t.posted|, lim, now);
      SelectRun(topics[i..], seen, total, lim, now) == RunResult([t.posted] + r.batches, r.seen)
  {
    assert topics[i..][0] == topics[i] && topics[i..][1..] == topics[i + 1..];
  }

  /** A whole run: nothing posted yet. */
  function Select(topics: seq<Topic>, seen: Ledger, lim: Limits, now: int): RunResult
  {
    SelectRun(topics, seen, 0, lim, now)
  }

  /** The number of entries in all batches. */
  function Total(batches: seq<seq<Candidate>>): nat
  {
    if batches == [] then 0 else |batches[0]| + Total(batches[1..])
  }

  /** All batches, in publication order. */
  function Flatten(batches: seq<seq<Candidate>>): seq<Candidate>
  {
    if batches == [] then [] else batches[0] + Flatten(batches[1..])
  }

  /** The identifiers of a sequence of entries. */
  function Uids(s: seq<Candidate>): set<string>
  {
    set i | 0 <= i < |s| :: Uid(s[i])
  }

  /** No two entries share an identifier. */
  predicate DistinctUids(s: seq<Candidate>)
  {
    forall i, j :: 0 <= i < j < |s| ==> Uid(s[i]) != Uid(s[j])
  }

  /** Every key of `before` is still in `after`, with the same value. */
  predicate Extends(before: Ledger, after: Ledger)
  {
    forall k :: k in before ==> k in after && after[k] == before[k]
  }

  /** Every entry of `posted` is recorded in `seen` under its identifier, with `tag` and its link. */
  predicate Records(seen: Ledger, tag: string, posted: seq<Candidate>)
  {
    forall i :: 0 <= i < |posted| ==> Uid(posted[i]) in seen && seen[Uid(posted[i])] == SeenEntry(tag, posted[i].link)
  }

  lemma {:induction false} TotalFlatten(batches: seq<seq<Candidate>>)
    ensures |Flatten(batches)| == Total(batches)
  {
    if batches != [] {
      TotalFlatten(batches[1..]);
    }
  }

  lemma UidsAppend(a: seq<Candidate>, b: seq<Candidate>)
    ensures Uids(a + b) == Uids(a) + Uids(b)
  {
    forall x | x in Uids(a + b) ensures x in Uids(a) + Uids(b) {
      var i :| 0 <= i < |a + b| && Uid((a + b)[i]) == x;
      if i >= |a| { assert Uid(b[i - |a|]) == x; }
    }
    forall x | x in Uids(a) + Uids(b) ensures x in Uids(a + b) {
      if x in Uids(a) {
        var i :| 0 <= i < |a| && Uid(a[i]) == x;
        assert (a + b)[i] == a[i];
      } else {
        var i :| 0 <= i < |b| && Uid(b[i]) == x;
        assert (a + b)[|a| + i] == b[i];
      }
    }
  }

  lemma UidsCons(e: Candidate, s: seq<Candidate>)
    ensures Uids([e] + s) == {Uid(e)} + Uids(s)
  {
    UidsAppend([e], s);
    assert [e][0] == e;
  }

  /** Within one topic, the posts respect both quotas and come from the feed, fresh. */
  lemma {:induction false} SelectTagBounds(tag: string, entries: seq<Candidate>, seen: Ledger, total: int, count: int, lim: Limits, now: int)
    ensures var r := SelectTag(tag, entries, seen, total, count, lim, now);
      && total + |r.posted| <= Max(total, lim.maxPerRun)
      && count + |r.posted| <= Max(count, lim.maxPerTag)
      && (forall i :: 0 <= i < |r.posted| ==> r.posted[i] in entries && IsFresh(r.posted[i], now, lim.maxAgeHours))
  {
    if entries == [] || total >= lim.maxPerRun || count >= lim.maxPerTag {
    } else if Skipped(entries[0], seen, lim, now) {
      SelectTagBounds(tag, entries[1..], seen, total, count, lim, now);
    } else {
      var e := entries[0];
      var seen' := seen[Uid(e) := SeenEntry(tag, e.link)];
      SelectTagBounds(tag, entries[1..], seen', total + 1, count + 1, lim, now);
    }
  }

  /**
   * Within one topic, the ledger only grows, by exactly the identifiers of
   * the posted entries.
   */
  lemma {:induction false} SelectTagLedger(tag: string, entries: seq<Candidate>, seen: Ledger, total: int, count: int, lim: Limits, now: int)
    ensures var r := SelectTag(tag, entries, seen, total, count, lim, now);
      && Extends(seen, r.seen)
      && r.seen.Keys == seen.Keys + Uids(r.posted)
  {
    var r := SelectTag(tag, entries, seen, total, count, lim, now);
    if entries == [] || total >= lim.maxPerRun || count >= lim.maxPerTag {
      assert r.posted == [];
    } else if Skipped(entries[0], seen, lim, now) {
      SelectTagLedger(tag, entries[1..], seen, total, count, lim, now);
    } else {
      var e := entries[0];
      var seen' := seen[Uid(e) := SeenEntry(tag, e.link)];
      var r' := SelectTag(tag, entries[1..], seen', total + 1, count + 1, lim, now);
      SelectTagLedger(tag, entries[1..], seen', total + 1, count + 1, lim, now);
      assert r.posted == [e] + r'.posted;
      UidsCons(e, r'.posted);
    }
  }

  /** Within one topic, each posted entry is recorded with the topic and its link. */
  lemma {:induction false} SelectTagRecords(tag: string, entries: seq<Candidate>, seen: Ledger, total: int, count: int, lim: Limits, now: int)
    ensures var r := SelectTag(tag, entries, seen, total, count, lim, now);
      Records(r.seen, tag, r.posted)
  {
    var r := SelectTag(tag, entries, seen, total, count, lim, now);
    if entries == [] || total >= lim.maxPerRun || count >= lim.maxPerTag {
      assert r.posted == [];
    } else if Skipped(entries[0], seen, lim, now) {
      SelectTagRecords(tag, entries[1..], seen, total, count, lim, now);
    } else {
      var e := entries[0];
      var seen' := seen[Uid(e) := SeenEntry(tag, e.link)];
      var r' := SelectTag(tag, entries[1..], seen', total + 1, count + 1, lim, now);
      SelectTagRecords(tag, entries[1..], seen', total + 1, count + 1, lim, now);
      SelectTagLedger(tag, entries[1..], seen', total + 1, count + 1, lim, now);
      assert r.posted == [e] + r'.posted && r.seen == r'.seen;
      assert Uid(e) in seen';
      forall i | 0 <= i < |r.posted|
        ensures Uid(r.posted[i]) in r.seen && r.seen[Uid(r.posted[i])] == SeenEntry(tag, r.posted[i].link)
      {
        if i > 0 { assert r.posted[i] == r'.posted[i - 1]; }
      }
    }
  }

  /** Within one topic, no posted entry was in the ledger before, and none is posted twice. */
  lemma {:induction false} SelectTagDistinct(tag: string, entries: seq<Candidate>, seen: Ledger, total: int, count: int, lim: Limits, now: int)
    ensures var r := SelectTag(tag, entries, seen, total, count, lim, now);
      && (forall i :: 0 <= i < |r.posted| ==> Uid(r.posted[i]) !in seen)
      && DistinctUids(r.posted)
  {
    var r := SelectTag(tag, entries, seen, total, count, lim, now);
    if entries == [] || total >= lim.maxPerRun || count >= lim.maxPerTag {
      assert r.posted == [];
    } else if Skipped(entries[0], seen, lim, now) {
      SelectTagDistinct(tag, entries[1..], seen, total, count, lim, now);
    } else {
      var e := entries[0];
      var seen' := seen[Uid(e) := SeenEntry(tag, e.link)];
      var r' := SelectTag(tag, entries[1..], seen', total + 1, count + 1, lim, now);
      SelectTagDistinct(tag, entries[1..], seen', total + 1, count + 1, lim, now);
      assert r.posted == [e] + r'.posted;
      forall i | 0 <= i < |r.posted| ensures Uid(r.posted[i]) !in seen {
        if i > 0 { assert r.posted[i] == r'.posted[i - 1]; }
      }
      forall i, j | 0 <= i < j < |r.posted| ensures Uid(r.posted[i]) != Uid(r.posted[j]) {
        assert r.posted[j] == r'.posted[j - 1];
        if i > 0 { assert r.posted[i] == r'.posted[i - 1]; }
      }
    }
  }

  /**
   * Across a run: at most `maxPerRun` posts in all and `maxPerTag` per topic
   * (none at all when a limit is zero or negative); a topic is fetched only
   * while the run's quota is not used up, and the run stops early only
   * because it is.
   */
  lemma {:induction false} SelectRunBounds(topics: seq<Topic>, seen: Ledger, total: int, lim: Limits, now: int)
    ensures var r := SelectRun(topics, seen, total, lim, now);
      && |r.batches| <= |topics|
      && total + Total(r.batches) <= Max(total, lim.maxPerRun)
      && (forall i :: 0 <= i < |r.batches| ==> |r.batches[i]| <= Max(0, lim.maxPerTag))
      && (forall k :: 0 <= k < |r.batches| ==> total + Total(r.batches[..k]) < lim.maxPerRun)
      && (|r.batches| < |topics| ==> total + Total(r.batches) >= lim.maxPerRun)
  {
    var r := SelectRun(topics, seen, total, lim, now);
    if topics == [] || total >= lim.maxPerRun {
    } else {
      var t := SelectTag(topics[0].tag, topics[0].entries, seen, total, 0, lim, now);
      SelectTagBounds(topics[0].tag, topics[0].entries, seen, total, 0, lim, now);
      var rest := SelectRun(topics[1..], t.seen, total + |t.posted|, lim, now);
      SelectRunBounds(topics[1..], t.seen, total + |t.posted|, lim, now);
      assert r.batches == [t.posted] + rest.batches;
      assert r.batches[1..] == rest.batches;
      forall k | 0 <= k < |r.batches| ensures total + Total(r.batches[..k]) < lim.maxPerRun {
        if k > 0 {
          assert r.batches[..k][0] == t.posted;
          assert r.batches[..k][1..] == rest.batches[..k - 1];
        }
      }
    }
  }

  /** Across a run: every entry published under a topic comes from that topic's feed and is fresh. */
  lemma {:induction false} SelectRunProvenance(topics: seq<Topic>, seen: Ledger, total: int, lim: Limits, now: int)
    ensures var r := SelectRun(topics, seen, total, lim, now);
      && |r.batches| <= |topics|
      && (forall i, j :: 0 <= i < |r.batches| && 0 <= j < |r.batches[i]| ==>
            r.batches[i][j] in topics[i].entries && IsFresh(r.batches[i][j], now, lim.maxAgeHours))
  {
    var r := SelectRun(topics, seen, total, lim, now);
    if topics != [] && total < lim.maxPerRun {
      var t := SelectTag(topics[0].tag, topics[0].entries, seen, total, 0, lim, now);
      SelectTagBounds(topics[0].tag, topics[0].entries, seen, total, 0, lim, now);
      var rest := SelectRun(topics[1..], t.seen, total + |t.posted|, lim, now);
      SelectRunProvenance(topics[1..], t.seen, total + |t.posted|, lim, now);
      assert r.batches == [t.posted] + rest.batches;
      forall i, j | 0 <= i < |r.batches| && 0 <= j < |r.batches[i]|
        ensures r.batches[i][j] in topics[i].entries && IsFresh(r.batches[i][j], now, lim.maxAgeHours)
      {
        if i > 0 {
          assert r.batches[i] == rest.batches[i - 1];
          assert topics[i] == topics[1..][i - 1];
        }
      }
    }
  }

  /**
   * Across a run: the ledger only grows, by exactly the identifiers of the
   * published entries, and each is recorded with the topic it was
   * published under.
   */
  lemma {:induction false} SelectRunLedger(topics: seq<Topic>, seen: Ledger, total: int, lim: Limits, now: int)
    ensures var r := SelectRun(topics, seen, total, lim, now);
      && |r.batches| <= |topics|
      && Extends(seen, r.seen)
      && r.seen.Keys == seen.Keys + Uids(Flatten(r.batches))
      && (forall i :: 0 <= i < |r.batches| ==> Records(r.seen, topics[i].tag, r.batches[i]))
  {
    var r := SelectRun(topics, seen, total, lim, now);
    if topics == [] || total >= lim.maxPerRun {
      assert Flatten(r.batches) == [];
    } else {
      var t := SelectTag(topics[0].tag, topics[0].entries, seen, total, 0, lim, now);
      SelectTagLedger(topics[0].tag, topics[0].entries, seen, total, 0, lim, now);
      SelectTagRecords(topics[0].tag, topics[0].entries, seen, total, 0, lim, now);
      var rest := SelectRun(topics[1..], t.seen, total + |t.posted|, lim, now);
      SelectRunLedger(topics[1..], t.seen, total + |t.posted|, lim, now);
      assert r.batches == [t.posted] + rest.batches;
      assert r.batches[1..] == rest.batches;
      assert Flatten(r.batches) == t.posted + Flatten(rest.batches);
      UidsAppend(t.posted, Flatten(rest.batches));
      forall i | 0 <= i < |r.batches| ensures Records(r.seen, topics[i].tag, r.batches[i]) {
        if i == 0 {
          assert Records(t.seen, topics[0].tag, t.posted);
        } else {
          assert r.batches[i] == rest.batches[i - 1];
          assert topics[i] == topics[1..][i - 1];
        }
      }
    }
  }

  /**
   * Across a run: no published entry was in the ledger before, and no
   * identifier is published twice (the first topic to reach one claims it).
   */
  lemma {:induction false} SelectRunDistinct(topics: seq<Topic>, seen: Ledger, total: int, lim: Limits, now: int)
    ensures var f := Flatten(SelectRun(topics, seen, total, lim, now).batches);
      && (forall i :: 0 <= i < |f| ==> Uid(f[i]) !in seen)
      && DistinctUids(f)
  {
    var r := SelectRun(topics, seen, total, lim, now);
    if topics == [] || total >= lim.maxPerRun {
      assert Flatten(r.batches) == [];
    } else {
      var t := SelectTag(topics[0].tag, topics[0].entries, seen, total, 0, lim, now);
      SelectTagLedger(topics[0].tag, topics[0].entries, seen, total, 0, lim, now);
      SelectTagDistinct(topics[0].tag, topics[0].entries, seen, total, 0, lim, now);
      var rest := SelectRun(topics[1..], t.seen, total + |t.posted|, lim, now);
      SelectRunDistinct(topics[1..], t.seen, total + |t.posted|, lim, now);
      assert r.batches == [t.posted] + rest.batches;
      assert r.batches[1..] == rest.batches;
      var p, q := t.posted, Flatten(rest.batches);
      assert Flatten(r.batches) == p + q;
      forall i | 0 <= i < |p + q| ensures Uid((p + q)[i]) !in seen {
        if i >= |p| {
          assert (p + q)[i] == q[i - |p|];
        }
      }
      forall i, j | 0 <= i < j < |p + q| ensures Uid((p + q)[i]) != Uid((p + q)[j]) {
        if j >= |p| {
          assert (p + q)[j] == q[j - |p|];
          assert Uid(q[j - |p|]) !in t.seen;
          if i < |p| {
            assert Uid(p[i]) in Uids(p);
          } else {
            assert (p + q)[i] == q[i - |p|];
          }
        }
      }
    }
  }
}
