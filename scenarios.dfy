/**
 * Two runs worked through by hand: the quotas splitting a run across two
 * topics, and the same link reaching a run under two topics.
 */
module Scenarios {
  import opened Wrappers
  import opened Feed
  import opened Selection

  /**
   * Topics A and B with three fresh, unseen entries each, MAX_PER_RUN
   * 3 and MAX_PER_TAG 2: two entries of A are published, then one of B,
   * and the run-wide quota stops the rest; the ledger then holds exactly
   * those three identifiers, each under its topic.
   */
  lemma TwoTopicsShareTheRunQuota()
    ensures
      var a1, a2, a3 := Candidate("a1", "https://x/a1", None), Candidate("a2", "https://x/a2", None), Candidate("a3", "https://x/a3", None);
      var b1, b2, b3 := Candidate("b1", "https://x/b1", None), Candidate("b2", "https://x/b2", None), Candidate("b3", "https://x/b3", None);
      var r := Select([Topic("A", [a1, a2, a3]), Topic("B", [b1, b2, b3])], map[], Limits(3, 2, 24), 0);
      && r.batches == [[a1, a2], [b1]]
      && r.seen == map["https://x/a1" := SeenEntry("A", "https://x/a1"),
                       "https://x/a2" := SeenEntry("A", "https://x/a2"),
                       "https://x/b1" := SeenEntry("B", "https://x/b1")]
  {
    var a1, a2, a3 := Candidate("a1", "https://x/a1", None), Candidate("a2", "https://x/a2", None), Candidate("a3", "https://x/a3", None);
    var b1, b2, b3 := Candidate("b1", "https://x/b1", None), Candidate("b2", "https://x/b2", None), Candidate("b3", "https://x/b3", None);
    var lim := Limits(3, 2, 24);
    var topics := [Topic("A", [a1, a2, a3]), Topic("B", [b1, b2, b3])];
    var s1 := map["https://x/a1" := SeenEntry("A", "https://x/a1")];
    var s2 := s1["https://x/a2" := SeenEntry("A", "https://x/a2")];
    var s3 := s2["https://x/b1" := SeenEntry("B", "https://x/b1")];
    assert SelectTag("A", [a3], s2, 2, 2, lim, 0) == TagRun([], s2);
    assert SelectTag("A", [a2, a3], s1, 1, 1, lim, 0) == TagRun([a2], s2);
    assert SelectTag("A", [a1, a2, a3], map[], 0, 0, lim, 0) == TagRun([a1, a2], s2);
    assert SelectTag("B", [b2, b3], s3, 3, 1, lim, 0) == TagRun([], s3);
    assert SelectTag("B", [b1, b2, b3], s2, 2, 0, lim, 0) == TagRun([b1], s3);
    assert topics[1..][1..] == [];
    assert SelectRun([], s3, 3, lim, 0) == RunResult([], s3);
    assert SelectRun(topics[1..], s2, 2, lim, 0) == RunResult([[b1]], s3);
    assert Select(topics, map[], lim, 0) == RunResult([[a1, a2], [b1]], s3);
  }

  /**
   * The same link under topics A and B, with MAX_PER_TAG 1: A publishes it,
   * B skips its copy as already seen (whatever its title) without using up
   * its one slot, and publishes its next entry instead.
   */
  lemma DuplicateLinkAcrossTopics()
    ensures
      var x, x', z := Candidate("x", "https://x/1", None), Candidate("another title", "https://x/1", None), Candidate("z", "https://x/2", None);
      var r := Select([Topic("A", [x]), Topic("B", [x', z])], map[], Limits(3, 1, 24), 0);
      && r.batches == [[x], [z]]
      && r.seen == map["https://x/1" := SeenEntry("A", "https://x/1"), "https://x/2" := SeenEntry("B", "https://x/2")]
  {
    var x, x', z := Candidate("x", "https://x/1", None), Candidate("another title", "https://x/1", None), Candidate("z", "https://x/2", None);
    var lim := Limits(3, 1, 24);
    var topics := [Topic("A", [x]), Topic("B", [x', z])];
    var s1 := map["https://x/1" := SeenEntry("A", "https://x/1")];
    var s2 := s1["https://x/2" := SeenEntry("B", "https://x/2")];
    assert SelectTag("A", [], s1, 1, 1, lim, 0) == TagRun([], s1);
    assert SelectTag("A", [x], map[], 0, 0, lim, 0) == TagRun([x], s1);
    assert SelectTag("B", [], s2, 2, 1, lim, 0) == TagRun([], s2);
    assert SelectTag("B", [z], s1, 1, 0, lim, 0) == TagRun([z], s2);
    assert [x', z][1..] == [z];
    assert SelectTag("B", [x', z], s1, 1, 0, lim, 0) == TagRun([z], s2);
    assert topics[1..][1..] == [];
    assert SelectRun([], s2, 2, lim, 0) == RunResult([], s2);
    assert SelectRun(topics[1..], s1, 1, lim, 0) == RunResult([[z]], s2);
    assert Select(topics, map[], lim, 0) == RunResult([[x], [z]], s2);
  }
}
