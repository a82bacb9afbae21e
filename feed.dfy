/**
 * What the selection loop reads from one RSS entry: its identity
 * (`link or title`, after stripping) and whether it is recent enough to
 * post (`should_post`).
 */
module Feed {
  import opened Wrappers
  import opened Text

  /**
   * One entry as the RSS parser hands it over: the raw `title` and `link`
   * (an absent field is the empty string) and the parsed `published` and
   * `updated` times, when the feed gave them. The parser reports those
   * times in UTC; here they are the seconds since the epoch that the UTC
   * reading gives (see `UtcAgeDecides` and `MktimeRejectsFreshEntry`).
   */
  datatype Entry = Entry(title: string, link: string, published: Option<int>, updated: Option<int>)

  /**
   * An entry as the selection loop works with it: title and link stripped,
   * and the publication time, else the update time, when there is one.
   */
  datatype Candidate = Candidate(title: string, link: string, date: Option<int>)

  /** The loop's first step on each entry: strip the title and the link, pick the date. */
  function ToCandidate(e: Entry): (c: Candidate)
    ensures IsTrimmed(c.title) && IsTrimmed(c.link)
    ensures c.title == Trim(e.title) && c.link == Trim(e.link)
    ensures c.date.Some? <==> e.published.Some? || e.updated.Some?
    ensures e.published.Some? ==> c.date == e.published
    ensures e.published.None? ==> c.date == e.updated
  {
    Candidate(Trim(e.title), Trim(e.link), if e.published.Some? then e.published else e.updated)
  }

  /**
   * The ledger identifier of a candidate: its link, or its title when the
   * link is empty. The bot stores the SHA-256 digest of this text; the
   * digest is taken to be injective, so the text itself stands for it here.
   */
  function Uid(c: Candidate): string
  {
    if c.link != [] then c.link else c.title
  }

  /**
   * Two entries with the same non-empty link (after stripping) share an
   * identifier whatever their titles; two link-less entries share one
   * exactly when their stripped titles agree; two entries with links share
   * one exactly when the links agree.
   */
  lemma UidAgreement(a: Entry, b: Entry)
    ensures Trim(a.link) != [] && Trim(a.link) == Trim(b.link) ==> Uid(ToCandidate(a)) == Uid(ToCandidate(b))
    ensures Trim(a.link) == [] && Trim(b.link) == [] ==>
              (Uid(ToCandidate(a)) == Uid(ToCandidate(b)) <==> Trim(a.title) == Trim(b.title))
    ensures Trim(a.link) != [] && Trim(b.link) != [] ==>
              (Uid(ToCandidate(a)) == Uid(ToCandidate(b)) <==> Trim(a.link) == Trim(b.link))
  {
  }

  /** The time the freshness check is applied to: the candidate's date, or the current time (an undated entry is as old as the run). */
  function Timestamp(c: Candidate, now: int): int
  {
    c.date.GetOr(now)
  }

  /**
   * `should_post(ts)`: with a positive age limit, the age in hours (a real
   * division of the age in seconds by 3600) must not exceed the limit; a
   * limit of zero or less disables the check. In whole seconds this is
   * "the age is at most `maxAgeHours * 3600` seconds".
   */
  function ShouldPost(ts: int, now: int, maxAgeHours: int): (ok: bool)
    ensures ok <==> maxAgeHours <= 0 || now - ts <= maxAgeHours * 3600
  {
    if maxAgeHours <= 0 then true
    else ((now - ts) as real) / 3600.0 <= maxAgeHours as real
  }

  /** The freshness test the selection loop applies to an entry. */
  predicate IsFresh(c: Candidate, now: int, maxAgeHours: int)
  {
    ShouldPost(Timestamp(c, now), now, maxAgeHours)
  }

  /** An age of exactly the limit passes; one second more fails. */
  lemma FreshnessBoundary(now: int, maxAgeHours: int)
    requires maxAgeHours > 0
    ensures ShouldPost(now - maxAgeHours * 3600, now, maxAgeHours)
    ensures !ShouldPost(now - maxAgeHours * 3600 - 1, now, maxAgeHours)
  {
  }

  /** A limit of zero or less accepts every entry, however old. */
  lemma FreshnessDisabled(ts: int, now: int, maxAgeHours: int)
    requires maxAgeHours <= 0
    ensures ShouldPost(ts, now, maxAgeHours)
  {
  }

  /** An undated entry and an entry dated in the future both pass. */
  lemma FreshWithoutDateOrInFuture(e: Entry, now: int, maxAgeHours: int)
    requires (e.published.None? && e.updated.None?) || Timestamp(ToCandidate(e), now) >= now
    ensures IsFresh(ToCandidate(e), now, maxAgeHours)
  {
  }

  /**
   * The timestamp the program computes from a parsed date: `time.mktime`
   * reads the UTC fields as local time, so on a host `utcOffset` seconds
   * ahead of UTC the result is that many seconds too early.
   */
  function MktimeTimestamp(parsedAsUtc: int, utcOffset: int): int
  {
    parsedAsUtc - utcOffset
  }

  /**
   * The program as written: on a host three hours ahead of UTC, an entry
   * published 22 hours ago, within the 24-hour limit, is rejected.
   */
  lemma MktimeRejectsFreshEntry()
    ensures var now, published := 360000, 360000 - 22 * 3600;
      && now - published <= 24 * 3600
      && !ShouldPost(MktimeTimestamp(published, 3 * 3600), now, 24)
  {
  }

  /**
   * As intended (reading the parsed date as UTC, as `calendar.timegm`
   * does): a dated entry is fresh exactly when its true age is within the
   * limit, whatever the host's zone.
   */
  lemma UtcAgeDecides(e: Entry, now: int, maxAgeHours: int)
    requires e.published.Some? || e.updated.Some?
    ensures var when := if e.published.Some? then e.published.value else e.updated.value;
      IsFresh(ToCandidate(e), now, maxAgeHours) <==> maxAgeHours <= 0 || now - when <= maxAgeHours * 3600
  {
  }

  /** An entry too old to post stays too old as the clock moves on. */
  lemma StaleStaysStale(c: Candidate, now: int, later: int, maxAgeHours: int)
    requires now <= later
    requires !IsFresh(c, now, maxAgeHours)
    ensures !IsFresh(c, later, maxAgeHours)
  {
  }
}
