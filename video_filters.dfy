/** The filter chain the category and channel views apply to their video
    lists: status, duration bucket and publication recency, each skipped
    when set to 'all'. Durations are whole seconds and times integer
    milliseconds, so every threshold is an integer comparison. */
module VideoFilters {
  import opened Seqs
  import opened Types

  const ShortLimit := 600
  const LongFrom := 1800
  const DayMs := 86400000

  /** The status filter: the exact status, or anything for 'all'. */
  predicate StatusMatches(f: StatusFilter, v: Video)
  {
    f.AnyStatus? || v.status == f.status
  }

  /** The duration buckets: short under 10 minutes, medium from 10 up to
      30 minutes, long from 30 minutes on. */
  predicate DurationMatches(f: DurationFilter, v: Video)
  {
    match f
    case AnyDuration => true
    case Short => v.durationSeconds < ShortLimit
    case Medium => ShortLimit <= v.durationSeconds < LongFrom
    case Long => v.durationSeconds >= LongFrom
  }

  /** The recency buckets: published less than 1, 7 or 30 days before now
      (diffDays < n with diffDays the elapsed milliseconds over a day). */
  predicate DateMatches(f: DateFilter, now: int, v: Video)
  {
    match f
    case AnyDate => true
    case Today => now - v.publishedAt < DayMs
    case Week => now - v.publishedAt < 7 * DayMs
    case Month => now - v.publishedAt < 30 * DayMs
  }

  /** A video passes the three filters at once. */
  predicate Passes(sf: StatusFilter, df: DurationFilter, tf: DateFilter, now: int, v: Video)
  {
    StatusMatches(sf, v) && DurationMatches(df, v) && DateMatches(tf, now, v)
  }

  function ByStatus(sf: StatusFilter): Video -> bool
  {
    (v: Video) => StatusMatches(sf, v)
  }

  function ByDuration(df: DurationFilter): Video -> bool
  {
    (v: Video) => DurationMatches(df, v)
  }

  function ByDate(tf: DateFilter, now: int): Video -> bool
  {
    (v: Video) => DateMatches(tf, now, v)
  }

  function ByAll(sf: StatusFilter, df: DurationFilter, tf: DateFilter, now: int): Video -> bool
  {
    (v: Video) => Passes(sf, df, tf, now, v)
  }

  /** The views' chain: the list is rebound through up to three filters,
      each applied only when its selection is not 'all'. */
  function ApplyFilters(videos: seq<Video>, sf: StatusFilter, df: DurationFilter, tf: DateFilter, now: int): seq<Video>
  {
    var afterStatus := if sf != AnyStatus then Filter(videos, ByStatus(sf)) else videos;
    var afterDuration := if df != AnyDuration then Filter(afterStatus, ByDuration(df)) else afterStatus;
    if tf != AnyDate then Filter(afterDuration, ByDate(tf, now)) else afterDuration
  }

  /** A skipped step is a filter that keeps everything. */
  lemma SkippedStatus(videos: seq<Video>)
    ensures Filter(videos, ByStatus(AnyStatus)) == videos
  {
    FilterKeepsAll(videos, ByStatus(AnyStatus));
  }

  lemma SkippedDuration(videos: seq<Video>)
    ensures Filter(videos, ByDuration(AnyDuration)) == videos
  {
    FilterKeepsAll(videos, ByDuration(AnyDuration));
  }

  lemma SkippedDate(videos: seq<Video>, now: int)
    ensures Filter(videos, ByDate(AnyDate, now)) == videos
  {
    FilterKeepsAll(videos, ByDate(AnyDate, now));
  }

  /** The chain is one filter on the conjunction of the three predicates:
      the result keeps, in their order, exactly the videos that pass all
      three. */
  lemma ChainIsConjunction(videos: seq<Video>, sf: StatusFilter, df: DurationFilter, tf: DateFilter, now: int)
    ensures ApplyFilters(videos, sf, df, tf, now) == Filter(videos, ByAll(sf, df, tf, now))
  {
    var s1 := Filter(videos, ByStatus(sf));
    var sd := (v: Video) => StatusMatches(sf, v) && DurationMatches(df, v);
    var s2 := Filter(videos, sd);
    if sf == AnyStatus {
      SkippedStatus(videos);
    }
    if df == AnyDuration {
      SkippedDuration(s1);
    }
    FilterFilter(videos, ByStatus(sf), ByDuration(df), sd);
    if tf == AnyDate {
      SkippedDate(s2, now);
    }
    FilterFilter(videos, sd, ByDate(tf, now), ByAll(sf, df, tf, now));
  }

  /** What the chain returns: an order-preserving part of the list, and a
      video is in it exactly when it is in the list and passes all three
      filters. */
  lemma ChainMembers(videos: seq<Video>, sf: StatusFilter, df: DurationFilter, tf: DateFilter, now: int)
    ensures IsSubseq(ApplyFilters(videos, sf, df, tf, now), videos)
    ensures forall v :: v in ApplyFilters(videos, sf, df, tf, now) <==> v in videos && Passes(sf, df, tf, now, v)
  {
    ChainIsConjunction(videos, sf, df, tf, now);
    var r := ApplyFilters(videos, sf, df, tf, now);
    forall v | v in r ensures v in videos && Passes(sf, df, tf, now, v) {
      var i :| 0 <= i < |r| && r[i] == v;
    }
    forall v | v in videos && Passes(sf, df, tf, now, v) ensures v in r {
      var i :| 0 <= i < |videos| && videos[i] == v;
    }
  }

  /** With every filter on 'all' the list comes back unchanged. */
  lemma AllFiltersOff(videos: seq<Video>, now: int)
    ensures ApplyFilters(videos, AnyStatus, AnyDuration, AnyDate, now) == videos
  {
  }

  /** Every duration falls in exactly one of the three buckets. */
  lemma DurationBucketsPartition(v: Video)
    ensures DurationMatches(Short, v) || DurationMatches(Medium, v) || DurationMatches(Long, v)
    ensures !(DurationMatches(Short, v) && DurationMatches(Medium, v))
    ensures !(DurationMatches(Short, v) && DurationMatches(Long, v))
    ensures !(DurationMatches(Medium, v) && DurationMatches(Long, v))
  {
  }

  /** The recency buckets are nested: today within this week within this
      month. */
  lemma DateBucketsNested(now: int, v: Video)
    ensures DateMatches(Today, now, v) ==> DateMatches(Week, now, v)
    ensures DateMatches(Week, now, v) ==> DateMatches(Month, now, v)
  {
  }

  /** The bounds are strict: a video published exactly seven days before
      now is not in this week's bucket, and one published exactly a day
      before is not in today's. */
  lemma DateBoundsStrict(now: int, v: Video)
    ensures now - v.publishedAt == 7 * DayMs ==> !DateMatches(Week, now, v) && DateMatches(Month, now, v)
    ensures now - v.publishedAt == DayMs ==> !DateMatches(Today, now, v) && DateMatches(Week, now, v)
  {
  }
}
