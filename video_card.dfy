/** The video card: thumbnail marks, the publication date as text, the
    status badge, the quick status buttons (left out in compact cards) and
    the summary button. */
module VideoCard {
  import opened Wrappers
  import opened Types
  import opened Text
  import StoreModel

  const HourMs := 3600000

  /** The date text: hours ago under a day, 'ayer' under two days, else
      the calendar date in the Spanish locale (kept as the timestamp). */
  datatype DateLabel = HoursAgo(hours: int) | Yesterday | CalendarDate(publishedAt: int)

  /** formatDate, with now and the publication time in milliseconds. The
      hour count is rounded down. */
  function FormatDate(now: int, publishedAt: int): DateLabel
  {
    var elapsed := now - publishedAt;
    if elapsed < 24 * HourMs then HoursAgo(elapsed / HourMs)
    else if elapsed < 48 * HourMs then Yesterday
    else CalendarDate(publishedAt)
  }

  /** The text of the first two labels. */
  function DateText(d: DateLabel): Option<string>
  {
    match d
    case HoursAgo(h) => Some("hace " + IntToString(h) + "h")
    case Yesterday => Some("ayer")
    case CalendarDate(_) => None
  }

  /** statusConfig: the badge's label and class per status. */
  datatype Badge = Badge(text: string, className: string)

  function StatusBadge(s: VideoStatus): Badge
  {
    match s
    case New => Badge("Nuevo", "badge-new")
    case Watched => Badge("Visto", "badge-watched")
    case Pending => Badge("Pendiente", "badge-pending")
    case NotInterested => Badge("No interesa", "badge-not-interested")
  }

  /** The status filter's option labels on the category and channel pages. */
  function StatusOptionLabel(f: StatusFilter): string
  {
    match f
    case AnyStatus => "Todos"
    case OnlyStatus(New) => "Nuevo"
    case OnlyStatus(Watched) => "Visto"
    case OnlyStatus(Pending) => "Pendiente"
    case OnlyStatus(NotInterested) => "No interesa"
  }

  /** The statuses of the quick buttons, in order. */
  const QuickStatuses: seq<VideoStatus> := [Watched, Pending, NotInterested]

  datatype QuickAction = QuickAction(status: VideoStatus, highlighted: bool)

  datatype Card = Card(
    badge: Badge,
    date: DateLabel,
    actions: seq<QuickAction>,
    summaryButton: string,
    showsTranscriptMark: bool,
    showsSummaryMark: bool)

  function CardFor(v: Video, compact: bool, now: int): Card
  {
    var actions := if compact then [] else
      seq(|QuickStatuses|, i requires 0 <= i < |QuickStatuses| => QuickAction(QuickStatuses[i], v.status == QuickStatuses[i]));
    Card(StatusBadge(v.status), FormatDate(now, v.publishedAt), actions,
         if HasSummary(v) then "Ver" else "Resumir", v.hasTranscript, HasSummary(v))
  }

  /** A quick button sets the video's status; the summary button selects
      the video, which opens the summary panel. */
  function ClickAction(st: StoreModel.StoreState, v: Video, status: VideoStatus): StoreModel.StoreState
  {
    StoreModel.UpdateVideoStatus(st, v.id, status)
  }

  function ClickSummary(st: StoreModel.StoreState, v: Video): StoreModel.StoreState
  {
    StoreModel.SetSelectedVideoId(st, Some(v.id))
  }

  /** The three labels partition the elapsed time: hours for less than a
      day (the count is the whole hours elapsed), 'ayer' for the second day,
      the date from the third day on. A publication time after now gives a
      negative hour count. */
  lemma FormatDateSpec(now: int, publishedAt: int)
    ensures var e, l := now - publishedAt, FormatDate(now, publishedAt);
      (l.HoursAgo? <==> e < 86400000)
      && (l.Yesterday? <==> 86400000 <= e < 172800000)
      && (l.CalendarDate? <==> e >= 172800000)
      && (l.HoursAgo? ==> l.hours * 3600000 <= e < (l.hours + 1) * 3600000 && l.hours < 24)
      && (l.HoursAgo? && e >= 0 ==> 0 <= l.hours)
      && (l.HoursAgo? && e < 0 ==> l.hours < 0)
  {
  }

  /** The hours text reads 'hace', the number, then 'h', and the number
      parses back to the hour count. */
  lemma HoursTextSpec(h: int)
    ensures var t := DateText(HoursAgo(h)).value;
      t[..5] == "hace " && t[|t| - 1] == 'h'
      && t[5..|t| - 1] == IntToString(h) && ParseInt(t[5..|t| - 1]) == Some(h)
  {
    var t := "hace " + IntToString(h) + "h";
    assert t[5..|t| - 1] == IntToString(h);
    ParseIntOfIntToString(h);
  }

  /** Each status has its own badge, labelled as the status filter labels
      it. */
  lemma BadgeSpec(s: VideoStatus, t: VideoStatus)
    ensures StatusBadge(s).text == StatusOptionLabel(OnlyStatus(s))
    ensures s != t ==> StatusBadge(s).text != StatusBadge(t).text && StatusBadge(s).className != StatusBadge(t).className
    ensures StatusOptionLabel(AnyStatus) != StatusBadge(s).text
  {
  }

  /** A full card offers the three statuses other than 'new' and highlights
      exactly the video's own; a compact card offers none. The summary
      button and mark follow whether the video has a summary. */
  lemma CardSpec(v: Video, compact: bool, now: int)
    ensures var c := CardFor(v, compact, now);
      (compact <==> c.actions == [])
      && (!compact ==>
            |c.actions| == 3
            && (forall i :: 0 <= i < 3 ==> c.actions[i].status == QuickStatuses[i] && c.actions[i].status != New)
            && (forall i :: 0 <= i < 3 ==> (c.actions[i].highlighted <==> v.status == c.actions[i].status))
            && (v.status == New <==> forall i :: 0 <= i < 3 ==> !c.actions[i].highlighted))
      && (c.summaryButton == "Ver" <==> HasSummary(v))
      && (c.summaryButton == "Resumir" <==> !HasSummary(v))
      && (c.showsSummaryMark <==> HasSummary(v))
      && c.badge == StatusBadge(v.status)
  {
    if !compact && v.status != New {
      var c := CardFor(v, compact, now);
      assert v.status == QuickStatuses[0] || v.status == QuickStatuses[1] || v.status == QuickStatuses[2];
    }
  }

  /** After a quick button the stored video carries the chosen status, so
      its redrawn card highlights that button and shows that badge. */
  lemma ClickActionSpec(st: StoreModel.StoreState, i: nat, status: VideoStatus, compact: bool, now: int)
    requires i < |st.videos|
    ensures var r := ClickAction(st, st.videos[i], status);
      r.videos[i] == st.videos[i].(status := status)
      && CardFor(r.videos[i], compact, now).badge == StatusBadge(status)
      && (!compact ==> forall j :: 0 <= j < 3 ==>
            (CardFor(r.videos[i], compact, now).actions[j].highlighted <==> QuickStatuses[j] == status))
  {
    var r := ClickAction(st, st.videos[i], status);
    assert r.videos[i] == st.videos[i].(status := r.videos[i].status);
  }

  /** The summary button selects the video and opens the panel for a video
      with a non-empty id. */
  lemma ClickSummarySpec(st: StoreModel.StoreState, v: Video)
    ensures ClickSummary(st, v).selectedVideoId == Some(v.id)
    ensures ClickSummary(st, v).isSummaryPanelOpen <==> v.id != ""
    ensures StoreModel.Partialize(ClickSummary(st, v)) == StoreModel.Partialize(st)
  {
  }
}
