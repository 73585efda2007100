/** The channel page: the selected channel's header, a way back to the
    selected category, and the channel's videos after the three filters.
    The store never sets activeChannelId and never defines
    getVideosByChannel, so the page as written renders nothing on every
    store state, and would raise a TypeError if a channel were found;
    RenderIntended is the page with getVideosByChannel as the interface
    declares it. */
module ChannelViewPage {
  import opened Wrappers
  import opened Seqs
  import opened Types
  import opened Interface
  import StoreModel
  import VideoFilters
  import CategoryViewPage

  type StoreState = StoreModel.StoreState

  /** What the page shows for a channel it finds: the channel, the category
      the back button returns to (if one is selected), and the videos. */
  datatype Page = Page(channel: Channel, backTo: Option<Category>, videos: seq<Video>, showsEmptyNotice: bool)

  /** c.id === activeChannelId */
  function ChannelIdIs(id: Option<string>): Channel -> bool
  {
    (ch: Channel) => Some(ch.id) == id
  }

  /** channels.find(c => c.id === activeChannelId) */
  function ActiveChannel(st: StoreState, activeChannelId: Option<string>): (r: Option<Channel>)
    ensures r.Some? <==> exists ch :: ch in st.channels && Some(ch.id) == activeChannelId
    ensures r.Some? ==> r.value in st.channels && Some(r.value.id) == activeChannelId
  {
    Find(st.channels, ChannelIdIs(activeChannelId))
  }

  /** The page as written: nothing without a channel, and otherwise the
      call of the store's undefined getVideosByChannel. */
  function Render(st: StoreState, activeChannelId: Option<string>): Call<Option<Page>>
  {
    if ActiveChannel(st, activeChannelId).None? then Returned(None)
    else NotAFunction(GetVideosByChannel)
  }

  /** The page with getVideosByChannel defined as declared. */
  function RenderIntended(st: StoreState, activeChannelId: Option<string>, now: int): Option<Page>
  {
    match ActiveChannel(st, activeChannelId)
    case None => None
    case Some(channel) =>
      var videos := VideoFilters.ApplyFilters(StoreModel.VideosByChannel(st, channel.id),
                                              st.statusFilter, st.durationFilter, st.dateFilter, now);
      Some(Page(channel, CategoryViewPage.ActiveCategory(st), videos, |videos| == 0))
  }

  /** On every store state the page renders nothing: the store's
      activeChannelId is always undefined. */
  lemma NeverShownOnStore(st: StoreState)
    ensures Render(st, StoreModel.ActiveChannelId) == Returned(None)
  {
  }

  /** Given an id that names a channel, the page as written fails: the
      member it calls is one the store does not define. */
  lemma FailsWhenChannelFound(st: StoreState, activeChannelId: Option<string>)
    requires exists ch :: ch in st.channels && Some(ch.id) == activeChannelId
    ensures Render(st, activeChannelId) == NotAFunction(GetVideosByChannel)
    ensures !DefinedByStore(GetVideosByChannel)
  {
  }

  /** The intended page is shown exactly when the id names a channel; it
      lists, in store order, exactly the channel's videos that pass the
      filters; the back button is offered exactly when a category is
      selected. */
  lemma RenderIntendedSpec(st: StoreState, activeChannelId: Option<string>, now: int)
    ensures RenderIntended(st, activeChannelId, now).Some? <==> exists ch :: ch in st.channels && Some(ch.id) == activeChannelId
    ensures RenderIntended(st, activeChannelId, now).Some? ==>
      var p := RenderIntended(st, activeChannelId, now).value;
      p.channel in st.channels && Some(p.channel.id) == activeChannelId
      && IsSubseq(p.videos, st.videos)
      && (forall v :: v in p.videos <==>
            v in st.videos && v.channelId == p.channel.id
            && VideoFilters.Passes(st.statusFilter, st.durationFilter, st.dateFilter, now, v))
      && (p.backTo.Some? <==> exists c :: c in st.categories && Some(c.id) == st.activeCategoryId)
      && (p.showsEmptyNotice <==> p.videos == [])
  {
    var r := ActiveChannel(st, activeChannelId);
    if r.Some? {
      var id := r.value.id;
      var all := VideoFilters.ByAll(st.statusFilter, st.durationFilter, st.dateFilter, now);
      var both := (v: Video) => StoreModel.OnChannel(id)(v) && all(v);
      VideoFilters.ChainIsConjunction(StoreModel.VideosByChannel(st, id), st.statusFilter, st.durationFilter, st.dateFilter, now);
      FilterFilter(st.videos, StoreModel.OnChannel(id), all, both);
      VideoFilters.ChainMembers(StoreModel.VideosByChannel(st, id), st.statusFilter, st.durationFilter, st.dateFilter, now);
    }
  }

  /** The intended page of a channel in the selected category lists a part
      of what the category page lists, in the same order. */
  lemma IntendedWithinCategoryPage(st: StoreState, activeChannelId: Option<string>, now: int)
    requires RenderIntended(st, activeChannelId, now).Some?
    requires Some(RenderIntended(st, activeChannelId, now).value.channel.categoryId) == st.activeCategoryId
    requires CategoryViewPage.Render(st, now).Some?
    ensures IsSubseq(RenderIntended(st, activeChannelId, now).value.videos, CategoryViewPage.Render(st, now).value.videos)
  {
    var ch := RenderIntended(st, activeChannelId, now).value.channel;
    var cat := CategoryViewPage.Render(st, now).value.category;
    assert cat.id == ch.categoryId;
    var all := VideoFilters.ByAll(st.statusFilter, st.durationFilter, st.dateFilter, now);
    var onChannel := StoreModel.VideosByChannel(st, ch.id);
    var inCategory := StoreModel.VideosByCategory(st, cat.id);
    StoreModel.ChannelWithinCategory(st, ch);
    VideoFilters.ChainIsConjunction(onChannel, st.statusFilter, st.durationFilter, st.dateFilter, now);
    VideoFilters.ChainIsConjunction(inCategory, st.statusFilter, st.durationFilter, st.dateFilter, now);
    var ids := StoreModel.ChannelIds(StoreModel.ChannelsByCategory(st, cat.id));
    var fromIds := StoreModel.FromChannels(ids);
    var both1 := (v: Video) => StoreModel.OnChannel(ch.id)(v) && all(v);
    var both2 := (v: Video) => fromIds(v) && all(v);
    FilterFilter(st.videos, StoreModel.OnChannel(ch.id), all, both1);
    FilterFilter(st.videos, fromIds, all, both2);
    assert ch.id in ids;
    FilterMonotone(st.videos, both1, both2);
  }

  /** The back button: select the category again. */
  function Back(st: StoreState, category: Category): StoreState
  {
    StoreModel.SetActiveCategoryId(st, Some(category.id))
  }

  /** The back button keeps the selected category and switches to the
      category page, unless the category's id is empty, in which case the
      store falls back to the dashboard. */
  lemma BackSpec(st: StoreState, activeChannelId: Option<string>, now: int)
    requires RenderIntended(st, activeChannelId, now).Some?
    requires RenderIntended(st, activeChannelId, now).value.backTo.Some?
    ensures var c := RenderIntended(st, activeChannelId, now).value.backTo.value;
      var after := Back(st, c);
      after.activeCategoryId == st.activeCategoryId
      && (after.activeView == CategoryView <==> c.id != "")
      && (after.activeView == DashboardView <==> c.id == "")
      && StoreModel.Partialize(after) == StoreModel.Partialize(st)
  {
  }
}
