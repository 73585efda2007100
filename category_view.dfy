/** The category page: the selected category's header, its videos after the
    three filters, one card per video, and the "no videos" notice when the
    filtered list is empty. `now` is the time of rendering in milliseconds. */
module CategoryViewPage {
  import opened Wrappers
  import opened Seqs
  import opened Types
  import StoreModel
  import VideoFilters

  type StoreState = StoreModel.StoreState

  /** What the page shows for a category it finds. */
  datatype Page = Page(category: Category, videos: seq<Video>, showsEmptyNotice: bool)

  /** c.id === id, which never holds for a null id. */
  function IdIs(id: Option<string>): Category -> bool
  {
    (c: Category) => Some(c.id) == id
  }

  /** categories.find(c => c.id === activeCategoryId): the first category
      with the selected id. */
  function ActiveCategory(st: StoreState): (r: Option<Category>)
    ensures r.Some? <==> exists c :: c in st.categories && Some(c.id) == st.activeCategoryId
    ensures r.Some? ==> r.value in st.categories && Some(r.value.id) == st.activeCategoryId
    ensures r.Some? ==> var i := FindIndex(st.categories, IdIs(st.activeCategoryId));
                        i < |st.categories| && st.categories[i] == r.value
                        && forall j :: 0 <= j < i ==> Some(st.categories[j].id) != st.activeCategoryId
  {
    Find(st.categories, IdIs(st.activeCategoryId))
  }

  /** The page, or None when no category has the selected id (the component
      renders nothing then). */
  function Render(st: StoreState, now: int): Option<Page>
  {
    match ActiveCategory(st)
    case None => None
    case Some(category) =>
      var videos := VideoFilters.ApplyFilters(StoreModel.VideosByCategory(st, category.id),
                                              st.statusFilter, st.durationFilter, st.dateFilter, now);
      Some(Page(category, videos, |videos| == 0))
  }

  /** The page is shown exactly when a category has the selected id; it then
      lists, in store order, exactly the videos of that category's channels
      that pass the three filters, and shows the notice exactly when it
      lists none. */
  lemma RenderSpec(st: StoreState, now: int)
    ensures Render(st, now).Some? <==> exists c :: c in st.categories && Some(c.id) == st.activeCategoryId
    ensures Render(st, now).Some? ==>
      var p := Render(st, now).value;
      p.category in st.categories && Some(p.category.id) == st.activeCategoryId
      && IsSubseq(p.videos, st.videos)
      && (forall v :: v in p.videos <==>
            v in st.videos
            && (exists ch :: ch in st.channels && StoreModel.ChannelOfVideoIn(ch, v, p.category.id))
            && VideoFilters.Passes(st.statusFilter, st.durationFilter, st.dateFilter, now, v))
      && (p.showsEmptyNotice <==> p.videos == [])
  {
    var r := ActiveCategory(st);
    if r.Some? {
      var id := r.value.id;
      var inCategory := StoreModel.FromChannels(StoreModel.ChannelIds(StoreModel.ChannelsByCategory(st, id)));
      var all := VideoFilters.ByAll(st.statusFilter, st.durationFilter, st.dateFilter, now);
      var both := (v: Video) => inCategory(v) && all(v);
      VideoFilters.ChainIsConjunction(StoreModel.VideosByCategory(st, id), st.statusFilter, st.durationFilter, st.dateFilter, now);
      FilterFilter(st.videos, inCategory, all, both);
      VideoFilters.ChainMembers(StoreModel.VideosByCategory(st, id), st.statusFilter, st.durationFilter, st.dateFilter, now);
    }
  }

  /** With no category selected the page renders nothing. */
  lemma NothingWithoutSelection(st: StoreState, now: int)
    requires st.activeCategoryId.None?
    ensures Render(st, now).None?
  {
  }

  /** Marking a video with a status other than the one the status filter
      selects takes its card off the page. */
  lemma StatusChangeHidesCard(st: StoreState, videoId: string, status: VideoStatus, now: int)
    requires st.statusFilter.OnlyStatus? && st.statusFilter.status != status
    ensures var after := StoreModel.UpdateVideoStatus(st, videoId, status);
      Render(after, now).Some? ==> forall v :: v in Render(after, now).value.videos ==> v.id != videoId
  {
    var after := StoreModel.UpdateVideoStatus(st, videoId, status);
    MarkedVideosHaveStatus(st, videoId, status);
    RenderSpec(after, now);
  }

  lemma MarkedVideosHaveStatus(st: StoreState, videoId: string, status: VideoStatus)
    ensures forall v :: v in StoreModel.UpdateVideoStatus(st, videoId, status).videos && v.id == videoId ==> v.status == status
  {
    var videos := StoreModel.UpdateVideoStatus(st, videoId, status).videos;
    forall v | v in videos && v.id == videoId ensures v.status == status {
      var i :| 0 <= i < |videos| && videos[i] == v;
      assert videos[i] == st.videos[i].(status := videos[i].status);
    }
  }

  /** Choosing a filter on the page keeps the page and its category. */
  lemma FilterChoiceKeepsPage(st: StoreState, sf: StatusFilter, df: DurationFilter, tf: DateFilter, now: int)
    ensures var after := StoreModel.SetDateFilter(StoreModel.SetDurationFilter(StoreModel.SetStatusFilter(st, sf), df), tf);
      after.activeView == st.activeView
      && Render(after, now).Some? == Render(st, now).Some?
      && (Render(st, now).Some? ==> Render(after, now).value.category == Render(st, now).value.category)
  {
  }
}
