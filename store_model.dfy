/** The content store as a value: its state, one step function per action
    (each is the `set` the action performs), the derived queries and the
    persisted snapshot. The class Store.Store updates its fields exactly as
    these functions say. */
module StoreModel {
  import opened Wrappers
  import opened Seqs
  import opened Text
  import opened Types

  datatype StoreState = StoreState(
    categories: seq<Category>,
    channels: seq<Channel>,
    videos: seq<Video>,
    settings: AppSettings,
    activeView: View,
    activeCategoryId: Option<string>,
    selectedVideoId: Option<string>,
    isAddChannelModalOpen: bool,
    isSummaryPanelOpen: bool,
    statusFilter: StatusFilter,
    durationFilter: DurationFilter,
    dateFilter: DateFilter)

  /** The part of the state that partialize hands to storage. */
  datatype Snapshot = Snapshot(
    categories: seq<Category>,
    channels: seq<Channel>,
    videos: seq<Video>,
    settings: AppSettings)

  /** activeChannelId is declared by the interface but the store never
      initialises or sets it, so every read gives undefined. */
  const ActiveChannelId: Option<string> := None

  const NewCategoryIcon := "Folder"
  const NewCategoryColor := "#8b5cf6"

  // ---------------------------------------------------------------------
  // Initial state and persistence

  /** The store's state built from the given data: the UI fields take their
      initial values (dashboard, nothing selected, panels closed, filters
      on 'all'). */
  function Restore(snap: Snapshot): StoreState
  {
    StoreState(snap.categories, snap.channels, snap.videos, snap.settings,
      DashboardView, None, None, false, false, AnyStatus, AnyDuration, AnyDate)
  }

  /** partialize: the four persisted fields. */
  function Partialize(st: StoreState): Snapshot
  {
    Snapshot(st.categories, st.channels, st.videos, st.settings)
  }

  /** Two states with the same data have the same snapshot, whatever their
      view, selection, panel flags and filters. */
  lemma PartializeIgnoresUi(st: StoreState, view: View, categoryId: Option<string>, videoId: Option<string>,
                            modalOpen: bool, panelOpen: bool, sf: StatusFilter, df: DurationFilter, tf: DateFilter)
    ensures Partialize(st.(activeView := view, activeCategoryId := categoryId, selectedVideoId := videoId,
                           isAddChannelModalOpen := modalOpen, isSummaryPanelOpen := panelOpen,
                           statusFilter := sf, durationFilter := df, dateFilter := tf))
            == Partialize(st)
  {
  }

  /** Saving a restored state gives back exactly what was restored, and
      restoring what was saved gives back the data with the UI reset. */
  lemma PartializeRestore(snap: Snapshot, st: StoreState)
    ensures Partialize(Restore(snap)) == snap
    ensures Restore(Partialize(st)) == st.(activeView := DashboardView, activeCategoryId := None,
                                            selectedVideoId := None, isAddChannelModalOpen := false,
                                            isSummaryPanelOpen := false, statusFilter := AnyStatus,
                                            durationFilter := AnyDuration, dateFilter := AnyDate)
  {
  }

  // ---------------------------------------------------------------------
  // UI actions

  function SetActiveView(st: StoreState, view: View): StoreState
  {
    st.(activeView := view, activeCategoryId := if view == DashboardView then None else st.activeCategoryId)
  }

  function SetActiveCategoryId(st: StoreState, id: Option<string>): StoreState
  {
    st.(activeCategoryId := id, activeView := if Truthy(id) then CategoryView else DashboardView)
  }

  function SetSelectedVideoId(st: StoreState, id: Option<string>): StoreState
  {
    st.(selectedVideoId := id, isSummaryPanelOpen := Truthy(id))
  }

  function ToggleAddChannelModal(st: StoreState): StoreState
  {
    st.(isAddChannelModalOpen := !st.isAddChannelModalOpen)
  }

  function ToggleSummaryPanel(st: StoreState): StoreState
  {
    st.(isSummaryPanelOpen := !st.isSummaryPanelOpen,
        selectedVideoId := if st.isSummaryPanelOpen then None else st.selectedVideoId)
  }

  function SetStatusFilter(st: StoreState, f: StatusFilter): StoreState
  {
    st.(statusFilter := f)
  }

  function SetDurationFilter(st: StoreState, f: DurationFilter): StoreState
  {
    st.(durationFilter := f)
  }

  function SetDateFilter(st: StoreState, f: DateFilter): StoreState
  {
    st.(dateFilter := f)
  }

  /** The selection rules: only the dashboard drops the active category;
      the category view is entered exactly for a truthy id and the summary
      panel opened exactly for a truthy video id, so an empty id acts as
      null; and the data never changes. */
  lemma SelectionRules(st: StoreState, view: View, id: Option<string>)
    ensures SetActiveView(st, view).activeView == view
    ensures SetActiveView(st, view).activeCategoryId == None
            <==> view == DashboardView || st.activeCategoryId == None
    ensures view != DashboardView ==> SetActiveView(st, view).activeCategoryId == st.activeCategoryId
    ensures SetActiveCategoryId(st, id).activeCategoryId == id
    ensures SetActiveCategoryId(st, id).activeView == CategoryView <==> Truthy(id)
    ensures SetActiveCategoryId(st, Some("")).activeView == SetActiveCategoryId(st, None).activeView
    ensures SetSelectedVideoId(st, id).selectedVideoId == id
    ensures SetSelectedVideoId(st, id).isSummaryPanelOpen <==> Truthy(id)
    ensures !SetSelectedVideoId(st, Some("")).isSummaryPanelOpen
    ensures Partialize(SetActiveView(st, view)) == Partialize(st)
    ensures Partialize(SetActiveCategoryId(st, id)) == Partialize(st)
    ensures Partialize(SetSelectedVideoId(st, id)) == Partialize(st)
  {
  }

  /** Toggling the summary panel twice restores the flag but always loses
      the selection, since one of the two toggles is a close; toggling the
      add-channel modal twice changes nothing. */
  lemma ToggleSummaryPanelTwice(st: StoreState)
    ensures ToggleSummaryPanel(ToggleSummaryPanel(st)) == st.(selectedVideoId := None)
    ensures ToggleAddChannelModal(ToggleAddChannelModal(st)) == st
  {
  }

  // ---------------------------------------------------------------------
  // Category actions

  /** The id addCategory gives a category named `name` at time `now`:
      the lower-cased name with each whitespace run replaced by '-', then
      '-' and the decimal timestamp. */
  function CategoryIdFor(name: string, now: nat): string
  {
    CollapseSpaces(Lower(name)) + "-" + NatToString(now)
  }

  /** The generated id starts with the slug of the name, then '-', then
      digits that read back as the timestamp. */
  lemma CategoryIdShape(name: string, now: nat)
    ensures var id, slug, stamp := CategoryIdFor(name, now), CollapseSpaces(Lower(name)), NatToString(now);
      && |id| == |slug| + 1 + |stamp|
      && id[..|slug|] == slug
      && id[|slug|] == '-'
      && id[|slug| + 1..] == stamp
      && ParseDigits(id[|slug| + 1..]) == now
  {
    var slug, stamp := CollapseSpaces(Lower(name)), NatToString(now);
    var id := slug + "-" + stamp;
    assert id[..|slug|] == slug;
    assert id[|slug| + 1..] == stamp;
    ParseNatToString(now);
  }

  /** A name made of a whitespace-free word a, one run w of whitespace and a
      rest b gets the id lower(a) + '-' + the slug of b + '-' + the stamp. */
  lemma CategoryIdRun(a: string, w: string, b: string, now: nat)
    requires forall i :: 0 <= i < |a| ==> !IsSpace(a[i])
    requires w != [] && forall i :: 0 <= i < |w| ==> IsSpace(w[i])
    requires b == [] || !IsSpace(b[0])
    ensures CategoryIdFor(a + w + b, now)
            == Lower(a) + "-" + CollapseSpaces(Lower(b)) + "-" + NatToString(now)
  {
    assert Lower(a + w + b) == Lower(a) + Lower(w) + Lower(b);
    assert Lower(w) == w;
    CollapseRun(Lower(a), w, Lower(b));
  }

  /** The generated id contains no whitespace, whatever the name holds. */
  lemma CategoryIdHasNoSpaces(name: string, now: nat)
    ensures forall i :: 0 <= i < |CategoryIdFor(name, now)| ==> !IsSpace(CategoryIdFor(name, now)[i])
  {
    var slug, stamp := CollapseSpaces(Lower(name)), NatToString(now);
    var id := slug + "-" + stamp;
    forall i | 0 <= i < |id| ensures !IsSpace(id[i]) {
      if i < |slug| {
        assert id[i] == slug[i];
      } else if i > |slug| {
        assert id[i] == stamp[i - |slug| - 1];
        DigitIsNotSpace(stamp[i - |slug| - 1]);
      }
    }
  }

  function NewCategory(name: string, now: nat): Category
  {
    Category(CategoryIdFor(name, now), name, NewCategoryIcon, NewCategoryColor, true)
  }

  function AddCategory(st: StoreState, name: string, now: nat): StoreState
  {
    st.(categories := st.categories + [NewCategory(name, now)])
  }

  /** addCategory appends exactly one expanded 'Folder' category with the
      default colour at the end and keeps everything else. */
  lemma AddCategoryAppends(st: StoreState, name: string, now: nat)
    ensures var r := AddCategory(st, name, now);
      && |r.categories| == |st.categories| + 1
      && r.categories[..|st.categories|] == st.categories
      && r.categories[|st.categories|].name == name
      && r.categories[|st.categories|].id == CategoryIdFor(name, now)
      && r.categories[|st.categories|].icon == "Folder"
      && r.categories[|st.categories|].color == "#8b5cf6"
      && r.categories[|st.categories|].isExpanded
      && r == st.(categories := r.categories)
  {
  }

  /** categories.map(cat => cat.id === id ? { ...cat, ...updates } : cat) */
  function MergeCategoryWhere(categories: seq<Category>, id: string, updates: CategoryPatch): (r: seq<Category>)
    ensures |r| == |categories|
    ensures forall i :: 0 <= i < |r| && categories[i].id != id ==> r[i] == categories[i]
    ensures forall i :: 0 <= i < |r| && categories[i].id == id ==> r[i] == MergeCategory(categories[i], updates)
    ensures (forall c :: c in categories ==> c.id != id) ==> r == categories
    ensures updates == NoCategoryChanges ==> r == categories
  {
    Update(categories, (c: Category) => c.id == id, (c: Category) => MergeCategory(c, updates))
  }

  function UpdateCategory(st: StoreState, id: string, updates: CategoryPatch): StoreState
  {
    st.(categories := MergeCategoryWhere(st.categories, id, updates))
  }

  /** categories.filter(cat => cat.id !== id) */
  function CategoriesWithout(categories: seq<Category>, id: string): (r: seq<Category>)
    ensures IsSubseq(r, categories)
    ensures forall c :: c in r <==> c in categories && c.id != id
  {
    Filter(categories, (c: Category) => c.id != id)
  }

  /** channels.filter(ch => ch.categoryId !== categoryId) */
  function ChannelsOutside(channels: seq<Channel>, categoryId: string): (r: seq<Channel>)
    ensures IsSubseq(r, channels)
    ensures forall ch :: ch in r <==> ch in channels && ch.categoryId != categoryId
  {
    Filter(channels, (ch: Channel) => ch.categoryId != categoryId)
  }

  /** deleteCategory drops the category and its channels; the videos are
      left as they are. */
  function DeleteCategory(st: StoreState, id: string): StoreState
  {
    st.(categories := CategoriesWithout(st.categories, id), channels := ChannelsOutside(st.channels, id))
  }

  /** After deleteCategory no category has the id and no channel refers to
      it, the videos and settings are untouched, and every video of a
      removed channel is still there. */
  lemma DeleteCategoryEffect(st: StoreState, id: string)
    ensures var r := DeleteCategory(st, id);
      && (forall c :: c in r.categories ==> c.id != id)
      && (forall ch :: ch in r.channels ==> ch.categoryId != id)
      && r.videos == st.videos && r.settings == st.settings
      && r == st.(categories := r.categories, channels := r.channels)
  {
  }

  /** categories.map(cat => cat.id === id ? { ...cat, isExpanded: !cat.isExpanded } : cat) */
  function ToggleExpandedWhere(categories: seq<Category>, id: string): (r: seq<Category>)
    ensures |r| == |categories|
    ensures forall i :: 0 <= i < |r| ==>
              r[i] == categories[i].(isExpanded := if categories[i].id == id then !categories[i].isExpanded
                                                   else categories[i].isExpanded)
  {
    Update(categories, (c: Category) => c.id == id, (c: Category) => c.(isExpanded := !c.isExpanded))
  }

  function ToggleCategoryExpanded(st: StoreState, id: string): StoreState
  {
    st.(categories := ToggleExpandedWhere(st.categories, id))
  }

  /** Toggling the same category twice restores the list. */
  lemma ToggleTwice(categories: seq<Category>, id: string)
    ensures ToggleExpandedWhere(ToggleExpandedWhere(categories, id), id) == categories
  {
    var once := ToggleExpandedWhere(categories, id);
    var twice := ToggleExpandedWhere(once, id);
    assert forall i :: 0 <= i < |categories| ==> once[i].id == categories[i].id;
    assert forall i :: 0 <= i < |categories| ==> twice[i] == categories[i];
  }

  /** Toggling a category nobody has changes nothing. */
  lemma ToggleAbsent(categories: seq<Category>, id: string)
    requires forall c :: c in categories ==> c.id != id
    ensures ToggleExpandedWhere(categories, id) == categories
  {
    var r := ToggleExpandedWhere(categories, id);
    assert forall i :: 0 <= i < |categories| ==> categories[i] in categories && r[i] == categories[i];
  }

  // ---------------------------------------------------------------------
  // Channel actions

  /** The id addChannel gives a channel added at time `now`. */
  function ChannelIdFor(now: nat): string
  {
    "ch-" + NatToString(now)
  }

  /** { ...channel, id, videoCount: 0 } */
  function NewChannel(draft: ChannelDraft, now: nat): Channel
  {
    Channel(ChannelIdFor(now), draft.name, draft.avatar, draft.categoryId, draft.url, 0)
  }

  function AddChannel(st: StoreState, draft: ChannelDraft, now: nat): StoreState
  {
    st.(channels := st.channels + [NewChannel(draft, now)])
  }

  /** addChannel appends one channel at the end: it copies the draft's four
      fields, starts with videoCount 0, and its id is 'ch-' followed by a
      number that reads back as the timestamp. */
  lemma AddChannelAppends(st: StoreState, draft: ChannelDraft, now: nat)
    ensures var r := AddChannel(st, draft, now);
      && |r.channels| == |st.channels| + 1
      && r.channels[..|st.channels|] == st.channels
      && var ch := r.channels[|st.channels|];
      && ch.name == draft.name && ch.avatar == draft.avatar
      && ch.categoryId == draft.categoryId && ch.url == draft.url
      && ch.videoCount == 0
      && ch.id[..3] == "ch-" && ParseDigits(ch.id[3..]) == now
      && r == st.(channels := r.channels)
  {
    var id := ChannelIdFor(now);
    assert id[3..] == NatToString(now);
    ParseNatToString(now);
  }

  /** channels.map(ch => ch.id === channelId ? { ...ch, categoryId: newCategoryId } : ch) */
  function MoveChannelWhere(channels: seq<Channel>, channelId: string, newCategoryId: string): (r: seq<Channel>)
    ensures |r| == |channels|
    ensures forall i :: 0 <= i < |r| ==>
              r[i] == channels[i].(categoryId := if channels[i].id == channelId then newCategoryId
                                                 else channels[i].categoryId)
  {
    Update(channels, (ch: Channel) => ch.id == channelId, (ch: Channel) => ch.(categoryId := newCategoryId))
  }

  function MoveChannel(st: StoreState, channelId: string, newCategoryId: string): StoreState
  {
    st.(channels := MoveChannelWhere(st.channels, channelId, newCategoryId))
  }

  /** channels.filter(ch => ch.id !== id) */
  function ChannelsWithout(channels: seq<Channel>, id: string): (r: seq<Channel>)
    ensures IsSubseq(r, channels)
    ensures forall ch :: ch in r <==> ch in channels && ch.id != id
  {
    Filter(channels, (ch: Channel) => ch.id != id)
  }

  /** videos.filter(v => v.channelId !== channelId) */
  function VideosOutside(videos: seq<Video>, channelId: string): (r: seq<Video>)
    ensures IsSubseq(r, videos)
    ensures forall v :: v in r <==> v in videos && v.channelId != channelId
  {
    Filter(videos, (v: Video) => v.channelId != channelId)
  }

  /** removeChannel drops the channel and, in the same update, its videos. */
  function RemoveChannel(st: StoreState, id: string): StoreState
  {
    st.(channels := ChannelsWithout(st.channels, id), videos := VideosOutside(st.videos, id))
  }

  // ---------------------------------------------------------------------
  // Video and settings actions

  /** videos.map(v => v.id === videoId ? { ...v, status } : v) */
  function StatusWhere(videos: seq<Video>, videoId: string, status: VideoStatus): (r: seq<Video>)
    ensures |r| == |videos|
    ensures forall i :: 0 <= i < |r| ==> r[i].status == (if videos[i].id == videoId then status else videos[i].status)
    ensures forall i :: 0 <= i < |r| ==> r[i] == videos[i].(status := r[i].status)
    ensures (forall v :: v in videos ==> v.id != videoId) ==> r == videos
  {
    Update(videos, (v: Video) => v.id == videoId, (v: Video) => v.(status := status))
  }

  function UpdateVideoStatus(st: StoreState, videoId: string, status: VideoStatus): StoreState
  {
    st.(videos := StatusWhere(st.videos, videoId, status))
  }

  /** videos.map(v => v.id === videoId ? { ...v, summary, summaryGeneratedAt: stamp } : v),
      where stamp is the ISO text of the current time. */
  function SummaryWhere(videos: seq<Video>, videoId: string, summary: string, stamp: string): (r: seq<Video>)
    ensures |r| == |videos|
    ensures forall i :: 0 <= i < |r| && videos[i].id == videoId ==>
              r[i] == videos[i].(summary := Some(summary), summaryGeneratedAt := Some(stamp))
    ensures forall i :: 0 <= i < |r| && videos[i].id != videoId ==> r[i] == videos[i]
    ensures (forall v :: v in videos ==> v.id != videoId) ==> r == videos
  {
    Update(videos, (v: Video) => v.id == videoId,
           (v: Video) => v.(summary := Some(summary), summaryGeneratedAt := Some(stamp)))
  }

  function SetVideoSummary(st: StoreState, videoId: string, summary: string, stamp: string): StoreState
  {
    st.(videos := SummaryWhere(st.videos, videoId, summary, stamp))
  }

  /** A second summary for the same video replaces the first. */
  lemma SummaryOverwrites(videos: seq<Video>, videoId: string, first: string, t1: string, second: string, t2: string)
    ensures SummaryWhere(SummaryWhere(videos, videoId, first, t1), videoId, second, t2)
            == SummaryWhere(videos, videoId, second, t2)
  {
    var once := SummaryWhere(videos, videoId, first, t1);
    assert forall i :: 0 <= i < |videos| ==> once[i].id == videos[i].id;
  }

  function UpdateSettings(st: StoreState, updates: SettingsPatch): StoreState
  {
    st.(settings := MergeSettings(st.settings, updates))
  }

  // ---------------------------------------------------------------------
  // Derived queries

  /** The channel ch belongs to category c and carries video v. */
  predicate ChannelOfVideoIn(ch: Channel, v: Video, categoryId: string)
  {
    ch.categoryId == categoryId && ch.id == v.channelId
  }

  /** ch.categoryId === categoryId */
  function InCategory(categoryId: string): Channel -> bool
  {
    (ch: Channel) => ch.categoryId == categoryId
  }

  /** getChannelsByCategory: the category's channels, in store order. */
  function ChannelsByCategory(st: StoreState, categoryId: string): (r: seq<Channel>)
    ensures IsSubseq(r, st.channels)
    ensures forall ch :: ch in r <==> ch in st.channels && ch.categoryId == categoryId
  {
    Filter(st.channels, InCategory(categoryId))
  }

  /** categoryChannels.map(ch => ch.id) */
  function ChannelIds(channels: seq<Channel>): (ids: seq<string>)
    ensures |ids| == |channels|
    ensures forall x :: x in ids <==> exists ch :: ch in channels && ch.id == x
  {
    var ids := seq(|channels|, i requires 0 <= i < |channels| => channels[i].id);
    assert forall ch :: ch in channels ==> ch.id in ids by {
      forall ch | ch in channels ensures ch.id in ids {
        var i :| 0 <= i < |channels| && channels[i] == ch;
        assert ids[i] == ch.id;
      }
    }
    ids
  }

  /** v.channelId is one of ids. */
  function FromChannels(ids: seq<string>): Video -> bool
  {
    (v: Video) => v.channelId in ids
  }

  /** getVideosByCategory: the videos, in store order, whose channel is one
      of the category's channels. */
  function VideosByCategory(st: StoreState, categoryId: string): (r: seq<Video>)
    ensures IsSubseq(r, st.videos)
    ensures forall v :: v in r <==> v in st.videos && exists ch :: ch in st.channels && ChannelOfVideoIn(ch, v, categoryId)
  {
    Filter(st.videos, FromChannels(ChannelIds(ChannelsByCategory(st, categoryId))))
  }

  /** getNewVideosCount: how many of the category's videos are new. */
  function NewVideosCount(st: StoreState, categoryId: string): nat
  {
    |Filter(VideosByCategory(st, categoryId), IsNew)|
  }

  /** getTotalNewVideos: how many videos are new. */
  function TotalNewVideos(st: StoreState): nat
  {
    |Filter(st.videos, IsNew)|
  }

  /** No category has more new videos than the whole store, nor more new
      videos than videos. */
  lemma NewVideosCountBounded(st: StoreState, categoryId: string)
    ensures NewVideosCount(st, categoryId) <= TotalNewVideos(st)
    ensures NewVideosCount(st, categoryId) <= |VideosByCategory(st, categoryId)|
  {
    var inCategory := FromChannels(ChannelIds(ChannelsByCategory(st, categoryId)));
    var both := (v: Video) => inCategory(v) && IsNew(v);
    FilterFilter(st.videos, inCategory, IsNew, both);
    FilterMonotone(st.videos, both, IsNew);
  }

  /** v.channelId === channelId */
  function OnChannel(channelId: string): Video -> bool
  {
    (v: Video) => v.channelId == channelId
  }

  /** getVideosByChannel as the interface declares it and the channel view
      and sidebar use it: the channel's videos, in store order. The store
      object never defines it; this is the definition its callers expect. */
  function VideosByChannel(st: StoreState, channelId: string): (r: seq<Video>)
    ensures IsSubseq(r, st.videos)
    ensures forall v :: v in r <==> v in st.videos && v.channelId == channelId
  {
    Filter(st.videos, OnChannel(channelId))
  }

  /** getNewVideosCountByChannel as declared: how many of the channel's
      videos are new. Undefined in the store object, like VideosByChannel. */
  function NewVideosCountByChannel(st: StoreState, channelId: string): nat
  {
    |Filter(VideosByChannel(st, channelId), IsNew)|
  }

  /** A channel's videos are part of its category's list, in the same order,
      so a channel never has more new videos than its category. */
  lemma ChannelWithinCategory(st: StoreState, ch: Channel)
    requires ch in st.channels
    ensures IsSubseq(VideosByChannel(st, ch.id), VideosByCategory(st, ch.categoryId))
    ensures NewVideosCountByChannel(st, ch.id) <= NewVideosCount(st, ch.categoryId)
  {
    var ids := ChannelIds(ChannelsByCategory(st, ch.categoryId));
    assert ch.id in ids;
    var inCategory := FromChannels(ids);
    FilterMonotone(st.videos, OnChannel(ch.id), inCategory);
    var newOnChannel := (v: Video) => OnChannel(ch.id)(v) && IsNew(v);
    var newInCategory := (v: Video) => inCategory(v) && IsNew(v);
    FilterFilter(st.videos, OnChannel(ch.id), IsNew, newOnChannel);
    FilterFilter(st.videos, inCategory, IsNew, newInCategory);
    FilterMonotone(st.videos, newOnChannel, newInCategory);
  }

  // ---------------------------------------------------------------------
  // Referential integrity

  predicate HasCategory(categories: seq<Category>, id: string)
  {
    exists c :: c in categories && c.id == id
  }

  predicate HasChannel(channels: seq<Channel>, id: string)
  {
    exists ch :: ch in channels && ch.id == id
  }

  /** Every channel names an existing category. */
  predicate ChannelsHaveCategories(st: StoreState)
  {
    forall ch :: ch in st.channels ==> HasCategory(st.categories, ch.categoryId)
  }

  /** Every video names an existing channel. */
  predicate VideosHaveChannels(st: StoreState)
  {
    forall v :: v in st.videos ==> HasChannel(st.channels, v.channelId)
  }

  predicate Integrity(st: StoreState)
  {
    ChannelsHaveCategories(st) && VideosHaveChannels(st)
  }

  /** removeChannel keeps every remaining reference valid. */
  lemma RemoveChannelKeepsIntegrity(st: StoreState, id: string)
    requires Integrity(st)
    ensures Integrity(RemoveChannel(st, id))
  {
    var r := RemoveChannel(st, id);
    forall v | v in r.videos ensures HasChannel(r.channels, v.channelId) {
      var ch :| ch in st.channels && ch.id == v.channelId;
      assert ch in r.channels;
    }
  }

  /** deleteCategory leaves no channel without a category ... */
  lemma DeleteCategoryKeepsChannelsValid(st: StoreState, id: string)
    requires ChannelsHaveCategories(st)
    ensures ChannelsHaveCategories(DeleteCategory(st, id))
  {
    var r := DeleteCategory(st, id);
    forall ch | ch in r.channels ensures HasCategory(r.categories, ch.categoryId) {
      var c :| c in st.categories && c.id == ch.categoryId;
      assert c in r.categories;
    }
  }

  /** ... but it does not cascade to videos: a video whose channel lived
      only in the deleted category is left pointing at no channel. */
  lemma DeleteCategoryOrphansVideos(st: StoreState, id: string, v: Video)
    requires v in st.videos
    requires forall ch :: ch in st.channels && ch.id == v.channelId ==> ch.categoryId == id
    ensures v in DeleteCategory(st, id).videos
    ensures !HasChannel(DeleteCategory(st, id).channels, v.channelId)
    ensures !VideosHaveChannels(DeleteCategory(st, id))
  {
  }

  /** moveChannel keeps channels valid exactly when the target exists (or
      when no channel has the moved id, which makes it a no-op). */
  lemma MoveChannelIntegrity(st: StoreState, channelId: string, newCategoryId: string)
    requires ChannelsHaveCategories(st)
    requires HasChannel(st.channels, channelId)
    ensures ChannelsHaveCategories(MoveChannel(st, channelId, newCategoryId))
            <==> HasCategory(st.categories, newCategoryId)
  {
    var r := MoveChannel(st, channelId, newCategoryId);
    var ch :| ch in st.channels && ch.id == channelId;
    var i :| 0 <= i < |st.channels| && st.channels[i] == ch;
    assert r.channels[i].categoryId == newCategoryId && r.channels[i] in r.channels;
    if HasCategory(st.categories, newCategoryId) {
      forall c | c in r.channels ensures HasCategory(r.categories, c.categoryId) {
        var j :| 0 <= j < |r.channels| && r.channels[j] == c;
        assert st.channels[j] in st.channels;
      }
    }
  }

  /** addChannel keeps channels valid exactly when the draft's category exists. */
  lemma AddChannelIntegrity(st: StoreState, draft: ChannelDraft, now: nat)
    requires Integrity(st)
    ensures Integrity(AddChannel(st, draft, now)) <==> HasCategory(st.categories, draft.categoryId)
  {
    var r := AddChannel(st, draft, now);
    assert NewChannel(draft, now) in r.channels;
    forall v | v in r.videos ensures HasChannel(r.channels, v.channelId) {
      var ch :| ch in st.channels && ch.id == v.channelId;
      assert ch in r.channels;
    }
    forall ch | ch in st.channels ensures ch in r.channels {
    }
  }

  /** Two category lists with the same ids, position by position, have
      the same set of ids. */
  lemma SameCategoryIds(a: seq<Category>, b: seq<Category>)
    requires |a| == |b| && forall i :: 0 <= i < |a| ==> a[i].id == b[i].id
    ensures forall id :: HasCategory(a, id) <==> HasCategory(b, id)
  {
    forall id | HasCategory(a, id) ensures HasCategory(b, id) {
      var c :| c in a && c.id == id;
      var i :| 0 <= i < |a| && a[i] == c;
      assert b[i] in b;
    }
    forall id | HasCategory(b, id) ensures HasCategory(a, id) {
      var c :| c in b && c.id == id;
      var i :| 0 <= i < |b| && b[i] == c;
      assert a[i] in a;
    }
  }

  /** Two channel lists with the same ids, position by position, have the
      same set of ids. */
  lemma SameChannelIds(a: seq<Channel>, b: seq<Channel>)
    requires |a| == |b| && forall i :: 0 <= i < |a| ==> a[i].id == b[i].id
    ensures forall id :: HasChannel(a, id) <==> HasChannel(b, id)
  {
    forall id | HasChannel(a, id) ensures HasChannel(b, id) {
      var c :| c in a && c.id == id;
      var i :| 0 <= i < |a| && a[i] == c;
      assert b[i] in b;
    }
    forall id | HasChannel(b, id) ensures HasChannel(a, id) {
      var c :| c in b && c.id == id;
      var i :| 0 <= i < |b| && b[i] == c;
      assert a[i] in a;
    }
  }

  /** A video list rewritten without touching any channelId keeps every
      video in a channel. */
  lemma SameVideoChannels(st: StoreState, videos: seq<Video>)
    requires VideosHaveChannels(st)
    requires |videos| == |st.videos| && forall i :: 0 <= i < |videos| ==> videos[i].channelId == st.videos[i].channelId
    ensures VideosHaveChannels(st.(videos := videos))
  {
    forall v | v in videos ensures HasChannel(st.channels, v.channelId) {
      var i :| 0 <= i < |videos| && videos[i] == v;
      assert st.videos[i] in st.videos;
    }
  }

  lemma AddCategoryKeepsIntegrity(st: StoreState, name: string, now: nat)
    requires Integrity(st)
    ensures Integrity(AddCategory(st, name, now))
  {
    var r := AddCategory(st, name, now);
    forall ch | ch in r.channels ensures HasCategory(r.categories, ch.categoryId) {
      var c :| c in st.categories && c.id == ch.categoryId;
      assert c in r.categories;
    }
  }

  lemma UpdateCategoryKeepsIntegrity(st: StoreState, id: string, updates: CategoryPatch)
    requires Integrity(st) && updates.id.None?
    ensures Integrity(UpdateCategory(st, id, updates))
  {
    SameCategoryIds(st.categories, UpdateCategory(st, id, updates).categories);
  }

  lemma ToggleKeepsIntegrity(st: StoreState, id: string)
    requires Integrity(st)
    ensures Integrity(ToggleCategoryExpanded(st, id))
  {
    SameCategoryIds(st.categories, ToggleCategoryExpanded(st, id).categories);
  }

  /** deleteCategory keeps integrity when every video has a channel outside
      the deleted category. */
  lemma DeleteCategoryKeepsIntegrity(st: StoreState, id: string)
    requires Integrity(st)
    requires forall v :: v in st.videos ==> exists ch :: ch in st.channels && ch.id == v.channelId && ch.categoryId != id
    ensures Integrity(DeleteCategory(st, id))
  {
    DeleteCategoryKeepsChannelsValid(st, id);
    var r := DeleteCategory(st, id);
    forall v | v in r.videos ensures HasChannel(r.channels, v.channelId) {
      var ch :| ch in st.channels && ch.id == v.channelId && ch.categoryId != id;
      assert ch in r.channels;
    }
  }

  lemma MoveChannelKeepsIntegrity(st: StoreState, channelId: string, newCategoryId: string)
    requires Integrity(st) && HasCategory(st.categories, newCategoryId)
    ensures Integrity(MoveChannel(st, channelId, newCategoryId))
  {
    var r := MoveChannel(st, channelId, newCategoryId);
    SameChannelIds(st.channels, r.channels);
    forall c | c in r.channels ensures HasCategory(r.categories, c.categoryId) {
      var j :| 0 <= j < |r.channels| && r.channels[j] == c;
      assert st.channels[j] in st.channels;
    }
  }

  lemma StatusKeepsIntegrity(st: StoreState, videoId: string, status: VideoStatus)
    requires Integrity(st)
    ensures Integrity(UpdateVideoStatus(st, videoId, status))
  {
    SameVideoChannels(st, UpdateVideoStatus(st, videoId, status).videos);
  }

  lemma SummaryKeepsIntegrity(st: StoreState, videoId: string, summary: string, stamp: string)
    requires Integrity(st)
    ensures Integrity(SetVideoSummary(st, videoId, summary, stamp))
  {
    SameVideoChannels(st, SetVideoSummary(st, videoId, summary, stamp).videos);
  }

  /** A status change moves no video between categories: each category's
      list is the old list with the same status change applied. */
  lemma StatusKeepsCategoryLists(st: StoreState, videoId: string, status: VideoStatus, categoryId: string)
    ensures VideosByCategory(UpdateVideoStatus(st, videoId, status), categoryId)
            == StatusWhere(VideosByCategory(st, categoryId), videoId, status)
  {
    var ids := ChannelIds(ChannelsByCategory(st, categoryId));
    FilterUpdateCommute(st.videos, FromChannels(ids),
                        (v: Video) => v.id == videoId, (v: Video) => v.(status := status));
  }
}
