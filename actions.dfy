/** The store's actions as data, one constructor per action the store
    defines, and what every sequence of them keeps true. */
module Actions {
  import opened Wrappers
  import opened Types
  import StoreModel

  type StoreState = StoreModel.StoreState

  datatype Action =
    | SetActiveView(view: View)
    | SetActiveCategoryId(categoryId: Option<string>)
    | SetSelectedVideoId(videoId: Option<string>)
    | ToggleAddChannelModal
    | ToggleSummaryPanel
    | AddCategory(name: string, now: nat)
    | UpdateCategory(id: string, updates: CategoryPatch)
    | DeleteCategory(id: string)
    | ToggleCategoryExpanded(id: string)
    | AddChannel(draft: ChannelDraft, now: nat)
    | MoveChannel(channelId: string, newCategoryId: string)
    | RemoveChannel(id: string)
    | UpdateVideoStatus(statusVideoId: string, status: VideoStatus)
    | SetVideoSummary(summarizedId: string, summary: string, stamp: string)
    | UpdateSettings(settingsUpdates: SettingsPatch)
    | SetStatusFilter(statusFilter: StatusFilter)
    | SetDurationFilter(durationFilter: DurationFilter)
    | SetDateFilter(dateFilter: DateFilter)

  /** The state after the store runs the action. */
  function Apply(st: StoreState, a: Action): StoreState
  {
    match a
    case SetActiveView(view) => StoreModel.SetActiveView(st, view)
    case SetActiveCategoryId(id) => StoreModel.SetActiveCategoryId(st, id)
    case SetSelectedVideoId(id) => StoreModel.SetSelectedVideoId(st, id)
    case ToggleAddChannelModal => StoreModel.ToggleAddChannelModal(st)
    case ToggleSummaryPanel => StoreModel.ToggleSummaryPanel(st)
    case AddCategory(name, now) => StoreModel.AddCategory(st, name, now)
    case UpdateCategory(id, updates) => StoreModel.UpdateCategory(st, id, updates)
    case DeleteCategory(id) => StoreModel.DeleteCategory(st, id)
    case ToggleCategoryExpanded(id) => StoreModel.ToggleCategoryExpanded(st, id)
    case AddChannel(draft, now) => StoreModel.AddChannel(st, draft, now)
    case MoveChannel(channelId, newCategoryId) => StoreModel.MoveChannel(st, channelId, newCategoryId)
    case RemoveChannel(id) => StoreModel.RemoveChannel(st, id)
    case UpdateVideoStatus(videoId, status) => StoreModel.UpdateVideoStatus(st, videoId, status)
    case SetVideoSummary(videoId, summary, stamp) => StoreModel.SetVideoSummary(st, videoId, summary, stamp)
    case UpdateSettings(updates) => StoreModel.UpdateSettings(st, updates)
    case SetStatusFilter(f) => StoreModel.SetStatusFilter(st, f)
    case SetDurationFilter(f) => StoreModel.SetDurationFilter(st, f)
    case SetDateFilter(f) => StoreModel.SetDateFilter(st, f)
  }

  /** The state after the actions, first to last. */
  function ApplyAll(st: StoreState, actions: seq<Action>): StoreState
    decreases |actions|
  {
    if actions == [] then st else ApplyAll(Apply(st, actions[0]), actions[1..])
  }

  /** The actions that change only view, selection, panels and filters. */
  predicate IsUiAction(a: Action)
  {
    a.SetActiveView? || a.SetActiveCategoryId? || a.SetSelectedVideoId? || a.ToggleAddChannelModal?
    || a.ToggleSummaryPanel? || a.SetStatusFilter? || a.SetDurationFilter? || a.SetDateFilter?
  }

  /** The two states agree on everything that is not persisted. */
  predicate SameUi(s: StoreState, t: StoreState)
  {
    s.activeView == t.activeView && s.activeCategoryId == t.activeCategoryId
    && s.selectedVideoId == t.selectedVideoId && s.isAddChannelModalOpen == t.isAddChannelModalOpen
    && s.isSummaryPanelOpen == t.isSummaryPanelOpen && s.statusFilter == t.statusFilter
    && s.durationFilter == t.durationFilter && s.dateFilter == t.dateFilter
  }

  /** UI actions never touch the persisted data; every other action leaves
      the view, selection, panels and filters alone. */
  lemma ActionFootprint(st: StoreState, a: Action)
    ensures IsUiAction(a) ==> StoreModel.Partialize(Apply(st, a)) == StoreModel.Partialize(st)
    ensures !IsUiAction(a) ==> SameUi(Apply(st, a), st)
  {
  }

  /** The dashboard is never shown with a category selected, and a closed
      summary panel never holds a selected video. */
  predicate UiInvariant(st: StoreState)
  {
    (st.activeView == DashboardView ==> !Truthy(st.activeCategoryId))
    && (!st.isSummaryPanelOpen ==> !Truthy(st.selectedVideoId))
  }

  lemma InitialUiInvariant(snap: StoreModel.Snapshot)
    ensures UiInvariant(StoreModel.Restore(snap))
  {
  }

  /** Every action keeps the UI invariant. */
  lemma ApplyKeepsUiInvariant(st: StoreState, a: Action)
    requires UiInvariant(st)
    ensures UiInvariant(Apply(st, a))
  {
  }

  /** Every state the store reaches from a restored snapshot satisfies the
      UI invariant. */
  lemma {:induction false} ReachableUiInvariant(st: StoreState, actions: seq<Action>)
    requires UiInvariant(st)
    ensures UiInvariant(ApplyAll(st, actions))
    decreases |actions|
  {
    if actions != [] {
      ApplyKeepsUiInvariant(st, actions[0]);
      ReachableUiInvariant(Apply(st, actions[0]), actions[1..]);
    }
  }

  /** The category view can be selected with no category: setActiveView
      does not require one, and the view is then shown with no category. */
  lemma CategoryViewWithoutCategory(snap: StoreModel.Snapshot)
    ensures var st := Apply(StoreModel.Restore(snap), SetActiveView(CategoryView));
      st.activeView == CategoryView && !Truthy(st.activeCategoryId) && UiInvariant(st)
  {
  }

  /** Actions after which referential integrity is sure to hold again:
      a channel may only be added to or moved into an existing category, a
      category keeps its id, and a category may only be deleted when each
      video still has a channel outside it. */
  predicate KeepsReferences(st: StoreState, a: Action)
  {
    match a
    case AddChannel(draft, _) => StoreModel.HasCategory(st.categories, draft.categoryId)
    case MoveChannel(_, newCategoryId) => StoreModel.HasCategory(st.categories, newCategoryId)
    case UpdateCategory(_, updates) => updates.id.None?
    case DeleteCategory(id) =>
      forall v :: v in st.videos ==> exists ch :: ch in st.channels && ch.id == v.channelId && ch.categoryId != id
    case _ => true
  }

  /** Under those conditions every action keeps every channel in a
      category and every video in a channel. */
  lemma ApplyKeepsIntegrity(st: StoreState, a: Action)
    requires StoreModel.Integrity(st)
    requires KeepsReferences(st, a)
    ensures StoreModel.Integrity(Apply(st, a))
  {
    match a
    case AddCategory(name, now) => StoreModel.AddCategoryKeepsIntegrity(st, name, now);
    case UpdateCategory(id, updates) => StoreModel.UpdateCategoryKeepsIntegrity(st, id, updates);
    case DeleteCategory(id) => StoreModel.DeleteCategoryKeepsIntegrity(st, id);
    case ToggleCategoryExpanded(id) => StoreModel.ToggleKeepsIntegrity(st, id);
    case AddChannel(draft, now) => StoreModel.AddChannelIntegrity(st, draft, now);
    case MoveChannel(channelId, newCategoryId) => StoreModel.MoveChannelKeepsIntegrity(st, channelId, newCategoryId);
    case RemoveChannel(id) => StoreModel.RemoveChannelKeepsIntegrity(st, id);
    case UpdateVideoStatus(videoId, status) => StoreModel.StatusKeepsIntegrity(st, videoId, status);
    case SetVideoSummary(videoId, summary, stamp) => StoreModel.SummaryKeepsIntegrity(st, videoId, summary, stamp);
    case _ =>
  }
}
