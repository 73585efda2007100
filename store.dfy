/** The store object: the twelve fields the store keeps, and one method per
    action that updates them in place. Each method leaves the store in the
    state the matching StoreModel step function gives; the facts about the
    steps are proved there and in Actions. */
module Store {
  import opened Wrappers
  import opened Seqs
  import opened Types
  import StoreModel
  import MockData

  class Store {
    var categories: seq<Category>
    var channels: seq<Channel>
    var videos: seq<Video>
    var settings: AppSettings
    var activeView: View
    var activeCategoryId: Option<string>
    var selectedVideoId: Option<string>
    var isAddChannelModalOpen: bool
    var isSummaryPanelOpen: bool
    var statusFilter: StatusFilter
    var durationFilter: DurationFilter
    var dateFilter: DateFilter

    /** The store's fields as one value. */
    function State(): StoreModel.StoreState
      reads this
    {
      StoreModel.StoreState(categories, channels, videos, settings, activeView, activeCategoryId,
        selectedVideoId, isAddChannelModalOpen, isSummaryPanelOpen, statusFilter, durationFilter, dateFilter)
    }

    /** The store as the application creates it: the data storage holds if
        there is any, the seed data otherwise, and the initial UI state. */
    constructor (persisted: Option<StoreModel.Snapshot>)
      ensures State() == StoreModel.Restore(if persisted.Some? then persisted.value else MockData.Seed)
    {
      var snap := if persisted.Some? then persisted.value else MockData.Seed;
      categories := snap.categories;
      channels := snap.channels;
      videos := snap.videos;
      settings := snap.settings;
      activeView := DashboardView;
      activeCategoryId := None;
      selectedVideoId := None;
      isAddChannelModalOpen := false;
      isSummaryPanelOpen := false;
      statusFilter := AnyStatus;
      durationFilter := AnyDuration;
      dateFilter := AnyDate;
    }

    // UI actions

    method SetActiveView(view: View)
      modifies this
      ensures State() == StoreModel.SetActiveView(old(State()), view)
    {
      activeView := view;
      if view == DashboardView {
        activeCategoryId := None;
      }
    }

    method SetActiveCategoryId(id: Option<string>)
      modifies this
      ensures State() == StoreModel.SetActiveCategoryId(old(State()), id)
    {
      activeCategoryId := id;
      activeView := if Truthy(id) then CategoryView else DashboardView;
    }

    method SetSelectedVideoId(id: Option<string>)
      modifies this
      ensures State() == StoreModel.SetSelectedVideoId(old(State()), id)
    {
      selectedVideoId := id;
      isSummaryPanelOpen := Truthy(id);
    }

    method ToggleAddChannelModal()
      modifies this
      ensures State() == StoreModel.ToggleAddChannelModal(old(State()))
    {
      isAddChannelModalOpen := !isAddChannelModalOpen;
    }

    method ToggleSummaryPanel()
      modifies this
      ensures State() == StoreModel.ToggleSummaryPanel(old(State()))
    {
      if isSummaryPanelOpen {
        selectedVideoId := None;
      }
      isSummaryPanelOpen := !isSummaryPanelOpen;
    }

    // Category actions

    method AddCategory(name: string, now: nat)
      modifies this
      ensures State() == StoreModel.AddCategory(old(State()), name, now)
    {
      categories := categories + [StoreModel.NewCategory(name, now)];
    }

    method UpdateCategory(id: string, updates: CategoryPatch)
      modifies this
      ensures State() == StoreModel.UpdateCategory(old(State()), id, updates)
    {
      categories := StoreModel.MergeCategoryWhere(categories, id, updates);
    }

    method DeleteCategory(id: string)
      modifies this
      ensures State() == StoreModel.DeleteCategory(old(State()), id)
    {
      categories, channels := StoreModel.CategoriesWithout(categories, id), StoreModel.ChannelsOutside(channels, id);
    }

    method ToggleCategoryExpanded(id: string)
      modifies this
      ensures State() == StoreModel.ToggleCategoryExpanded(old(State()), id)
    {
      categories := StoreModel.ToggleExpandedWhere(categories, id);
    }

    // Channel actions

    method AddChannel(draft: ChannelDraft, now: nat)
      modifies this
      ensures State() == StoreModel.AddChannel(old(State()), draft, now)
    {
      channels := channels + [StoreModel.NewChannel(draft, now)];
    }

    method MoveChannel(channelId: string, newCategoryId: string)
      modifies this
      ensures State() == StoreModel.MoveChannel(old(State()), channelId, newCategoryId)
    {
      channels := StoreModel.MoveChannelWhere(channels, channelId, newCategoryId);
    }

    method RemoveChannel(id: string)
      modifies this
      ensures State() == StoreModel.RemoveChannel(old(State()), id)
    {
      channels, videos := StoreModel.ChannelsWithout(channels, id), StoreModel.VideosOutside(videos, id);
    }

    // Video and settings actions

    method UpdateVideoStatus(videoId: string, status: VideoStatus)
      modifies this
      ensures State() == StoreModel.UpdateVideoStatus(old(State()), videoId, status)
    {
      videos := StoreModel.StatusWhere(videos, videoId, status);
    }

    /** setVideoSummary, with `stamp` the ISO text of the current time. */
    method SetVideoSummary(videoId: string, summary: string, stamp: string)
      modifies this
      ensures State() == StoreModel.SetVideoSummary(old(State()), videoId, summary, stamp)
    {
      videos := StoreModel.SummaryWhere(videos, videoId, summary, stamp);
    }

    method UpdateSettings(updates: SettingsPatch)
      modifies this
      ensures State() == StoreModel.UpdateSettings(old(State()), updates)
    {
      settings := MergeSettings(settings, updates);
    }

    // Filter actions

    method SetStatusFilter(filter: StatusFilter)
      modifies this
      ensures State() == StoreModel.SetStatusFilter(old(State()), filter)
    {
      statusFilter := filter;
    }

    method SetDurationFilter(filter: DurationFilter)
      modifies this
      ensures State() == StoreModel.SetDurationFilter(old(State()), filter)
    {
      durationFilter := filter;
    }

    method SetDateFilter(filter: DateFilter)
      modifies this
      ensures State() == StoreModel.SetDateFilter(old(State()), filter)
    {
      dateFilter := filter;
    }
  }
}
