/** The records and enumerations of the content store: videos, channels,
    categories, settings, the view and filter selections, the partial
    records that updates merge in, and the list of members the store's
    interface declares. Timestamps are integer milliseconds since the epoch. */
module Types {
  import opened Wrappers
  import opened Text

  /** The four triage states of a video. */
  datatype VideoStatus = New | Watched | Pending | NotInterested

  datatype Video = Video(
    id: string,
    title: string,
    channelId: string,
    channelName: string,
    thumbnail: string,
    duration: string,
    durationSeconds: int,
    publishedAt: int,
    status: VideoStatus,
    hasTranscript: bool,
    summary: Option<string>,
    summaryGeneratedAt: Option<string>)

  datatype Channel = Channel(
    id: string,
    name: string,
    avatar: string,
    categoryId: string,
    url: string,
    videoCount: int)

  datatype Category = Category(
    id: string,
    name: string,
    icon: string,
    color: string,
    isExpanded: bool)

  datatype AppSettings = AppSettings(
    claudeApiKey: string,
    summaryPrompt: string,
    monthlyTokenLimit: int,
    tokensUsed: int)

  /** The main view the application shows. */
  datatype View = DashboardView | CategoryView | ChannelView | SettingsView

  /** A status selection, or all statuses. */
  datatype StatusFilter = AnyStatus | OnlyStatus(status: VideoStatus)

  datatype DurationFilter = AnyDuration | Short | Medium | Long

  datatype DateFilter = AnyDate | Today | Week | Month

  /** The argument of addChannel: a channel without id and videoCount. */
  datatype ChannelDraft = ChannelDraft(name: string, avatar: string, categoryId: string, url: string)

  /** Partial<Category>: each present field overrides the category's. */
  datatype CategoryPatch = CategoryPatch(
    id: Option<string>,
    name: Option<string>,
    icon: Option<string>,
    color: Option<string>,
    isExpanded: Option<bool>)

  /** Partial<AppSettings>: each present field overrides the settings'. */
  datatype SettingsPatch = SettingsPatch(
    claudeApiKey: Option<string>,
    summaryPrompt: Option<string>,
    monthlyTokenLimit: Option<int>,
    tokensUsed: Option<int>)

  const NoCategoryChanges := CategoryPatch(None, None, None, None, None)
  const NoSettingsChanges := SettingsPatch(None, None, None, None)

  function Override<T>(patch: Option<T>, current: T): T
  {
    if patch.Some? then patch.value else current
  }

  /** { ...cat, ...updates } */
  function MergeCategory(cat: Category, updates: CategoryPatch): (r: Category)
    ensures updates == NoCategoryChanges ==> r == cat
    ensures r.id == (if updates.id.Some? then updates.id.value else cat.id)
    ensures r.name == (if updates.name.Some? then updates.name.value else cat.name)
    ensures r.icon == (if updates.icon.Some? then updates.icon.value else cat.icon)
    ensures r.color == (if updates.color.Some? then updates.color.value else cat.color)
    ensures r.isExpanded == (if updates.isExpanded.Some? then updates.isExpanded.value else cat.isExpanded)
  {
    Category(
      Override(updates.id, cat.id),
      Override(updates.name, cat.name),
      Override(updates.icon, cat.icon),
      Override(updates.color, cat.color),
      Override(updates.isExpanded, cat.isExpanded))
  }

  /** { ...state.settings, ...updates } */
  function MergeSettings(settings: AppSettings, updates: SettingsPatch): (r: AppSettings)
    ensures updates == NoSettingsChanges ==> r == settings
    ensures r.tokensUsed == (if updates.tokensUsed.Some? then updates.tokensUsed.value else settings.tokensUsed)
    ensures r.claudeApiKey == (if updates.claudeApiKey.Some? then updates.claudeApiKey.value else settings.claudeApiKey)
    ensures r.summaryPrompt == (if updates.summaryPrompt.Some? then updates.summaryPrompt.value else settings.summaryPrompt)
    ensures r.monthlyTokenLimit == (if updates.monthlyTokenLimit.Some? then updates.monthlyTokenLimit.value else settings.monthlyTokenLimit)
  {
    AppSettings(
      Override(updates.claudeApiKey, settings.claudeApiKey),
      Override(updates.summaryPrompt, settings.summaryPrompt),
      Override(updates.monthlyTokenLimit, settings.monthlyTokenLimit),
      Override(updates.tokensUsed, settings.tokensUsed))
  }

  /** Merging a patch twice is merging it once. */
  lemma MergeSettingsIdempotent(settings: AppSettings, updates: SettingsPatch)
    ensures MergeSettings(MergeSettings(settings, updates), updates) == MergeSettings(settings, updates)
  {
  }

  /** JavaScript truthiness of a `string | null`: null and '' are falsy. */
  predicate Truthy(s: Option<string>)
  {
    s.Some? && s.value != ""
  }

  /** A video has a summary in the sense the views test it (video.summary). */
  predicate HasSummary(v: Video)
  {
    Truthy(v.summary)
  }

  predicate IsNew(v: Video)
  {
    v.status == New
  }
}

/** The members the store's interface (StoreState) declares, and which of
    them the store object actually provides. */
module Interface {

  datatype Member =
    | Categories | Channels | Videos | Settings
    | ActiveView | ActiveCategoryId | ActiveChannelId | SelectedVideoId
    | IsAddChannelModalOpen | IsSummaryPanelOpen
    | StatusFilter | DurationFilter | DateFilter
    | SetActiveView | SetActiveCategoryId | SetActiveChannelId | SetSelectedVideoId
    | ToggleAddChannelModal | ToggleSummaryPanel
    | AddCategory | UpdateCategory | DeleteCategory | ToggleCategoryExpanded
    | AddChannel | MoveChannel | RemoveChannel
    | UpdateVideoStatus | SetVideoSummary | UpdateSettings
    | SetStatusFilter | SetDurationFilter | SetDateFilter
    | GetVideosByCategory | GetVideosByChannel | GetChannelsByCategory
    | GetNewVideosCount | GetNewVideosCountByChannel | GetTotalNewVideos

  /** Whether the store object gives the member a value. The interface
      declares four members that the store never defines or initialises:
      reading activeChannelId gives undefined, and calling one of the other
      three raises a TypeError. */
  predicate DefinedByStore(m: Member)
  {
    m !in {ActiveChannelId, SetActiveChannelId, GetVideosByChannel, GetNewVideosCountByChannel}
  }

  /** The outcome of code that calls store members: a value, or the
      TypeError raised by calling a member the store leaves undefined. */
  datatype Call<T> = Returned(value: T) | NotAFunction(member: Member)
}
