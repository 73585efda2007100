# ContentHub store, modelled in Dafny

ContentHub is a small React application for following YouTube channels.
Channels are grouped in categories. Each video of a channel is triaged as
new, watched, pending or not interested, and can receive a generated
markdown summary. The application's state lives in one zustand store
(`src/store/useStore.ts`). The store holds:

- the data: categories, channels, videos and settings;
- the UI selection: active view, active category, selected video, modal and
  panel flags, and three list filters.

Every action of the store is a small total transformation of that state.
Three getters derive per-category lists and counts. The persisted snapshot
projects the four data fields. Around the store, the components hold small
rules: the three-way video filter, the view routing, the sidebar click rule,
the dashboard counters, the add-channel address check, the summary file
name, the settings save guard and the relative date label.

This project models all of that:

- **Types** (`types.dfy`): the records and enumerations, the partial update
  records, and the list of interface members with the ones the store never
  defines.
- **StoreModel** (`store_model.dfy`): the store state as a value, one step
  function per action, the getters, the snapshot, and the
  referential-integrity invariant with a lemma per action.
- **Store** (`store.dfy`): a class with the store's twelve fields. Each
  method updates them in place, exactly as its step function says.
- **Actions** (`actions.dfy`): all actions as one datatype. It proves
  facts over every action and every action sequence.
- **MockData** (`mock_data.dfy`): the seed data, with its integrity and
  count facts proved.
- **Components**: one module per component (`video_filters.dfy`,
  `category_view.dfy`, `channel_view.dfy`, `dashboard.dfy`, `sidebar.dfy`,
  `add_channel_modal.dfy`, `summary_panel.dfy`, `settings_view.dfy`,
  `video_card.dfy`, `index_page.dfy`).
  - Pure rendering rules are functions.
  - Components with local state are classes: `AddChannelModal.Modal`,
    `SummaryPanel.Panel` and `SettingsPage.Form`.
  - An async handler is split at its `await` into a Begin and a Complete
    method. The values the handler's closure captured are returned by Begin
    and passed to Complete. So the model shows what the code does when the
    store changes during the wait (e.g. `SummaryPanel.StaleTokenCount`).
- **Seqs and Text** (`seqs.dfy`, `text.dfy`): order-preserving filters and
  lookups, JavaScript `trim`, whitespace runs, ASCII lower-casing, decimal
  printing and `parseInt`.

Modelling choices:

- Time is an integer number of milliseconds passed in by the caller.
- `summaryGeneratedAt` stamps are opaque strings.
- JavaScript truthiness of an optional id is `Types.Truthy`. It is false for
  a missing id and for the empty string.
- Code that calls a store member the store never defines ends in
  `Interface.Call.NotAFunction`. That is the `TypeError` the browser raises.

`deleteCategory` (`src/store/useStore.ts:55-60`) removes the category and
its channels, but leaves their videos in place as orphans. The model states
this: `StoreModel.DeleteCategoryEffect`
and `StoreModel.DeleteCategoryOrphansVideos`. In contrast, `removeChannel`
does remove the channel's videos.

## Model

| member | source | states |
|---|---|---|
| Types.MergeCategory | src/types/index.ts:72 | a `Partial<Category>` overrides exactly the fields it holds; the empty patch changes nothing |
| Types.MergeSettings | src/types/index.ts:86 | a `Partial<AppSettings>` overrides exactly the fields it holds; the empty patch changes nothing |
| Types.MergeSettingsIdempotent | src/store/useStore.ts:116-120 | merging the same settings patch twice is the same as once |
| StoreModel.PartializeIgnoresUi | src/store/useStore.ts:150-155 | the persisted snapshot does not depend on view, selection, flags or filters |
| StoreModel.PartializeRestore | src/store/useStore.ts:8-25 | restoring a snapshot and saving it gives it back; saving and restoring keeps the data and resets the UI state to its initial values |
| StoreModel.SelectionRules | src/store/useStore.ts:28-30 | only the dashboard drops the active category; the category view is entered iff the id is truthy; the panel opens iff the video id is truthy; an empty id acts as null; no data changes |
| StoreModel.ToggleSummaryPanelTwice | src/store/useStore.ts:31-32 | toggling the summary panel twice restores the flag but always loses the selected video; the add-channel modal toggle is an involution |
| StoreModel.CategoryIdShape | src/store/useStore.ts:35 | the new category id is the slug of the name, then `-`, then decimal digits that read back as the timestamp |
| StoreModel.CategoryIdRun | src/store/useStore.ts:35 | a name of a word, a whitespace run and a rest gets the id lower(word) + `-` + slug of the rest + `-` + the timestamp |
| StoreModel.CategoryIdHasNoSpaces | src/store/useStore.ts:35 | the new category id contains no whitespace |
| StoreModel.AddCategoryAppends | src/store/useStore.ts:35-45 | exactly one category is appended, with the name, generated id, icon `Folder`, colour `#8b5cf6`, expanded; nothing else changes |
| StoreModel.MergeCategoryWhere | src/store/useStore.ts:47-53 | length kept; only categories with the id are merged with the patch; an absent id or empty patch is a no-op |
| StoreModel.CategoriesWithout | src/store/useStore.ts:57 | order-preserving subsequence holding exactly the categories with another id |
| StoreModel.ChannelsOutside | src/store/useStore.ts:58 | order-preserving subsequence holding exactly the channels of other categories |
| StoreModel.DeleteCategoryEffect | src/store/useStore.ts:55-60 | no category with the id and no channel in it remain; videos and settings are unchanged |
| StoreModel.ToggleExpandedWhere | src/store/useStore.ts:62-68 | length kept; exactly the categories with the id have `isExpanded` flipped |
| StoreModel.ToggleTwice | src/store/useStore.ts:62-68 | toggling the same id twice restores the categories |
| StoreModel.ToggleAbsent | src/store/useStore.ts:62-68 | toggling an absent id changes nothing |
| StoreModel.AddChannelAppends | src/store/useStore.ts:71-79 | one channel appended, with the draft's fields, `videoCount` 0 and id `ch-` followed by the timestamp; nothing else changes |
| StoreModel.MoveChannelWhere | src/store/useStore.ts:81-87 | length kept; exactly the channels with the id get the new category, which is not checked to exist |
| StoreModel.ChannelsWithout | src/store/useStore.ts:91 | order-preserving subsequence of the channels with another id |
| StoreModel.VideosOutside | src/store/useStore.ts:92 | order-preserving subsequence of the videos of other channels |
| StoreModel.StatusWhere | src/store/useStore.ts:97-103 | length and order kept; only the status of matching videos changes; an absent id is a no-op |
| StoreModel.SummaryWhere | src/store/useStore.ts:105-113 | matching videos get the summary and the stamp, every other video is unchanged; an absent id is a no-op |
| StoreModel.SummaryOverwrites | src/store/useStore.ts:105-113 | a second summary for the same video replaces the first |
| StoreModel.ChannelsByCategory | src/store/useStore.ts:135-137 | order-preserving subsequence holding exactly the channels of the category |
| StoreModel.ChannelIds | src/store/useStore.ts:131 | one id per channel, and exactly the ids of the channels |
| StoreModel.VideosByCategory | src/store/useStore.ts:128-133 | order-preserving subsequence holding exactly the videos whose channel is in the category |
| StoreModel.NewVideosCountBounded | src/store/useStore.ts:139-146 | a category's new count is at most the total new count and at most its video count |
| StoreModel.VideosByChannel | src/types/index.ts:95 | the intended `getVideosByChannel`: order-preserving subsequence of the channel's videos |
| StoreModel.ChannelWithinCategory | src/types/index.ts:98 | a channel's videos are a subsequence of its category's videos, and its new count is at most the category's |
| StoreModel.RemoveChannelKeepsIntegrity | src/store/useStore.ts:89-94 | removing a channel together with its videos keeps referential integrity |
| StoreModel.DeleteCategoryKeepsChannelsValid | src/store/useStore.ts:55-60 | after deleting a category, every channel still names an existing category |
| StoreModel.DeleteCategoryOrphansVideos | src/store/useStore.ts:55-60 | a video of a deleted category's channel stays in the store with no channel, so integrity is lost |
| StoreModel.MoveChannelIntegrity | src/store/useStore.ts:81-87 | after moving an existing channel, channels name categories iff the target category exists |
| StoreModel.AddChannelIntegrity | src/store/useStore.ts:71-79 | adding a channel keeps integrity iff its category exists |
| StoreModel.SameCategoryIds | src/store/useStore.ts:49-51 | category lists with the same ids position by position name the same categories |
| StoreModel.SameChannelIds | src/store/useStore.ts:83-85 | channel lists with the same ids position by position name the same channels |
| StoreModel.SameVideoChannels | src/store/useStore.ts:99-101 | videos that keep their channel ids keep every video's channel |
| StoreModel.AddCategoryKeepsIntegrity | src/store/useStore.ts:35-45 | adding a category keeps referential integrity |
| StoreModel.UpdateCategoryKeepsIntegrity | src/store/useStore.ts:47-53 | an update that does not change ids keeps referential integrity |
| StoreModel.ToggleKeepsIntegrity | src/store/useStore.ts:62-68 | toggling keeps referential integrity |
| StoreModel.DeleteCategoryKeepsIntegrity | src/store/useStore.ts:55-60 | deleting a category keeps integrity when every video has a channel outside it |
| StoreModel.MoveChannelKeepsIntegrity | src/store/useStore.ts:81-87 | moving a channel into an existing category keeps integrity |
| StoreModel.StatusKeepsIntegrity | src/store/useStore.ts:97-103 | a status change keeps referential integrity |
| StoreModel.SummaryKeepsIntegrity | src/store/useStore.ts:105-113 | storing a summary keeps referential integrity |
| StoreModel.StatusKeepsCategoryLists | src/store/useStore.ts:128-133 | after a status change each category lists the same videos, with that status changed |
| Store.Store.constructor | src/store/useStore.ts:8-25 | the store starts with the persisted data, or the seed data, and the initial UI state |
| Store.Store.SetActiveView | src/store/useStore.ts:28 | the new state is `StoreModel.SetActiveView` of the old one |
| Store.Store.SetActiveCategoryId | src/store/useStore.ts:29 | the new state is `StoreModel.SetActiveCategoryId` of the old one |
| Store.Store.SetSelectedVideoId | src/store/useStore.ts:30 | the new state is `StoreModel.SetSelectedVideoId` of the old one |
| Store.Store.ToggleAddChannelModal | src/store/useStore.ts:31 | only the modal flag flips |
| Store.Store.ToggleSummaryPanel | src/store/useStore.ts:32 | the new state is `StoreModel.ToggleSummaryPanel` of the old one |
| Store.Store.AddCategory | src/store/useStore.ts:35-45 | the new state is `StoreModel.AddCategory` of the old one |
| Store.Store.UpdateCategory | src/store/useStore.ts:47-53 | the new state is `StoreModel.UpdateCategory` of the old one |
| Store.Store.DeleteCategory | src/store/useStore.ts:55-60 | the new state is `StoreModel.DeleteCategory` of the old one |
| Store.Store.ToggleCategoryExpanded | src/store/useStore.ts:62-68 | the new state is `StoreModel.ToggleCategoryExpanded` of the old one |
| Store.Store.AddChannel | src/store/useStore.ts:71-79 | the new state is `StoreModel.AddChannel` of the old one |
| Store.Store.MoveChannel | src/store/useStore.ts:81-87 | the new state is `StoreModel.MoveChannel` of the old one |
| Store.Store.RemoveChannel | src/store/useStore.ts:89-94 | the new state is `StoreModel.RemoveChannel` of the old one |
| Store.Store.UpdateVideoStatus | src/store/useStore.ts:97-103 | the new state is `StoreModel.UpdateVideoStatus` of the old one |
| Store.Store.SetVideoSummary | src/store/useStore.ts:105-113 | the new state is `StoreModel.SetVideoSummary` of the old one |
| Store.Store.UpdateSettings | src/store/useStore.ts:116-120 | the new state is `StoreModel.UpdateSettings` of the old one |
| Store.Store.SetStatusFilter | src/store/useStore.ts:123 | only the status filter changes |
| Store.Store.SetDurationFilter | src/store/useStore.ts:124 | only the duration filter changes |
| Store.Store.SetDateFilter | src/store/useStore.ts:125 | only the date filter changes |
| Actions.ActionFootprint | src/store/useStore.ts:27-125 | UI actions never change the persisted data; data actions never change view, selection, flags or filters |
| Actions.InitialUiInvariant | src/store/useStore.ts:16-20 | the initial state shows no category on the dashboard and holds no selection in a closed panel |
| Actions.ApplyKeepsUiInvariant | src/store/useStore.ts:28-32 | every action keeps that UI invariant |
| Actions.ReachableUiInvariant | src/store/useStore.ts:27-125 | every sequence of actions keeps the UI invariant |
| Actions.CategoryViewWithoutCategory | src/store/useStore.ts:28 | `setActiveView('category')` selects the category view with no category |
| Actions.ApplyKeepsIntegrity | src/store/useStore.ts:35-113 | every action that adds or moves channels only into existing categories, keeps category ids and deletes categories without orphaning videos keeps referential integrity |
| MockData.SeedCategoryAndChannelIdsDistinct | src/data/mockData.ts:3-20 | the four category ids and the six channel ids are pairwise distinct |
| MockData.SeedVideoTotal | src/data/mockData.ts:22-63 | there are 29 seed videos |
| MockData.SeedVideoIdsDistinct | src/data/mockData.ts:22-63 | the seed video ids are pairwise distinct |
| MockData.SeedDurations | src/data/mockData.ts:22-63 | each seed video's `duration` clock string denotes exactly its `durationSeconds` |
| MockData.SeedVideosHaveChannels | src/data/mockData.ts:10-63 | every seed video names a seed channel |
| MockData.SeedVideosNamed | src/data/mockData.ts:10-63 | every seed video's `channelName` is its channel's name |
| MockData.SeedIntegrity | src/data/mockData.ts:3-63 | the seed state has referential integrity, and channel names agree |
| MockData.SeedSummaries | src/data/mockData.ts:32-38 | every seed summary has a stamp; v7 and v11 have summaries |
| MockData.SeedVideoCounts | src/data/mockData.ts:10-63 | each seed channel's `videoCount` equals the number of its videos |
| MockData.SeedTokensWithinLimit | src/data/mockData.ts:78-79 | the tokens used are within the monthly limit |
| MockData.DevopsNewCount | src/data/mockData.ts:24-32 | `getNewVideosCount('devops')` on the seed is 4 |
| MockData.SeedTotalNew | src/data/mockData.ts:22-63 | `getTotalNewVideos()` on the seed is 13 |
| MockData.SeedNewCounts | src/data/mockData.ts:3-63 | the four categories' new counts on the seed add up to the total new count, since every seed video's channel is in exactly one category |
| VideoFilters.SkippedStatus | src/components/CategoryView.tsx:27-29 | the status filter on `all` keeps every video |
| VideoFilters.SkippedDuration | src/components/CategoryView.tsx:31-37 | the duration filter on `all` keeps every video |
| VideoFilters.SkippedDate | src/components/CategoryView.tsx:39-48 | the date filter on `all` keeps every video |
| VideoFilters.ChainIsConjunction | src/components/CategoryView.tsx:27-48 | the three successive filters equal one filter by the conjunction of the three predicates |
| VideoFilters.ChainMembers | src/components/CategoryView.tsx:27-48 | the result is an order-preserving subsequence holding exactly the videos passing all three filters |
| VideoFilters.AllFiltersOff | src/components/CategoryView.tsx:27-48 | with all three filters on `all` the list is unchanged |
| VideoFilters.DurationBucketsPartition | src/components/CategoryView.tsx:33-35 | every duration lies in exactly one of short, medium and long |
| VideoFilters.DateBucketsNested | src/components/CategoryView.tsx:44-46 | today implies this week implies this month |
| VideoFilters.DateBoundsStrict | src/components/CategoryView.tsx:44-46 | exactly 7 days old is outside the week; exactly 1 day old is outside today |
| CategoryViewPage.ActiveCategory | src/components/CategoryView.tsx:21 | the first category whose id equals the active id, present iff one exists |
| CategoryViewPage.RenderSpec | src/components/CategoryView.tsx:21-48 | a page iff the active id names a category; it lists exactly the category's videos passing the filters, in store order; the empty notice shows iff the list is empty |
| CategoryViewPage.NothingWithoutSelection | src/components/CategoryView.tsx:22 | no active category id, no page |
| CategoryViewPage.StatusChangeHidesCard | src/components/CategoryView.tsx:27-29 | under a status filter, a video marked with another status leaves the page |
| CategoryViewPage.MarkedVideosHaveStatus | src/store/useStore.ts:97-103 | after a status change every video with that id has the new status |
| CategoryViewPage.FilterChoiceKeepsPage | src/store/useStore.ts:123-125 | changing filters keeps the view and the category shown |
| ChannelViewPage.ActiveChannel | src/components/ChannelView.tsx:23 | the channel whose id equals the active channel id, present iff one exists |
| ChannelViewPage.NeverShownOnStore | src/components/ChannelView.tsx:23-26 | with the store's never-set active channel id, the channel view renders nothing |
| ChannelViewPage.FailsWhenChannelFound | src/components/ChannelView.tsx:28 | whenever a channel is found, calling the undefined `getVideosByChannel` fails |
| ChannelViewPage.RenderIntendedSpec | src/components/ChannelView.tsx:23-52 | with `getVideosByChannel` defined: a page iff a channel has the id, listing exactly its videos passing the filters in order, a back link iff the active category exists, the empty notice iff no videos |
| ChannelViewPage.IntendedWithinCategoryPage | src/components/ChannelView.tsx:28-52 | a channel page of the active category lists a subsequence of that category's page |
| ChannelViewPage.BackSpec | src/components/ChannelView.tsx:84-86 | the back button keeps the active category, shows the category view iff its id is non-empty, and changes no data |
| Dashboard.StatsSpec | src/components/Dashboard.tsx:9-11 | the new counter is `getTotalNewVideos`; new plus pending and the summary count are at most the number of videos |
| Dashboard.PreviewSpec | src/components/Dashboard.tsx:89 | the preview is the first min(3, n) videos |
| Dashboard.PreviewMembers | src/components/Dashboard.tsx:89 | the preview shows only videos of the list |
| Dashboard.SectionsOfSound | src/components/Dashboard.tsx:57-92 | each section is of a listed category, counts its new videos as `getNewVideosCount` does (more than 0), and shows 1 to 3 cards |
| Dashboard.SectionsPreviewNew | src/components/Dashboard.tsx:58-59 | each section's cards are new videos of its category |
| Dashboard.SectionsPreviewFirst | src/components/Dashboard.tsx:89 | a section previews a prefix of the category's new videos: three of them, or all |
| Dashboard.SectionsHaveNewVideos | src/components/Dashboard.tsx:58-61 | every section's category has a new video |
| Dashboard.SectionsOfComplete | src/components/Dashboard.tsx:58-61 | a category has a section iff it has a new video |
| Dashboard.SectionsSpec | src/components/Dashboard.tsx:57-92 | sections are exactly the store's categories with a positive new count |
| Dashboard.SectionClick | src/components/Dashboard.tsx:72 | clicking a section shows the category view of that category |
| Sidebar.RenderAsWritten | src/components/Sidebar.tsx:126-136 | the sidebar fails iff some category lists channels, since `getNewVideosCountByChannel` is undefined; otherwise it renders the intended rows |
| Sidebar.SeedSidebarFails | src/components/Sidebar.tsx:136 | on the seed data the sidebar fails on its first render |
| Sidebar.SeedDevopsListsChannels | src/data/mockData.ts:4 | the seed's DevOps category is expanded and has channels |
| Sidebar.RenderIntendedSpec | src/components/Sidebar.tsx:83-126 | one row per category in order, with its new count, a badge iff the count is positive, highlighted iff active, channels listed iff expanded and non-empty |
| Sidebar.ChannelRowsSpec | src/components/Sidebar.tsx:135-158 | the listed channels are exactly the category's in store order, each with a count at most the category's and a badge iff positive |
| Sidebar.IconFallback | src/components/Sidebar.tsx:84 | an unknown icon name gives the folder icon |
| Sidebar.ClickCategorySpec | src/components/Sidebar.tsx:91-97 | clicking the active category toggles it; clicking another selects it without toggling |
| Sidebar.ChevronTwice | src/components/Sidebar.tsx:104-107 | two chevron clicks restore the state |
| Sidebar.ClickChannelFails | src/components/Sidebar.tsx:140 | clicking a channel calls the undefined `setActiveChannelId` |
| Sidebar.AddCategoryFromPromptSpec | src/components/Sidebar.tsx:43-47 | a cancelled or blank answer adds nothing; otherwise the trimmed name is appended as a new category |
| Sidebar.HighlightSpec | src/components/Sidebar.tsx:69 | dashboard is highlighted iff the view is the dashboard; dashboard and settings are never both highlighted |
| Sidebar.OnCategoryClick | src/components/Sidebar.tsx:91-97 | the store's new state is the click rule applied to the old one |
| Sidebar.OnAddCategory | src/components/Sidebar.tsx:43-47 | the store's new state is the prompt rule applied to the old one |
| AddChannelModal.PreviewNameSpec | src/components/AddChannelModal.tsx:28 | a handle loses its `@`; one `@` is removed; without `@` the name is `Canal de YouTube` |
| AddChannelModal.InitialCategorySpec | src/components/AddChannelModal.tsx:10 | the active category, else the first category, else empty |
| AddChannelModal.AddressWithoutY | src/components/AddChannelModal.tsx:25 | an address without a `y` is accepted iff it starts with `@` |
| AddChannelModal.AcceptedExamples | src/components/AddChannelModal.tsx:25 | `@canal` and `youtu.be/abc` are accepted |
| AddChannelModal.RefusedExample | src/components/AddChannelModal.tsx:25 | `vimeo.com/@canal` is refused |
| AddChannelModal.AddSpec | src/components/AddChannelModal.tsx:38-53 | adding appends one channel with the preview's name and avatar, the category and the raw address, and closes the modal; integrity holds iff the category exists |
| AddChannelModal.Modal.constructor | src/components/AddChannelModal.tsx:9-13 | empty address, initial category, nothing validated, no error |
| AddChannelModal.Modal.SetUrl | src/components/AddChannelModal.tsx:110 | only the address changes |
| AddChannelModal.Modal.SelectCategory | src/components/AddChannelModal.tsx:161 | only the selected category changes |
| AddChannelModal.Modal.BeginValidate | src/components/AddChannelModal.tsx:15-20 | a blank address does nothing; otherwise validation starts with the error and preview cleared |
| AddChannelModal.Modal.CompleteValidate | src/components/AddChannelModal.tsx:25-35 | an accepted address gives its preview; a refused one sets the error message |
| AddChannelModal.Modal.Add | src/components/AddChannelModal.tsx:38-53 | without a preview or category nothing happens; otherwise the channel is added, the modal closed and the form reset |
| AddChannelModal.Modal.Close | src/components/AddChannelModal.tsx:55-60 | closing clears address, preview and error, and toggles the modal |
| SummaryPanel.SelectedVideo | src/components/SummaryPanel.tsx:21 | the video whose id is selected, present iff one exists |
| SummaryPanel.GenerateAlwaysEnabled | src/components/SummaryPanel.tsx:168 | the generate button is never disabled |
| SummaryPanel.SummaryForSpec | src/components/SummaryPanel.tsx:31 | the summary starts with `# ` and the title |
| SummaryPanel.DownloadNameSpec | src/components/SummaryPanel.tsx:84 | title length plus 11; ASCII letters and digits lowered, everything else `_`; ends in `_resumen.md` |
| SummaryPanel.DownloadNameStable | src/components/SummaryPanel.tsx:84 | sanitising an already sanitised name changes nothing |
| SummaryPanel.DownloadNeedsSummary | src/components/SummaryPanel.tsx:78-90 | a file is produced iff the selected video has a summary, and it holds that summary |
| SummaryPanel.SelectOpensPanel | src/components/SummaryPanel.tsx:94 | selecting an existing video shows the panel with it; closing hides it and drops the selection |
| SummaryPanel.StoredSpec | src/components/SummaryPanel.tsx:65-66 | storing a summary and a token count changes only that video's summary and stamp and the tokens used |
| SummaryPanel.StoredIsShown | src/components/SummaryPanel.tsx:65 | the stored summary is the one the panel then shows |
| SummaryPanel.GeneratedSpec | src/components/SummaryPanel.tsx:65-66 | generation stores the summary and sets tokens to the value read at the click plus 450 |
| SummaryPanel.GeneratedIsShown | src/components/SummaryPanel.tsx:145-147 | after generation the panel shows the summary text |
| SummaryPanel.StaleTokenCount | src/components/SummaryPanel.tsx:66 | two completions of the same click count 450 tokens once, not twice |
| SummaryPanel.Panel.BeginGenerate | src/components/SummaryPanel.tsx:23-31 | no video, no job; otherwise a job with the video, its summary and the tokens read now, and the spinner on |
| SummaryPanel.Panel.CompleteGenerate | src/components/SummaryPanel.tsx:65-67 | the store gets the summary and token count; the spinner goes off |
| SummaryPanel.Panel.Copy | src/components/SummaryPanel.tsx:70-76 | the clipboard gets the summary iff there is one, and only then the copied flag is set |
| SettingsPage.KeyVerdictSpec | src/components/SettingsView.tsx:18 | success iff the key is longer than 10; the test is disabled for an empty key |
| SettingsPage.LimitFromInputSpec | src/components/SettingsView.tsx:161 | a printed integer reads back as itself; a non-number gives 0 |
| SettingsPage.InputsTouchOneSetting | src/components/SettingsView.tsx:68 | each input changes only its own setting |
| SettingsPage.SaveStepSpec | src/components/SettingsView.tsx:28-34 | a rename to the trimmed name happens only with an editing id and a non-blank name |
| SettingsPage.SaveKeepsIntegrity | src/components/SettingsView.tsx:28-34 | a rename keeps referential integrity |
| SettingsPage.OneRowEditing | src/components/SettingsView.tsx:178 | with distinct ids at most one row is in edit mode |
| SettingsPage.Form.constructor | src/components/SettingsView.tsx:9-13 | key hidden, nothing edited, no test running, status idle |
| SettingsPage.Form.ToggleShowApiKey | src/components/SettingsView.tsx:73 | only the key visibility flips |
| SettingsPage.Form.BeginTestKey | src/components/SettingsView.tsx:15-16 | the test starts with the key read at the click |
| SettingsPage.Form.CompleteTestKey | src/components/SettingsView.tsx:18-19 | the status is the verdict on the key read at the click; the test ends |
| SettingsPage.Form.ClearKeyStatus | src/components/SettingsView.tsx:20 | the status returns to idle |
| SettingsPage.Form.StartEdit | src/components/SettingsView.tsx:23-26 | the row's id and name are taken for editing |
| SettingsPage.Form.SetEditingName | src/components/SettingsView.tsx:182 | only the edited name changes |
| SettingsPage.Form.Save | src/components/SettingsView.tsx:28-34 | the store gets the guarded rename; editing id and name are cleared |
| SettingsPage.Form.CancelEdit | src/components/SettingsView.tsx:207 | the editing id is cleared; the store is not touched |
| VideoCard.FormatDateSpec | src/components/VideoCard.tsx:21-29 | hours-ago iff under 24 h, with floor hours; yesterday iff 24 to 48 h; a calendar date otherwise |
| VideoCard.HoursTextSpec | src/components/VideoCard.tsx:26 | the label is `hace`, a space, the hours in decimal, and `h` |
| VideoCard.BadgeSpec | src/components/VideoCard.tsx:11-16 | each status has its own label and class, matching the filter's option label |
| VideoCard.CardSpec | src/components/VideoCard.tsx:96-118 | three quick actions (never `new`) iff not compact, highlighted iff the status matches; `Ver` iff a summary exists, else `Resumir` |
| VideoCard.ClickActionSpec | src/components/VideoCard.tsx:99 | a quick action sets that status, and the card then highlights exactly that action |
| VideoCard.ClickSummarySpec | src/components/VideoCard.tsx:114 | the summary button selects the video and opens the panel iff its id is non-empty |
| IndexPage.MainContentSpec | src/pages/Index.tsx:13-27 | settings wins; channel iff channel view and a truthy channel id; category iff category view and a truthy category id; dashboard otherwise |
| IndexPage.ChannelContentNeverShown | src/pages/Index.tsx:18-20 | with the store's never-set channel id the channel view is never routed to |
| IndexPage.SelectionDecidesCategoryPage | src/pages/Index.tsx:22-24 | selecting a non-empty category id routes to the category view; the view alone without an id shows the dashboard |
| IndexPage.ReachableMainContent | src/pages/Index.tsx:13-27 | under the UI invariant the dashboard view routes to the dashboard, and the category page only with a category selected |
| Text.Trim | src/components/Sidebar.tsx:45-46 | `trim()`: the middle of the string between whitespace runs, starting and ending with non-whitespace |
| Text.TrimEmptyIff | src/components/Sidebar.tsx:45 | a string trims to empty iff it is all whitespace |
| Text.TrimIdempotent | src/components/SettingsView.tsx:29-30 | trimming twice is trimming once |
| Text.CollapseSpaces | src/store/useStore.ts:35 | `replace(/\s+/g, '-')`: the result holds no whitespace and is no longer than the input |
| Text.CollapsePrefix | src/store/useStore.ts:35 | a whitespace-free prefix passes through the replacement unchanged |
| Text.CollapseNoSpaces | src/store/useStore.ts:35 | a string without whitespace is left unchanged |
| Text.CollapseRun | src/store/useStore.ts:35 | each maximal run of whitespace becomes exactly one `-` (with CollapseNoSpaces this fixes the result on every input) |
| Text.Lower | src/store/useStore.ts:35 | `toLowerCase()` character by character |
| Text.RemoveFirst | src/components/AddChannelModal.tsx:28 | `replace('@', '')`: removes the first `@` only |
| Text.ParseIntOfIntToString | src/components/SettingsView.tsx:161 | `parseInt` reads a printed integer back |

## Left out

- Persistence: the zustand `persist` middleware and `localStorage` are not modelled. Only the `partialize` projection is (`StoreModel.Partialize`), with `StoreModel.Restore` for the start-up merge.
- Clocks: `Date.now()` and `new Date()` are parameters.
- Time formats: `publishedAt` is an integer millisecond timestamp instead of an ISO string. The seed stamps were converted by hand.
- Randomness: the `Math.random` avatar id is a parameter (`randomId`).
- Timers and delays are not modelled: the validation, generation and key-test waits, the 3-second key-status reset and the 2-second copied-flag reset. Each async handler is split at its `await`. Only the user edits that the Begin/Complete split can express are interleaved.
- Browser I/O: clipboard, Blob and download plumbing, `window.prompt` (its answer is a parameter), and all markup, icons, animations and markdown rendering.
- Floating point is not modelled: `usagePercent`, `estimatedCost` and the usage bar width (SettingsView.tsx:36-37, 136-150).
- VideoCard.FormatDateSpec: the calendar-date text (`toLocaleDateString('es-ES')`) is not produced, only that the calendar branch is taken.
- VideoCard.FormatDateSpec: `diffHours` is compared as an exact rational. The floating-point division is not modelled.
- VideoFilters.DateMatches: `diffDays` is compared as an exact rational. The floating-point division is not modelled.
- SettingsPage.KeyVerdictSpec: lengths count characters, not UTF-16 code units.
- SummaryPanel.DownloadNameSpec: lengths count characters, not UTF-16 code units.
- Text.Lower: lowers ASCII letters only; the rest of Unicode is kept as is.
- StoreModel.CategoryIdShape: the slug is lowered with ASCII-only `Text.Lower`.
- setActiveChannelId is left without a corrected counterpart. The code never says what view it should select, so the model only records that the call fails (`Sidebar.ClickChannelFails`).
- ChannelView: its `showChannel` prop is not used by the view and is not modelled.
- The API key's show/hide toggle is kept as a flag (`SettingsPage.Form.ToggleShowApiKey`); the input masking it drives is markup.

## Findings

| source | as written | input that shows it | evidently intended | confidence | as-written member | corrected member |
|---|---|---|---|---|---|---|
| src/components/Sidebar.tsx:136 | calls `getNewVideosCountByChannel`, which the store declares but never defines | the seed data: DevOps is expanded and has two channels, so the first render raises a TypeError | a per-channel count of new videos, as the declaration describes | not executed | Sidebar.SeedSidebarFails | Sidebar.ChannelRowsSpec |
| src/components/ChannelView.tsx:28 | calls `getVideosByChannel`, which the store never defines; `activeChannelId` is never initialised, and `setActiveChannelId` (Sidebar.tsx:140) is undefined | latent: any state in which `activeChannelId` names a channel. The app as written never reaches one, because nothing sets `activeChannelId` (`IndexPage.ChannelContentNeverShown`) and channel rows exist only in a sidebar render that has already failed (`Sidebar.RenderAsWritten`) | the channel's videos in store order, filtered as in the category view | not executed | ChannelViewPage.FailsWhenChannelFound | ChannelViewPage.RenderIntendedSpec |
