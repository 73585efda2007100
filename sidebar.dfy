/** The sidebar: the dashboard entry, one row per category with its icon,
    new-video badge and (when expanded) its channels, and the buttons that
    add a channel, add a category and open the settings.

    The channel rows call getNewVideosCountByChannel, which the store never
    defines, so rendering an expanded category that has channels raises a
    TypeError; Render is the sidebar as written, RenderIntended the sidebar
    with that member defined as declared (StoreModel.NewVideosCountByChannel). */
module Sidebar {
  import opened Wrappers
  import opened Types
  import opened Interface
  import opened Text
  import StoreModel
  import Actions
  import MockData
  import Store

  type StoreState = StoreModel.StoreState

  /** The icons iconMap knows. */
  datatype Icon = ServerIcon | TrendingUpIcon | PaletteIcon | UserIcon | FolderIcon

  /** iconMap[category.icon] || Folder */
  function IconFor(name: string): Icon
  {
    if name == "Server" then ServerIcon
    else if name == "TrendingUp" then TrendingUpIcon
    else if name == "Palette" then PaletteIcon
    else if name == "User" then UserIcon
    else FolderIcon
  }

  /** A channel under an expanded category. */
  datatype ChannelRow = ChannelRow(channel: Channel, newCount: nat, showsBadge: bool, highlighted: bool)

  /** A category's row; `channelRows` is empty unless the row lists its
      channels. */
  datatype CategoryRow = CategoryRow(
    category: Category, icon: Icon, newCount: nat, showsBadge: bool, highlighted: bool,
    expandedChevron: bool, channelRows: seq<ChannelRow>)

  /** category.isExpanded && categoryChannels.length > 0 */
  predicate ListsChannels(st: StoreState, c: Category)
  {
    c.isExpanded && |StoreModel.ChannelsByCategory(st, c.id)| > 0
  }

  /** The row of a category, given the channel rows it shows. */
  function CategoryRowOf(st: StoreState, c: Category, channelRows: seq<ChannelRow>): CategoryRow
  {
    var n := StoreModel.NewVideosCount(st, c.id);
    CategoryRow(c, IconFor(c.icon), n, n > 0, st.activeCategoryId == Some(c.id), c.isExpanded, channelRows)
  }

  /** The rows of a category's channels, with the counts as declared. */
  function ChannelRowsIntended(st: StoreState, c: Category): (rows: seq<ChannelRow>)
  {
    var channels := StoreModel.ChannelsByCategory(st, c.id);
    seq(|channels|, i requires 0 <= i < |channels| =>
      var n := StoreModel.NewVideosCountByChannel(st, channels[i].id);
      ChannelRow(channels[i], n, n > 0, StoreModel.ActiveChannelId == Some(channels[i].id)))
  }

  /** Some category row lists channels. */
  predicate AnyListsChannels(st: StoreState)
  {
    exists i :: 0 <= i < |st.categories| && ListsChannels(st, st.categories[i])
  }

  /** The sidebar as written: the category rows, or the TypeError from the
      first channel row's call of the undefined member. */
  function Render(st: StoreState): Call<seq<CategoryRow>>
  {
    if AnyListsChannels(st) then NotAFunction(GetNewVideosCountByChannel)
    else Returned(seq(|st.categories|, i requires 0 <= i < |st.categories| => CategoryRowOf(st, st.categories[i], [])))
  }

  /** The sidebar with getNewVideosCountByChannel defined as declared. */
  function RenderIntended(st: StoreState): seq<CategoryRow>
  {
    seq(|st.categories|, i requires 0 <= i < |st.categories| =>
      var c := st.categories[i];
      CategoryRowOf(st, c, if ListsChannels(st, c) then ChannelRowsIntended(st, c) else []))
  }

  /** The sidebar as written fails exactly when some expanded category has
      channels, and otherwise shows what the intended sidebar shows. */
  lemma RenderAsWritten(st: StoreState)
    ensures Render(st).NotAFunction? <==> exists c :: c in st.categories && ListsChannels(st, c)
    ensures Render(st).NotAFunction? ==> !DefinedByStore(Render(st).member)
    ensures Render(st).Returned? ==> Render(st).value == RenderIntended(st)
  {
    if exists c :: c in st.categories && ListsChannels(st, c) {
      var c :| c in st.categories && ListsChannels(st, c);
      var i :| 0 <= i < |st.categories| && st.categories[i] == c;
    }
  }

  /** On the seed data the sidebar as written fails on first render: the
      DevOps category starts expanded and has two channels. */
  lemma SeedSidebarFails()
    ensures Render(StoreModel.Restore(MockData.Seed)) == NotAFunction(GetNewVideosCountByChannel)
  {
    SeedDevopsListsChannels();
    RenderAsWritten(StoreModel.Restore(MockData.Seed));
  }

  lemma SeedDevopsListsChannels()
    ensures MockData.DevopsCategory in StoreModel.Restore(MockData.Seed).categories
    ensures ListsChannels(StoreModel.Restore(MockData.Seed), MockData.DevopsCategory)
  {
    var st := StoreModel.Restore(MockData.Seed);
    MockData.DevopsCategoryIds();
    assert st.categories[0] == MockData.DevopsCategory;
    assert |StoreModel.ChannelIds(StoreModel.ChannelsByCategory(st, "devops"))| > 0;
  }

  /** One row per category, in order: its badge shows the category's new
      videos when there are any, it is highlighted exactly when selected,
      and it lists exactly the category's channels when expanded. */
  lemma RenderIntendedSpec(st: StoreState)
    ensures |RenderIntended(st)| == |st.categories|
    ensures forall i :: 0 <= i < |st.categories| ==>
      var row := RenderIntended(st)[i];
      row.category == st.categories[i]
      && row.newCount == StoreModel.NewVideosCount(st, st.categories[i].id)
      && (row.showsBadge <==> row.newCount > 0)
      && (row.highlighted <==> st.activeCategoryId == Some(st.categories[i].id))
      && (row.channelRows != [] <==> ListsChannels(st, st.categories[i]))
  {
  }

  /** Each channel row is a channel of the category, in store order, with a
      badge no larger than the category's and never highlighted. */
  lemma ChannelRowsSpec(st: StoreState, c: Category)
    ensures |ChannelRowsIntended(st, c)| == |StoreModel.ChannelsByCategory(st, c.id)|
    ensures forall i :: 0 <= i < |ChannelRowsIntended(st, c)| ==>
      var row := ChannelRowsIntended(st, c)[i];
      row.channel == StoreModel.ChannelsByCategory(st, c.id)[i]
      && row.channel in st.channels && row.channel.categoryId == c.id
      && row.newCount <= StoreModel.NewVideosCount(st, c.id)
      && (row.showsBadge <==> row.newCount > 0)
      && !row.highlighted
  {
    var channels := StoreModel.ChannelsByCategory(st, c.id);
    forall i | 0 <= i < |channels| ensures StoreModel.NewVideosCountByChannel(st, channels[i].id) <= StoreModel.NewVideosCount(st, c.id) {
      assert channels[i] in channels;
      StoreModel.ChannelWithinCategory(st, channels[i]);
    }
  }

  /** Unknown icon names fall back to the folder, the icon new categories
      get. */
  lemma IconFallback(name: string)
    ensures name !in {"Server", "TrendingUp", "Palette", "User"} ==> IconFor(name) == FolderIcon
    ensures IconFor(StoreModel.NewCategoryIcon) == FolderIcon
  {
  }

  // Handlers

  /** A click on a category row: a selected category folds or unfolds,
      any other becomes the selected one. */
  function ClickCategory(st: StoreState, c: Category): StoreState
  {
    if st.activeCategoryId == Some(c.id) then StoreModel.ToggleCategoryExpanded(st, c.id)
    else StoreModel.SetActiveCategoryId(st, Some(c.id))
  }

  /** A click on the chevron only folds or unfolds; the row's own handler
      does not run. */
  function ClickChevron(st: StoreState, c: Category): StoreState
  {
    StoreModel.ToggleCategoryExpanded(st, c.id)
  }

  /** A click on a channel row calls setActiveChannelId, which the store
      does not define. */
  function ClickChannel(st: StoreState, ch: Channel): Call<StoreState>
  {
    NotAFunction(SetActiveChannelId)
  }

  /** handleAddCategory with the prompt's answer (None when cancelled). */
  function AddCategoryFromPrompt(st: StoreState, answer: Option<string>, now: nat): StoreState
  {
    if answer.Some? && Trim(answer.value) != "" then StoreModel.AddCategory(st, Trim(answer.value), now)
    else st
  }

  /** Selecting a category leaves the data alone and shows its page (when
      its id is non-empty); clicking it again folds or unfolds it in place
      and keeps the selection. */
  lemma ClickCategorySpec(st: StoreState, c: Category)
    ensures st.activeCategoryId != Some(c.id) ==>
      var r := ClickCategory(st, c);
      r.activeCategoryId == Some(c.id) && r.categories == st.categories
      && (r.activeView == CategoryView <==> c.id != "")
    ensures st.activeCategoryId == Some(c.id) ==>
      var r := ClickCategory(st, c);
      r.activeCategoryId == st.activeCategoryId && r.activeView == st.activeView
      && r.categories == StoreModel.ToggleExpandedWhere(st.categories, c.id)
    ensures ClickCategory(ClickCategory(st, c), c).activeCategoryId == Some(c.id)
  {
  }

  /** Two clicks on a chevron restore the categories. */
  lemma ChevronTwice(st: StoreState, c: Category)
    ensures ClickChevron(ClickChevron(st, c), c) == st
  {
    StoreModel.ToggleTwice(st.categories, c.id);
  }

  /** A channel row click always fails. */
  lemma ClickChannelFails(st: StoreState, ch: Channel)
    ensures ClickChannel(st, ch).NotAFunction? && !DefinedByStore(ClickChannel(st, ch).member)
  {
  }

  /** A cancelled or blank answer adds nothing; any other adds one category
      named by the trimmed answer, which is non-empty and has no whitespace
      at either end. */
  lemma AddCategoryFromPromptSpec(st: StoreState, answer: Option<string>, now: nat)
    ensures !(answer.Some? && Trim(answer.value) != "") ==> AddCategoryFromPrompt(st, answer, now) == st
    ensures answer.Some? && Trim(answer.value) != "" ==>
      var r := AddCategoryFromPrompt(st, answer, now);
      var name := Trim(answer.value);
      r.categories == st.categories + [StoreModel.NewCategory(name, now)]
      && name != [] && !IsSpace(name[0]) && !IsSpace(name[|name| - 1])
      && r.channels == st.channels && r.videos == st.videos
  {
  }

  /** The dashboard entry is highlighted on the dashboard with no category
      selected; the settings entry on the settings view. */
  predicate DashboardHighlighted(st: StoreState)
  {
    st.activeView == DashboardView && !Truthy(st.activeCategoryId)
  }

  predicate SettingsHighlighted(st: StoreState)
  {
    st.activeView == SettingsView
  }

  /** In every reachable state the dashboard entry is highlighted exactly on
      the dashboard; its button and the settings button each light up their
      own entry and never both. */
  lemma HighlightSpec(st: StoreState)
    requires Actions.UiInvariant(st)
    ensures DashboardHighlighted(st) <==> st.activeView == DashboardView
    ensures !(DashboardHighlighted(st) && SettingsHighlighted(st))
    ensures DashboardHighlighted(StoreModel.SetActiveView(st, DashboardView))
    ensures SettingsHighlighted(StoreModel.SetActiveView(st, SettingsView))
            && !DashboardHighlighted(StoreModel.SetActiveView(st, SettingsView))
  {
  }

  /** The category-row click on the live store. */
  method OnCategoryClick(store: Store.Store, c: Category)
    modifies store
    ensures store.State() == ClickCategory(old(store.State()), c)
  {
    if store.activeCategoryId == Some(c.id) {
      store.ToggleCategoryExpanded(c.id);
    } else {
      store.SetActiveCategoryId(Some(c.id));
    }
  }

  /** The "new category" button on the live store. */
  method OnAddCategory(store: Store.Store, answer: Option<string>, now: nat)
    modifies store
    ensures store.State() == AddCategoryFromPrompt(old(store.State()), answer, now)
  {
    if answer.Some? {
      var name := Trim(answer.value);
      if name != "" {
        store.AddCategory(name, now);
      }
    }
  }
}
