/** The application page: the sidebar, the main content chosen from the
    view and the selections, the summary panel and the add-channel modal. */
module IndexPage {
  import opened Wrappers
  import opened Types
  import StoreModel
  import Actions

  type StoreState = StoreModel.StoreState

  /** The component that fills the main area. */
  datatype MainContent = SettingsContent | ChannelContent | CategoryContent | DashboardContent

  /** renderMainContent, with the activeChannelId the page reads. */
  function MainContentOf(activeView: View, activeCategoryId: Option<string>, activeChannelId: Option<string>): MainContent
  {
    if activeView == SettingsView then SettingsContent
    else if activeView == ChannelView && Truthy(activeChannelId) then ChannelContent
    else if activeView == CategoryView && Truthy(activeCategoryId) then CategoryContent
    else DashboardContent
  }

  /** The main content for a store state: the store's activeChannelId is
      always undefined. */
  function MainContentFor(st: StoreState): MainContent
  {
    MainContentOf(st.activeView, st.activeCategoryId, StoreModel.ActiveChannelId)
  }

  /** Each content is chosen exactly under its condition. */
  lemma MainContentSpec(activeView: View, activeCategoryId: Option<string>, activeChannelId: Option<string>)
    ensures var m := MainContentOf(activeView, activeCategoryId, activeChannelId);
      (m == SettingsContent <==> activeView == SettingsView)
      && (m == ChannelContent <==> activeView == ChannelView && Truthy(activeChannelId))
      && (m == CategoryContent <==> activeView == CategoryView && Truthy(activeCategoryId))
      && (m == DashboardContent <==>
            (activeView == DashboardView
             || (activeView == ChannelView && !Truthy(activeChannelId))
             || (activeView == CategoryView && !Truthy(activeCategoryId))))
  {
  }

  /** The channel page is never the main content of the store, even when
      the view is set to 'channel'; the dashboard shows instead. */
  lemma ChannelContentNeverShown(st: StoreState)
    ensures MainContentFor(st) != ChannelContent
    ensures st.activeView == ChannelView ==> MainContentFor(st) == DashboardContent
  {
  }

  /** Selecting a category with a non-empty id shows the category page;
      setActiveView('category') without a selected category leaves the
      dashboard in place. */
  lemma SelectionDecidesCategoryPage(st: StoreState, id: string)
    ensures id != "" ==> MainContentFor(StoreModel.SetActiveCategoryId(st, Some(id))) == CategoryContent
    ensures !Truthy(st.activeCategoryId) ==>
      MainContentFor(StoreModel.SetActiveView(st, CategoryView)) == DashboardContent
  {
  }

  /** In every reachable state the main content agrees with the view, save
      for the category view with nothing selected and the channel view. */
  lemma ReachableMainContent(st: StoreState)
    requires Actions.UiInvariant(st)
    ensures st.activeView == DashboardView ==> MainContentFor(st) == DashboardContent
    ensures MainContentFor(st) == CategoryContent ==> Truthy(st.activeCategoryId) && st.activeView == CategoryView
  {
  }
}
