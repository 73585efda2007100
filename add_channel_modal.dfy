/** The add-channel dialog: its form state (address, chosen category, the
    validation in progress, the channel the validation found, the error
    message), the address check, and adding the channel to the store.
    Validation is split at its one-second wait: BeginValidate runs on the
    click, CompleteValidate when the wait ends, with the address as it was
    at the click and the random text the avatar address is built from. */
module AddChannelModal {
  import opened Wrappers
  import opened Types
  import opened Text
  import StoreModel
  import Store

  /** The channel a successful validation shows. */
  datatype ChannelPreview = ChannelPreview(name: string, avatar: string)

  const InvalidAddressMessage := "URL no válida. Introduce una URL de YouTube o un @handle"
  const DefaultChannelName := "Canal de YouTube"
  const AvatarPrefix := "https://i.pravatar.cc/100?u="

  /** The addresses the dialog accepts: a youtube.com or youtu.be link, or
      a handle starting with '@'. */
  predicate IsChannelAddress(url: string)
  {
    Contains(url, "youtube.com") || Contains(url, "youtu.be") || StartsWith(url, "@")
  }

  /** The preview's name: the address without its first '@', or the
      default name when it has none. */
  function PreviewName(url: string): string
  {
    if '@' in url then RemoveFirst(url, '@') else DefaultChannelName
  }

  function PreviewFor(url: string, randomId: string): ChannelPreview
  {
    ChannelPreview(PreviewName(url), AvatarPrefix + randomId)
  }

  /** activeCategoryId || categories[0]?.id || '' */
  function InitialCategory(activeCategoryId: Option<string>, categories: seq<Category>): string
  {
    if Truthy(activeCategoryId) then activeCategoryId.value
    else if categories != [] && categories[0].id != "" then categories[0].id
    else ""
  }

  /** The draft handleAdd passes to addChannel. */
  function DraftOf(preview: ChannelPreview, categoryId: string, url: string): ChannelDraft
  {
    ChannelDraft(preview.name, preview.avatar, categoryId, url)
  }

  /** A handle keeps everything after its '@'; a link naming a handle loses
      only its first '@'; an address without '@' gets the default name. */
  lemma PreviewNameSpec(url: string)
    ensures StartsWith(url, "@") ==> PreviewName(url) == url[1..]
    ensures '@' in url ==> |PreviewName(url)| == |url| - 1
    ensures '@' !in url ==> PreviewName(url) == "Canal de YouTube"
  {
    if StartsWith(url, "@") {
      assert url[0] == '@';
    }
  }

  /** The initial category is the selected one when there is one, else the
      first category's; it is empty only when neither is available. */
  lemma InitialCategorySpec(activeCategoryId: Option<string>, categories: seq<Category>)
    ensures var r := InitialCategory(activeCategoryId, categories);
      (r == "" <==> !Truthy(activeCategoryId) && (categories == [] || categories[0].id == ""))
      && (r != "" ==> r == (if Truthy(activeCategoryId) then activeCategoryId.value else categories[0].id))
  {
  }

  /** An address without a 'y' holds neither domain, so it is accepted
      exactly when it starts with '@'. */
  lemma AddressWithoutY(url: string)
    requires 'y' !in url
    ensures IsChannelAddress(url) <==> StartsWith(url, "@")
  {
    if Contains(url, "youtube.com") { ContainsHasFirst(url, "youtube.com"); }
    if Contains(url, "youtu.be") { ContainsHasFirst(url, "youtu.be"); }
  }

  /** A handle and a short link are accepted. */
  lemma AcceptedExamples()
    ensures IsChannelAddress("@canal") && IsChannelAddress("youtu.be/abc")
  {
    assert StartsWith("youtu.be/abc", "youtu.be");
  }

  /** An address that holds an '@' only later on is refused. */
  lemma RefusedExample()
    ensures !IsChannelAddress("vimeo.com/@canal")
  {
    var url := "vimeo.com/@canal";
    assert url[0] == 'v';
    assert 'y' !in url;
    AddressWithoutY(url);
  }

  /** Adding the previewed channel appends one channel carrying the
      preview's name and avatar, the chosen category and the address, and
      closes the dialog; it keeps every reference valid exactly when the
      chosen category exists. */
  lemma AddSpec(st: StoreModel.StoreState, preview: ChannelPreview, categoryId: string, url: string, now: nat)
    requires st.isAddChannelModalOpen
    ensures var r := StoreModel.ToggleAddChannelModal(StoreModel.AddChannel(st, DraftOf(preview, categoryId, url), now));
      |r.channels| == |st.channels| + 1 && r.channels[..|st.channels|] == st.channels
      && r.channels[|st.channels|].name == preview.name && r.channels[|st.channels|].avatar == preview.avatar
      && r.channels[|st.channels|].categoryId == categoryId && r.channels[|st.channels|].url == url
      && !r.isAddChannelModalOpen
      && r.categories == st.categories && r.videos == st.videos
    ensures StoreModel.Integrity(st) ==>
      (StoreModel.Integrity(StoreModel.AddChannel(st, DraftOf(preview, categoryId, url), now))
       <==> StoreModel.HasCategory(st.categories, categoryId))
  {
    StoreModel.AddChannelAppends(st, DraftOf(preview, categoryId, url), now);
    if StoreModel.Integrity(st) {
      StoreModel.AddChannelIntegrity(st, DraftOf(preview, categoryId, url), now);
    }
  }

  class Modal {
    var url: string
    var selectedCategory: string
    var isValidating: bool
    var validatedChannel: Option<ChannelPreview>
    var error: string

    /** The dialog as first mounted. */
    constructor (activeCategoryId: Option<string>, categories: seq<Category>)
      ensures url == "" && selectedCategory == InitialCategory(activeCategoryId, categories)
      ensures !isValidating && validatedChannel.None? && error == ""
    {
      url := "";
      selectedCategory := InitialCategory(activeCategoryId, categories);
      isValidating := false;
      validatedChannel := None;
      error := "";
    }

    /** The validate button is disabled for a blank address or while a
        validation runs. */
    predicate ValidateDisabled()
      reads this
    {
      Trim(url) == "" || isValidating
    }

    /** The add button is disabled until a channel is validated and a
        category chosen. */
    predicate AddDisabled()
      reads this
    {
      validatedChannel.None? || selectedCategory == ""
    }

    method SetUrl(value: string)
      modifies this
      ensures url == value
      ensures selectedCategory == old(selectedCategory) && isValidating == old(isValidating)
      ensures validatedChannel == old(validatedChannel) && error == old(error)
    {
      url := value;
    }

    method SelectCategory(id: string)
      modifies this
      ensures selectedCategory == id
      ensures url == old(url) && isValidating == old(isValidating)
      ensures validatedChannel == old(validatedChannel) && error == old(error)
    {
      selectedCategory := id;
    }

    /** The click on validate: nothing for a blank address; otherwise the
        validation starts with the error and the previous result cleared.
        `checkedUrl` is the address the validation will judge. */
    method BeginValidate() returns (started: bool, checkedUrl: string)
      modifies this
      ensures started <==> Trim(old(url)) != ""
      ensures checkedUrl == old(url) && url == old(url) && selectedCategory == old(selectedCategory)
      ensures !started ==> isValidating == old(isValidating) && validatedChannel == old(validatedChannel) && error == old(error)
      ensures started ==> isValidating && validatedChannel.None? && error == ""
    {
      checkedUrl := url;
      if Trim(url) == "" {
        return false, checkedUrl;
      }
      isValidating := true;
      error := "";
      validatedChannel := None;
      started := true;
    }

    /** The end of the wait: an accepted address gives a preview, any other
        the error message; the validation is over either way. */
    method CompleteValidate(checkedUrl: string, randomId: string)
      modifies this
      ensures !isValidating
      ensures IsChannelAddress(checkedUrl) ==> validatedChannel == Some(PreviewFor(checkedUrl, randomId)) && error == old(error)
      ensures !IsChannelAddress(checkedUrl) ==> validatedChannel == old(validatedChannel) && error == InvalidAddressMessage
      ensures url == old(url) && selectedCategory == old(selectedCategory)
    {
      if IsChannelAddress(checkedUrl) {
        validatedChannel := Some(PreviewFor(checkedUrl, randomId));
      } else {
        error := InvalidAddressMessage;
      }
      isValidating := false;
    }

    /** handleAdd: with a preview and a category, add the channel, reset the
        form and close the dialog; otherwise do nothing. */
    method Add(store: Store.Store, now: nat)
      modifies this, store
      ensures old(AddDisabled()) ==>
        store.State() == old(store.State())
        && url == old(url) && selectedCategory == old(selectedCategory) && validatedChannel == old(validatedChannel)
      ensures !old(AddDisabled()) ==>
        store.State() == StoreModel.ToggleAddChannelModal(StoreModel.AddChannel(old(store.State()),
                           DraftOf(old(validatedChannel).value, old(selectedCategory), old(url)), now))
        && url == "" && validatedChannel.None?
        && selectedCategory == InitialCategory(old(store.activeCategoryId), old(store.categories))
      ensures isValidating == old(isValidating) && error == old(error)
    {
      if validatedChannel.None? || selectedCategory == "" {
        return;
      }
      var activeCategoryId, categories := store.activeCategoryId, store.categories;
      store.AddChannel(DraftOf(validatedChannel.value, selectedCategory, url), now);
      url := "";
      validatedChannel := None;
      selectedCategory := InitialCategory(activeCategoryId, categories);
      store.ToggleAddChannelModal();
    }

    /** handleClose: clear the address, the preview and the error, and
        close the dialog. */
    method Close(store: Store.Store)
      modifies this, store
      ensures store.State() == StoreModel.ToggleAddChannelModal(old(store.State()))
      ensures url == "" && validatedChannel.None? && error == ""
      ensures selectedCategory == old(selectedCategory) && isValidating == old(isValidating)
    {
      url := "";
      validatedChannel := None;
      error := "";
      store.ToggleAddChannelModal();
    }
  }
}
