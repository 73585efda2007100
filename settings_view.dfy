/** The settings page: the API key with its connection test, the summary
    prompt, the monthly token limit, and renaming or deleting categories.
    The key test is split at its 1.5-second wait: BeginTestKey runs on the
    click and returns the key as it was then, CompleteTestKey when the wait
    ends, and ClearKeyStatus when the status timer fires. */
module SettingsPage {
  import opened Wrappers
  import opened Types
  import opened Text
  import StoreModel
  import Store

  type StoreState = StoreModel.StoreState

  datatype KeyStatus = Idle | Success | Failure

  /** A key passes the simulated test when it is longer than this. */
  const MinKeyLength := 10

  /** The test's verdict on a key. */
  function KeyVerdict(key: string): KeyStatus
  {
    if |key| > MinKeyLength then Success else Failure
  }

  /** The test button is disabled while a test runs or without a key. */
  predicate TestDisabled(testingKey: bool, settings: AppSettings)
  {
    testingKey || settings.claudeApiKey == ""
  }

  /** parseInt(value) || 0: the number at the front of the input, or 0 when
      there is none. */
  function LimitFromInput(input: string): int
  {
    var n := ParseInt(input);
    if n.Some? then n.value else 0
  }

  /** The three inputs write straight into the settings. */
  function KeyInput(st: StoreState, value: string): StoreState
  {
    StoreModel.UpdateSettings(st, SettingsPatch(Some(value), None, None, None))
  }

  function PromptInput(st: StoreState, value: string): StoreState
  {
    StoreModel.UpdateSettings(st, SettingsPatch(None, Some(value), None, None))
  }

  function LimitInput(st: StoreState, input: string): StoreState
  {
    StoreModel.UpdateSettings(st, SettingsPatch(None, None, Some(LimitFromInput(input)), None))
  }

  /** What saveCategory does to the store: rename the edited category to
      the trimmed name, unless there is no edited category or the name is
      blank. */
  function SaveStep(st: StoreState, editingCategoryId: Option<string>, editingName: string): StoreState
  {
    if Truthy(editingCategoryId) && Trim(editingName) != "" then
      StoreModel.UpdateCategory(st, editingCategoryId.value,
        CategoryPatch(None, Some(Trim(editingName)), None, None, None))
    else st
  }

  /** A category row shows the name field exactly when it is the one being
      edited. */
  predicate IsEditing(editingCategoryId: Option<string>, c: Category)
  {
    editingCategoryId == Some(c.id)
  }

  /** Only keys longer than ten characters pass, and the button is disabled
      for an empty key. */
  lemma KeyVerdictSpec(key: string, testingKey: bool, settings: AppSettings)
    ensures KeyVerdict(key) == Success <==> |key| >= 11
    ensures KeyVerdict(key) != Idle
    ensures settings.claudeApiKey == "" ==> TestDisabled(testingKey, settings)
    ensures !testingKey && settings.claudeApiKey != "" ==> !TestDisabled(testingKey, settings)
  {
  }

  /** The limit field reads back any number it shows, and falls back to 0
      for input that does not start with a number. */
  lemma LimitFromInputSpec(n: int, input: string)
    ensures LimitFromInput(IntToString(n)) == n
    ensures ParseInt(input).None? ==> LimitFromInput(input) == 0
  {
    ParseIntOfIntToString(n);
  }

  /** Each input changes only its own setting. */
  lemma InputsTouchOneSetting(st: StoreState, value: string, input: string)
    ensures KeyInput(st, value) == st.(settings := st.settings.(claudeApiKey := value))
    ensures PromptInput(st, value) == st.(settings := st.settings.(summaryPrompt := value))
    ensures LimitInput(st, input) == st.(settings := st.settings.(monthlyTokenLimit := LimitFromInput(input)))
  {
  }

  /** Saving renames exactly the categories with the edited id to the
      trimmed name, which is non-empty and has no whitespace at either end;
      ids, order and everything else stay; a blank name or no edited
      category changes nothing. */
  lemma SaveStepSpec(st: StoreState, editingCategoryId: Option<string>, editingName: string)
    ensures !(Truthy(editingCategoryId) && Trim(editingName) != "") ==> SaveStep(st, editingCategoryId, editingName) == st
    ensures Truthy(editingCategoryId) && Trim(editingName) != "" ==>
      var r := SaveStep(st, editingCategoryId, editingName);
      var name := Trim(editingName);
      |r.categories| == |st.categories|
      && (forall i :: 0 <= i < |st.categories| ==>
            r.categories[i] == (if st.categories[i].id == editingCategoryId.value
                                then st.categories[i].(name := name) else st.categories[i]))
      && !IsSpace(name[0]) && !IsSpace(name[|name| - 1])
      && r == st.(categories := r.categories)
  {
  }

  /** Saving never breaks a reference: category ids do not change. */
  lemma SaveKeepsIntegrity(st: StoreState, editingCategoryId: Option<string>, editingName: string)
    requires StoreModel.Integrity(st)
    ensures StoreModel.Integrity(SaveStep(st, editingCategoryId, editingName))
  {
    if Truthy(editingCategoryId) && Trim(editingName) != "" {
      StoreModel.UpdateCategoryKeepsIntegrity(st, editingCategoryId.value,
        CategoryPatch(None, Some(Trim(editingName)), None, None, None));
    }
  }

  /** With distinct category ids at most one row is in edit mode. */
  lemma OneRowEditing(categories: seq<Category>, editingCategoryId: Option<string>)
    requires forall i, j :: 0 <= i < j < |categories| ==> categories[i].id != categories[j].id
    ensures forall i, j ::
      (0 <= i < |categories| && 0 <= j < |categories| && IsEditing(editingCategoryId, categories[i])
       && IsEditing(editingCategoryId, categories[j])) ==> i == j
  {
  }

  /** The page's own state. */
  class Form {
    var showApiKey: bool
    var editingCategoryId: Option<string>
    var editingName: string
    var testingKey: bool
    var keyStatus: KeyStatus

    constructor ()
      ensures !showApiKey && editingCategoryId.None? && editingName == "" && !testingKey && keyStatus == Idle
    {
      showApiKey := false;
      editingCategoryId := None;
      editingName := "";
      testingKey := false;
      keyStatus := Idle;
    }

    method ToggleShowApiKey()
      modifies this
      ensures showApiKey == !old(showApiKey)
      ensures editingCategoryId == old(editingCategoryId) && editingName == old(editingName)
      ensures testingKey == old(testingKey) && keyStatus == old(keyStatus)
    {
      showApiKey := !showApiKey;
    }

    /** The test click: the test runs on the key as it is now. */
    method BeginTestKey(store: Store.Store) returns (key: string)
      modifies this
      ensures key == store.settings.claudeApiKey && testingKey
      ensures showApiKey == old(showApiKey) && editingCategoryId == old(editingCategoryId)
      ensures editingName == old(editingName) && keyStatus == old(keyStatus)
    {
      testingKey := true;
      key := store.settings.claudeApiKey;
    }

    method CompleteTestKey(key: string)
      modifies this
      ensures keyStatus == KeyVerdict(key) && !testingKey
      ensures showApiKey == old(showApiKey) && editingCategoryId == old(editingCategoryId) && editingName == old(editingName)
    {
      keyStatus := KeyVerdict(key);
      testingKey := false;
    }

    method ClearKeyStatus()
      modifies this
      ensures keyStatus == Idle
      ensures showApiKey == old(showApiKey) && editingCategoryId == old(editingCategoryId)
      ensures editingName == old(editingName) && testingKey == old(testingKey)
    {
      keyStatus := Idle;
    }

    method StartEdit(id: string, name: string)
      modifies this
      ensures editingCategoryId == Some(id) && editingName == name
      ensures showApiKey == old(showApiKey) && testingKey == old(testingKey) && keyStatus == old(keyStatus)
    {
      editingCategoryId := Some(id);
      editingName := name;
    }

    method SetEditingName(value: string)
      modifies this
      ensures editingName == value && editingCategoryId == old(editingCategoryId)
      ensures showApiKey == old(showApiKey) && testingKey == old(testingKey) && keyStatus == old(keyStatus)
    {
      editingName := value;
    }

    /** saveCategory: rename if there is something to save, then leave edit
        mode either way. */
    method Save(store: Store.Store)
      modifies this, store
      ensures store.State() == SaveStep(old(store.State()), old(editingCategoryId), old(editingName))
      ensures editingCategoryId.None? && editingName == ""
      ensures showApiKey == old(showApiKey) && testingKey == old(testingKey) && keyStatus == old(keyStatus)
    {
      if editingCategoryId.Some? && editingCategoryId.value != "" {
        var name := Trim(editingName);
        if name != "" {
          store.UpdateCategory(editingCategoryId.value, CategoryPatch(None, Some(name), None, None, None));
        }
      }
      editingCategoryId := None;
      editingName := "";
    }

    /** The cancel button leaves edit mode but keeps the typed name. */
    method CancelEdit()
      modifies this
      ensures editingCategoryId.None? && editingName == old(editingName)
      ensures showApiKey == old(showApiKey) && testingKey == old(testingKey) && keyStatus == old(keyStatus)
    {
      editingCategoryId := None;
    }
  }
}
