/** The summary panel: the selected video's details, its summary or the
    button that generates one, and copying or downloading the summary.
    Generation is split at its 2.5-second wait: BeginGenerate runs on the
    click and remembers the video and the token count it read then;
    CompleteGenerate runs when the wait ends. The summary text is fixed
    apart from the title. */
module SummaryPanel {
  import opened Wrappers
  import opened Seqs
  import opened Types
  import opened Text
  import StoreModel
  import Store

  type StoreState = StoreModel.StoreState

  /** What a generation fixes at its click: the video, the summary text
      built from its title, and the token count read then. */
  datatype Job = Job(videoId: string, summary: string, tokensUsed: int)

  /** What the content area shows. */
  datatype Content = SummaryText | GeneratingNotice | GenerateButton

  /** The tokens each summary is charged. */
  const TokensPerSummary := 450
  const DownloadSuffix := "_resumen.md"

  /** The fixed part of every summary, after its title line. */
  const SummaryBody :=
    "\n\n"
    + "## \U{1F3AF} Puntos Clave\n\n"
    + "1. **Concepto principal**: Este video explora en profundidad los conceptos fundamentales del tema.\n\n"
    + "2. **Implementaci\U{00F3}n pr\U{00E1}ctica**: Se muestran ejemplos reales de c\U{00F3}mo aplicar estas ideas en proyectos del mundo real.\n\n"
    + "3. **Mejores pr\U{00E1}cticas**: El creador comparte consejos probados que ha aprendido a lo largo de su carrera.\n\n"
    + "## \U{1F4CC} Momentos Destacados\n\n"
    + "> \"La clave del \U{00E9}xito no est\U{00E1} en la cantidad de trabajo, sino en la calidad de tu enfoque.\"\n\n"
    + "### Herramientas mencionadas\n"
    + "- Herramienta A - para gesti\U{00F3}n\n"
    + "- Herramienta B - para automatizaci\U{00F3}n\n"
    + "- Herramienta C - para an\U{00E1}lisis\n\n"
    + "## \U{26A1} Conclusiones\n\n"
    + "- Enf\U{00F3}cate en lo esencial antes de a\U{00F1}adir complejidad\n"
    + "- Mide resultados constantemente\n"
    + "- Itera bas\U{00E1}ndote en datos, no en suposiciones\n\n"
    + "## \U{1F517} Recursos\n\n"
    + "- [Documentaci\U{00F3}n oficial](#)\n"
    + "- [Tutorial complementario](#)\n\n"
    + "---\n\n"
    + "*Resumen generado autom\U{00E1}ticamente. Tokens utilizados: ~450*"

  /** The summary generated for a video with the given title. */
  function SummaryFor(title: string): string
  {
    "# " + title + SummaryBody
  }

  /** video.id === selectedVideoId */
  function VideoIdIs(id: Option<string>): Video -> bool
  {
    (v: Video) => Some(v.id) == id
  }

  /** videos.find(v => v.id === selectedVideoId) */
  function SelectedVideo(st: StoreState): (r: Option<Video>)
    ensures r.Some? <==> exists v :: v in st.videos && Some(v.id) == st.selectedVideoId
    ensures r.Some? ==> r.value in st.videos && Some(r.value.id) == st.selectedVideoId
  {
    Find(st.videos, VideoIdIs(st.selectedVideoId))
  }

  /** The panel is on screen when it is open and the selected video exists. */
  predicate Visible(st: StoreState)
  {
    st.isSummaryPanelOpen && SelectedVideo(st).Some?
  }

  /** The content area for a video: its summary if it has one, else the
      progress notice while generating, else the generate button. */
  function ContentFor(v: Video, isGenerating: bool): Content
  {
    if HasSummary(v) then SummaryText else if isGenerating then GeneratingNotice else GenerateButton
  }

  /** The generate button's disabled test, !settings.claudeApiKey && false. */
  predicate GenerateDisabled(settings: AppSettings)
  {
    settings.claudeApiKey == "" && false
  }

  /** The character the download name keeps for c: ASCII letters and digits
      lower-cased, anything else '_'. */
  function SafeChar(c: char): char
  {
    if IsAsciiAlnum(c) then LowerChar(c) else '_'
  }

  /** title.replace(/[^a-z0-9]/gi, '_').toLowerCase() + '_resumen.md' */
  function DownloadName(title: string): string
  {
    seq(|title|, i requires 0 <= i < |title| => SafeChar(title[i])) + DownloadSuffix
  }

  /** The file the download button saves: its name and the summary, when
      the selected video has a summary. */
  function DownloadFile(st: StoreState): Option<(string, string)>
  {
    var v := SelectedVideo(st);
    if v.Some? && HasSummary(v.value) then Some((DownloadName(v.value.title), v.value.summary.value)) else None
  }

  /** The state after a generation completes: the summary stored on the
      video and the tokens charged on top of the count read at the click. */
  function Generated(st: StoreState, job: Job, stamp: string): StoreState
  {
    StoreModel.UpdateSettings(StoreModel.SetVideoSummary(st, job.videoId, job.summary, stamp),
                              SettingsPatch(None, None, None, Some(job.tokensUsed + TokensPerSummary)))
  }

  /** The generate button is never disabled. */
  lemma GenerateAlwaysEnabled(settings: AppSettings)
    ensures !GenerateDisabled(settings)
  {
  }

  /** A generated summary starts with the title line and is never empty, so
      the video counts as having one. */
  lemma SummaryForSpec(title: string)
    ensures SummaryFor(title)[..2 + |title|] == "# " + title
    ensures SummaryFor(title) != ""
  {
    assert SummaryFor(title)[0] == '#';
  }

  /** The download name keeps one character per title character: ASCII
      letters and digits lower-cased, everything else '_'; then the fixed
      suffix. */
  lemma DownloadNameSpec(title: string)
    ensures |DownloadName(title)| == |title| + 11
    ensures DownloadName(title)[|title|..] == "_resumen.md"
    ensures forall i :: 0 <= i < |title| ==>
      (IsAsciiAlnum(title[i]) ==> DownloadName(title)[i] == LowerChar(title[i]))
      && (!IsAsciiAlnum(title[i]) ==> DownloadName(title)[i] == '_')
    ensures forall i :: 0 <= i < |title| ==> DownloadName(title)[i] == '_' || (IsAsciiAlnum(DownloadName(title)[i]) && !IsAsciiUpper(DownloadName(title)[i]))
  {
  }

  /** Cleaning a cleaned title changes nothing. */
  lemma DownloadNameStable(title: string)
    ensures DownloadName(DownloadName(title)[..|title|]) == DownloadName(title)
  {
    var safe := DownloadName(title)[..|title|];
    assert forall i :: 0 <= i < |safe| ==> SafeChar(safe[i]) == safe[i];
  }

  /** There is something to copy or download exactly when the selected video
      exists and has a summary. */
  lemma DownloadNeedsSummary(st: StoreState)
    ensures DownloadFile(st).Some? <==> SelectedVideo(st).Some? && HasSummary(SelectedVideo(st).value)
    ensures DownloadFile(st).Some? ==> DownloadFile(st).value.1 == SelectedVideo(st).value.summary.value
  {
  }

  /** Selecting a video with a non-empty id opens the panel on it; closing
      the panel hides it and clears the selection. */
  lemma SelectOpensPanel(st: StoreState, v: Video)
    requires v in st.videos && v.id != ""
    ensures Visible(StoreModel.SetSelectedVideoId(st, Some(v.id)))
    ensures SelectedVideo(StoreModel.SetSelectedVideoId(st, Some(v.id))).value.id == v.id
    ensures Visible(st) ==>
      !Visible(StoreModel.ToggleSummaryPanel(st)) && StoreModel.ToggleSummaryPanel(st).selectedVideoId.None?
  {
  }

  /** Storing a summary text and a token count: the text lands on every
      video with the id and on no other, the count replaces the old one,
      and nothing else changes. */
  lemma StoredSpec(st: StoreState, videoId: string, text: string, stamp: string, tokens: int)
    ensures var r := StoreModel.UpdateSettings(StoreModel.SetVideoSummary(st, videoId, text, stamp),
                                              SettingsPatch(None, None, None, Some(tokens)));
      |r.videos| == |st.videos|
      && (forall i :: 0 <= i < |st.videos| ==>
            if st.videos[i].id == videoId
            then r.videos[i] == st.videos[i].(summary := Some(text), summaryGeneratedAt := Some(stamp))
            else r.videos[i] == st.videos[i])
      && r.settings == st.settings.(tokensUsed := tokens)
      && r == st.(videos := r.videos, settings := r.settings)
  {
  }

  /** After storing a summary for the video the panel shows, the panel
      shows that video with that summary. */
  lemma StoredIsShown(st: StoreState, videoId: string, text: string, stamp: string, tokens: int)
    requires SelectedVideo(st).Some? && SelectedVideo(st).value.id == videoId
    ensures var r := StoreModel.UpdateSettings(StoreModel.SetVideoSummary(st, videoId, text, stamp),
                                              SettingsPatch(None, None, None, Some(tokens)));
      SelectedVideo(r).Some? && SelectedVideo(r).value.summary == Some(text)
  {
    var r := StoreModel.UpdateSettings(StoreModel.SetVideoSummary(st, videoId, text, stamp),
                                       SettingsPatch(None, None, None, Some(tokens)));
    StoredSpec(st, videoId, text, stamp, tokens);
    FindIndexAgree(st.videos, r.videos, VideoIdIs(st.selectedVideoId));
  }

  /** A completed generation stores the job's summary on the job's video,
      and charges 450 tokens on top of the count read at the click. */
  lemma GeneratedSpec(st: StoreState, job: Job, stamp: string)
    ensures var r := Generated(st, job, stamp);
      |r.videos| == |st.videos|
      && (forall i :: 0 <= i < |st.videos| ==>
            if st.videos[i].id == job.videoId
            then r.videos[i] == st.videos[i].(summary := Some(job.summary), summaryGeneratedAt := Some(stamp))
            else r.videos[i] == st.videos[i])
      && r.settings == st.settings.(tokensUsed := job.tokensUsed + 450)
      && r == st.(videos := r.videos, settings := r.settings)
  {
    StoredSpec(st, job.videoId, job.summary, stamp, job.tokensUsed + TokensPerSummary);
  }

  /** After generating for the video the panel shows, the panel shows the
      generated summary. */
  lemma GeneratedIsShown(st: StoreState, job: Job, stamp: string)
    requires SelectedVideo(st).Some? && SelectedVideo(st).value.id == job.videoId
    requires job.summary != ""
    ensures var r := Generated(st, job, stamp);
      SelectedVideo(r).Some? && SelectedVideo(r).value.summary == Some(job.summary)
      && ContentFor(SelectedVideo(r).value, false) == SummaryText
  {
    StoredIsShown(st, job.videoId, job.summary, stamp, job.tokensUsed + TokensPerSummary);
  }

  /** Two generations that read the same token count charge it once: the
      count is read at the click, not when the summary is stored. */
  lemma StaleTokenCount(st: StoreState, job: Job, stamp1: string, stamp2: string)
    ensures Generated(Generated(st, job, stamp1), job, stamp2).settings.tokensUsed == job.tokensUsed + 450
  {
  }

  /** The panel's own state. */
  class Panel {
    var isGenerating: bool
    var copied: bool

    constructor ()
      ensures !isGenerating && !copied
    {
      isGenerating := false;
      copied := false;
    }

    /** The generate click: nothing without a selected video; otherwise the
        panel starts generating and remembers the video and the token
        count. */
    method BeginGenerate(store: Store.Store) returns (job: Option<Job>)
      modifies this
      ensures job.None? <==> SelectedVideo(store.State()).None?
      ensures job.Some? ==>
        var v := SelectedVideo(store.State()).value;
        job.value == Job(v.id, SummaryFor(v.title), store.settings.tokensUsed) && isGenerating
      ensures job.None? ==> isGenerating == old(isGenerating)
      ensures copied == old(copied)
    {
      var video := Find(store.videos, VideoIdIs(store.selectedVideoId));
      assert video == SelectedVideo(store.State());
      if video.None? {
        return None;
      }
      isGenerating := true;
      job := Some(Job(video.value.id, SummaryFor(video.value.title), store.settings.tokensUsed));
    }

    /** The end of the wait: store the summary, charge the tokens, stop
        generating. `stamp` is the ISO text of the current time. */
    method CompleteGenerate(store: Store.Store, job: Job, stamp: string)
      modifies this, store
      ensures store.State() == Generated(old(store.State()), job, stamp)
      ensures !isGenerating && copied == old(copied)
    {
      store.SetVideoSummary(job.videoId, job.summary, stamp);
      store.UpdateSettings(SettingsPatch(None, None, None, Some(job.tokensUsed + TokensPerSummary)));
      isGenerating := false;
    }

    /** handleCopy: the text put on the clipboard, if the video has a
        summary; the button then reads 'Copiado!'. */
    method Copy(store: Store.Store) returns (clipboard: Option<string>)
      modifies this
      ensures var v := SelectedVideo(store.State());
        clipboard == (if v.Some? && HasSummary(v.value) then Some(v.value.summary.value) else None)
      ensures copied == (old(copied) || clipboard.Some?)
      ensures isGenerating == old(isGenerating)
    {
      var video := Find(store.videos, VideoIdIs(store.selectedVideoId));
      assert video == SelectedVideo(store.State());
      if video.Some? && HasSummary(video.value) {
        clipboard := Some(video.value.summary.value);
        copied := true;
      } else {
        clipboard := None;
      }
    }
  }
}
