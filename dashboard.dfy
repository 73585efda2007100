/** The dashboard: three counters over all videos, then one section per
    category that has new videos, each with its new-video count and the
    first three of those videos as compact cards. */
module Dashboard {
  import opened Wrappers
  import opened Seqs
  import opened Types
  import StoreModel
  import CategoryViewPage

  type StoreState = StoreModel.StoreState

  /** The three counters: new videos, pending videos, videos with a summary. */
  datatype Stats = Stats(totalNew: nat, totalPending: nat, summaries: nat)

  /** A category's section: the category, how many new videos it has, and
      the cards it shows. */
  datatype Section = Section(category: Category, newCount: nat, preview: seq<Video>)

  const PreviewSize := 3

  predicate IsPending(v: Video)
  {
    v.status == Pending
  }

  function StatsOf(st: StoreState): Stats
  {
    Stats(|Filter(st.videos, IsNew)|, |Filter(st.videos, IsPending)|, |Filter(st.videos, HasSummary)|)
  }

  /** The new videos of a category, in store order. */
  function NewVideosOf(st: StoreState, categoryId: string): seq<Video>
  {
    Filter(StoreModel.VideosByCategory(st, categoryId), IsNew)
  }

  /** newVideos.slice(0, 3) */
  function Preview(videos: seq<Video>): (r: seq<Video>)
  {
    if |videos| <= PreviewSize then videos else videos[..PreviewSize]
  }

  /** The sections of the given categories, in their order; a category
      without new videos gives none. */
  function SectionsOf(st: StoreState, categories: seq<Category>): seq<Section>
  {
    if categories == [] then []
    else
      var c := categories[0];
      var newVideos := NewVideosOf(st, c.id);
      (if |newVideos| == 0 then [] else [Section(c, |newVideos|, Preview(newVideos))])
      + SectionsOf(st, categories[1..])
  }

  function Sections(st: StoreState): seq<Section>
  {
    SectionsOf(st, st.categories)
  }

  /** The new-videos counter is the store's getTotalNewVideos, and the new
      and pending counters never add up to more than the videos there are. */
  lemma StatsSpec(st: StoreState)
    ensures StatsOf(st).totalNew == StoreModel.TotalNewVideos(st)
    ensures StatsOf(st).totalNew + StatsOf(st).totalPending <= |st.videos|
    ensures StatsOf(st).summaries <= |st.videos|
  {
    FilterDisjoint(st.videos, IsNew, IsPending);
  }

  /** The preview holds the first min(3, n) videos. */
  lemma PreviewSpec(videos: seq<Video>)
    ensures |Preview(videos)| == if |videos| < PreviewSize then |videos| else PreviewSize
    ensures Preview(videos) == videos[..|Preview(videos)|]
  {
  }

  /** The cards come from the list they preview. */
  lemma PreviewMembers(videos: seq<Video>)
    ensures forall v :: v in Preview(videos) ==> v in videos
  {
  }

  /** Each section belongs to one of the categories, counts exactly the
      category's new videos as getNewVideosCount does, and shows one to
      three cards. */
  lemma {:induction false} SectionsOfSound(st: StoreState, categories: seq<Category>)
    ensures forall s :: s in SectionsOf(st, categories) ==>
      s.category in categories
      && s.newCount == StoreModel.NewVideosCount(st, s.category.id) > 0
      && 0 < |s.preview| <= PreviewSize
  {
    if categories != [] {
      var rest := SectionsOf(st, categories[1..]);
      SectionsOfSound(st, categories[1..]);
      var c := categories[0];
      var newVideos := NewVideosOf(st, c.id);
      if |newVideos| > 0 {
        var head := Section(c, |newVideos|, Preview(newVideos));
        assert SectionsOf(st, categories) == [head] + rest;
        forall s | s in SectionsOf(st, categories)
          ensures s.category in categories
          ensures s.newCount == StoreModel.NewVideosCount(st, s.category.id) > 0
          ensures 0 < |s.preview| <= PreviewSize
        {
          if s != head {
            assert s in rest;
          }
        }
      } else {
        assert SectionsOf(st, categories) == rest;
      }
    }
  }

  /** Each section previews the first (at most three) new videos of its
      category, in store order. */
  lemma {:induction false} SectionsPreviewFirst(st: StoreState, categories: seq<Category>)
    ensures forall s :: s in SectionsOf(st, categories) ==>
      s.preview <= NewVideosOf(st, s.category.id)
      && (|s.preview| == PreviewSize || s.preview == NewVideosOf(st, s.category.id))
  {
    if categories != [] {
      SectionsPreviewFirst(st, categories[1..]);
      var newVideos := NewVideosOf(st, categories[0].id);
      PreviewSpec(newVideos);
    }
  }

  /** Each section's cards are new videos of its category. */
  lemma SectionsPreviewNew(st: StoreState, categories: seq<Category>)
    ensures forall s :: s in SectionsOf(st, categories) ==>
      forall v :: v in s.preview ==> v in StoreModel.VideosByCategory(st, s.category.id) && IsNew(v)
  {
    SectionsPreviewFirst(st, categories);
    forall s, v | s in SectionsOf(st, categories) && v in s.preview
      ensures v in StoreModel.VideosByCategory(st, s.category.id) && IsNew(v)
    {
      var newVideos := NewVideosOf(st, s.category.id);
      var i :| 0 <= i < |s.preview| && s.preview[i] == v;
      assert newVideos[i] == v;
    }
  }

  /** Every section is of a category with new videos. */
  lemma {:induction false} SectionsHaveNewVideos(st: StoreState, categories: seq<Category>)
    ensures forall s :: s in SectionsOf(st, categories) ==> NewVideosOf(st, s.category.id) != []
  {
    if categories != [] {
      SectionsHaveNewVideos(st, categories[1..]);
    }
  }

  /** A category has a section exactly when it has a new video. */
  lemma {:induction false} SectionsOfComplete(st: StoreState, categories: seq<Category>)
    ensures forall c :: c in categories ==>
      (NewVideosOf(st, c.id) != [] <==> exists s :: s in SectionsOf(st, categories) && s.category == c)
  {
    if categories != [] {
      SectionsOfComplete(st, categories[1..]);
      var c := categories[0];
      var newVideos := NewVideosOf(st, c.id);
      var rest := SectionsOf(st, categories[1..]);
      if |newVideos| > 0 {
        var s := Section(c, |newVideos|, Preview(newVideos));
        assert SectionsOf(st, categories) == [s] + rest;
        assert s in SectionsOf(st, categories);
      } else {
        SectionsHaveNewVideos(st, categories[1..]);
        assert SectionsOf(st, categories) == rest;
      }
    }
  }

  lemma SectionsSpec(st: StoreState)
    ensures forall s :: s in Sections(st) ==>
      s.category in st.categories
      && s.newCount == StoreModel.NewVideosCount(st, s.category.id) > 0
      && forall v :: v in s.preview ==> v in st.videos && IsNew(v)
    ensures forall c :: c in st.categories ==>
      (StoreModel.NewVideosCount(st, c.id) > 0 <==> exists s :: s in Sections(st) && s.category == c)
  {
    SectionsOfSound(st, st.categories);
    SectionsPreviewNew(st, st.categories);
    SectionsOfComplete(st, st.categories);
  }

  /** Clicking a section's header selects its category: the category page
      is shown (for a non-empty id) and renders a category with that id. */
  lemma SectionClick(st: StoreState, s: Section, now: int)
    requires s in Sections(st) && s.category.id != ""
    ensures var after := StoreModel.SetActiveCategoryId(st, Some(s.category.id));
      after.activeView == CategoryView
      && CategoryViewPage.Render(after, now).Some?
      && CategoryViewPage.Render(after, now).value.category.id == s.category.id
  {
    SectionsSpec(st);
    var after := StoreModel.SetActiveCategoryId(st, Some(s.category.id));
    CategoryViewPage.RenderSpec(after, now);
  }
}
