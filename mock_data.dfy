/** The seed data the store starts from when nothing is persisted: four
    categories, six channels, twenty-nine videos and the default settings.
    Publication times are the seed's ISO stamps as epoch milliseconds. */
module MockData {
  import opened Wrappers
  import opened Seqs
  import opened Text
  import opened Types
  import StoreModel

  const DevopsCategory := Category("devops", "DevOps", "Server", "#22c55e", true)
  const YoutubeGrowthCategory := Category("youtube-growth", "YouTube Growth", "TrendingUp", "#f43f5e", true)
  const UxUiCategory := Category("ux-ui", "UX/UI", "Palette", "#8b5cf6", false)
  const PersonalCategory := Category("personal", "Personal", "User", "#06b6d4", false)

  const NanaChannel := Channel("nana", "TechWorld with Nana",
    "https://i.pravatar.cc/100?u=nana",
    "devops", "https://youtube.com/@TechWorldwithNana", 5)
  const DevopsToolkitChannel := Channel("devops-toolkit", "DevOps Toolkit",
    "https://i.pravatar.cc/100?u=devops",
    "devops", "https://youtube.com/@DevOpsToolkit", 4)
  const AliAbdaalChannel := Channel("ali-abdaal", "Ali Abdaal",
    "https://i.pravatar.cc/100?u=ali",
    "youtube-growth", "https://youtube.com/@aliabdaal", 6)
  const ThinkMediaChannel := Channel("think-media", "Think Media",
    "https://i.pravatar.cc/100?u=think",
    "youtube-growth", "https://youtube.com/@ThinkMedia", 5)
  const AjSmartChannel := Channel("aj-smart", "AJ&Smart",
    "https://i.pravatar.cc/100?u=aj",
    "ux-ui", "https://youtube.com/@AJSmart", 4)
  const TheFuturChannel := Channel("the-futur", "The Futur",
    "https://i.pravatar.cc/100?u=futur",
    "ux-ui", "https://youtube.com/@thefutur", 5)

  /** published 2024-01-12T10:00:00Z */
  const V1 := Video("v1", "Kubernetes Tutorial for Beginners - Full Course in 4 Hours", "nana", "TechWorld with Nana",
    "https://picsum.photos/seed/k8s/320/180", "4:02:15", 14535, 1705053600000, New, true,
    None, None)
  /** published 2024-01-11T14:00:00Z */
  const V2 := Video("v2", "Docker Compose Tutorial - Complete Guide", "nana", "TechWorld with Nana",
    "https://picsum.photos/seed/docker/320/180", "1:45:30", 6330, 1704981600000, New, true,
    None, None)
  /** published 2024-01-10T09:00:00Z */
  const V3 := Video("v3", "GitOps with ArgoCD - Production Setup", "nana", "TechWorld with Nana",
    "https://picsum.photos/seed/argo/320/180", "58:22", 3502, 1704877200000, Watched, true,
    None, None)
  /** published 2024-01-08T11:00:00Z */
  const V4 := Video("v4", "Terraform Best Practices 2024", "nana", "TechWorld with Nana",
    "https://picsum.photos/seed/tf/320/180", "45:10", 2710, 1704711600000, Pending, false,
    None, None)
  /** published 2024-01-05T16:00:00Z */
  const V5 := Video("v5", "CI/CD Pipeline with GitHub Actions", "nana", "TechWorld with Nana",
    "https://picsum.photos/seed/ghactions/320/180", "1:12:45", 4365, 1704470400000, NotInterested, true,
    None, None)
  /** published 2024-01-13T08:00:00Z */
  const V6 := Video("v6", "Platform Engineering in 2024", "devops-toolkit", "DevOps Toolkit",
    "https://picsum.photos/seed/platform/320/180", "32:18", 1938, 1705132800000, New, true,
    None, None)
  /** published 2024-01-12T15:00:00Z */
  const V7Summary: string :=
    "# Crossplane vs Terraform: Key Insights\n"
    + "\n"
    + "## \U{1F3AF} Main Takeaways\n"
    + "\n"
    + "1. **Crossplane** excels at Kubernetes-native infrastructure"
    + "\n"
    + "2. **Terraform** remains king for multi-cloud setups\n"
    + "3. Both can coexist in enterprise environments\n"
    + "\n"
    + "## \U{26A1} Quick Comparison\n"
    + "\n"
    + "| Feature | Crossplane | Terraform |\n"
    + "|---------|------------|----------|\n"
    + "| Learning curve | Steeper | Moderate |\n"
    + "| K8s integration | Native | Via provider |\n"
    + "| State management | In-cluster | External |\n"
    + "\n"
    + "## \U{1F4CC} Recommendation\n"
    + "\n"
    + "Start with Terraform for general IaC, add Crossplane when yo"
    + "u need GitOps-native resource management."
  const V7 := Video("v7", "Crossplane vs Terraform - Which One?", "devops-toolkit", "DevOps Toolkit",
    "https://picsum.photos/seed/cross/320/180", "28:45", 1725, 1705071600000, New, true,
    Some(V7Summary), Some("2024-01-12T16:30:00Z"))
  /** published 2024-01-09T12:00:00Z */
  const V8 := Video("v8", "Backstage Developer Portal Setup", "devops-toolkit", "DevOps Toolkit",
    "https://picsum.photos/seed/backstage/320/180", "41:22", 2482, 1704801600000, Pending, true,
    None, None)
  /** published 2024-01-06T10:00:00Z */
  const V9 := Video("v9", "Kyverno Policy Engine Deep Dive", "devops-toolkit", "DevOps Toolkit",
    "https://picsum.photos/seed/kyverno/320/180", "35:55", 2155, 1704535200000, Watched, false,
    None, None)
  /** published 2024-01-13T06:00:00Z */
  const V10 := Video("v10", "How I Made $5M on YouTube Last Year", "ali-abdaal", "Ali Abdaal",
    "https://picsum.photos/seed/money/320/180", "22:15", 1335, 1705125600000, New, true,
    None, None)
  /** published 2024-01-12T09:00:00Z */
  const V11Summary: string :=
    "# YouTube Workflow in Notion\n"
    + "\n"
    + "## \U{1F4DD} System Overview\n"
    + "\n"
    + "Ali shares his team\'s content pipeline:\n"
    + "\n"
    + "### Stages\n"
    + "1. **Ideation** \U{2192} Capture ideas in database\n"
    + "2. **Research** \U{2192} Link sources and outlines\n"
    + "3. **Script** \U{2192} Draft with AI assistance\n"
    + "4. **Production** \U{2192} Track filming/editing\n"
    + "5. **Post** \U{2192} Schedule and monitor\n"
    + "\n"
    + "## \U{1F511} Key Templates\n"
    + "\n"
    + "- Video Database with custom properties\n"
    + "- Linked content calendar\n"
    + "- Analytics dashboard\n"
    + "\n"
    + "## \U{1F4A1} Pro Tip\n"
    + "\n"
    + "> Use Relations to connect ideas to published videos for con"
    + "tent repurposing."
  const V11 := Video("v11", "The Perfect YouTube Workflow in Notion", "ali-abdaal", "Ali Abdaal",
    "https://picsum.photos/seed/notion/320/180", "18:42", 1122, 1705050000000, New, true,
    Some(V11Summary), Some("2024-01-12T10:00:00Z"))
  /** published 2024-01-10T14:00:00Z */
  const V12 := Video("v12", "Why Most YouTube Channels Fail", "ali-abdaal", "Ali Abdaal",
    "https://picsum.photos/seed/fail/320/180", "25:30", 1530, 1704895200000, Pending, true,
    None, None)
  /** published 2024-01-07T11:00:00Z */
  const V13 := Video("v13", "My Camera Setup for 2024", "ali-abdaal", "Ali Abdaal",
    "https://picsum.photos/seed/camera/320/180", "15:18", 918, 1704625200000, NotInterested, true,
    None, None)
  /** published 2024-01-04T08:00:00Z */
  const V14 := Video("v14", "How to Edit Videos 10x Faster", "ali-abdaal", "Ali Abdaal",
    "https://picsum.photos/seed/edit/320/180", "19:45", 1185, 1704355200000, Watched, true,
    None, None)
  /** published 2024-01-02T12:00:00Z */
  const V15 := Video("v15", "The Science of Viral Thumbnails", "ali-abdaal", "Ali Abdaal",
    "https://picsum.photos/seed/thumb/320/180", "21:10", 1270, 1704196800000, Watched, false,
    None, None)
  /** published 2024-01-13T11:00:00Z */
  const V16 := Video("v16", "Best Budget Camera for YouTube 2024", "think-media", "Think Media",
    "https://picsum.photos/seed/budget/320/180", "16:22", 982, 1705143600000, New, true,
    None, None)
  /** published 2024-01-11T08:00:00Z */
  const V17 := Video("v17", "YouTube Algorithm Secrets Revealed", "think-media", "Think Media",
    "https://picsum.photos/seed/algo/320/180", "24:55", 1495, 1704960000000, New, true,
    None, None)
  /** published 2024-01-09T15:00:00Z */
  const V18 := Video("v18", "Lighting Setup Under $100", "think-media", "Think Media",
    "https://picsum.photos/seed/light/320/180", "12:30", 750, 1704812400000, Watched, true,
    None, None)
  /** published 2024-01-06T13:00:00Z */
  const V19 := Video("v19", "How to Get Your First 1000 Subscribers", "think-media", "Think Media",
    "https://picsum.photos/seed/subs/320/180", "28:15", 1695, 1704546000000, Pending, true,
    None, None)
  /** published 2024-01-03T10:00:00Z */
  const V20 := Video("v20", "YouTube Shorts Strategy That Works", "think-media", "Think Media",
    "https://picsum.photos/seed/shorts/320/180", "18:40", 1120, 1704276000000, New, false,
    None, None)
  /** published 2024-01-12T07:00:00Z */
  const V21 := Video("v21", "Design Sprint in 60 Minutes", "aj-smart", "AJ&Smart",
    "https://picsum.photos/seed/sprint/320/180", "58:30", 3510, 1705042800000, New, true,
    None, None)
  /** published 2024-01-10T11:00:00Z */
  const V22 := Video("v22", "Figma Tips No One Talks About", "aj-smart", "AJ&Smart",
    "https://picsum.photos/seed/figma/320/180", "22:18", 1338, 1704884400000, Pending, true,
    None, None)
  /** published 2024-01-07T14:00:00Z */
  const V23 := Video("v23", "User Research on a Budget", "aj-smart", "AJ&Smart",
    "https://picsum.photos/seed/research/320/180", "31:45", 1905, 1704636000000, Watched, true,
    None, None)
  /** published 2024-01-04T09:00:00Z */
  const V24 := Video("v24", "The Best UX Portfolio Examples", "aj-smart", "AJ&Smart",
    "https://picsum.photos/seed/portfolio/320/180", "19:22", 1162, 1704358800000, New, false,
    None, None)
  /** published 2024-01-13T09:00:00Z */
  const V25 := Video("v25", "Pricing Design Services in 2024", "the-futur", "The Futur",
    "https://picsum.photos/seed/pricing/320/180", "45:12", 2712, 1705136400000, New, true,
    None, None)
  /** published 2024-01-11T13:00:00Z */
  const V26 := Video("v26", "Client Red Flags to Watch For", "the-futur", "The Futur",
    "https://picsum.photos/seed/client/320/180", "28:55", 1735, 1704978000000, Pending, true,
    None, None)
  /** published 2024-01-08T10:00:00Z */
  const V27 := Video("v27", "Building a Design Agency", "the-futur", "The Futur",
    "https://picsum.photos/seed/agency/320/180", "52:30", 3150, 1704708000000, Watched, true,
    None, None)
  /** published 2024-01-05T15:00:00Z */
  const V28 := Video("v28", "Logo Design Process Explained", "the-futur", "The Futur",
    "https://picsum.photos/seed/logo/320/180", "38:18", 2298, 1704466800000, New, true,
    None, None)
  /** published 2024-01-02T08:00:00Z */
  const V29 := Video("v29", "Freelance vs Full-Time Design", "the-futur", "The Futur",
    "https://picsum.photos/seed/freelance/320/180", "33:42", 2022, 1704182400000, NotInterested, false,
    None, None)

  const SeedCategories: seq<Category> := [DevopsCategory, YoutubeGrowthCategory, UxUiCategory, PersonalCategory]
  const SeedChannels: seq<Channel> := [NanaChannel, DevopsToolkitChannel, AliAbdaalChannel, ThinkMediaChannel, AjSmartChannel, TheFuturChannel]
  const NanaVideos: seq<Video> := [V1, V2, V3, V4, V5]
  const DevopsToolkitVideos: seq<Video> := [V6, V7, V8, V9]
  const AliAbdaalVideos: seq<Video> := [V10, V11, V12, V13, V14, V15]
  const ThinkMediaVideos: seq<Video> := [V16, V17, V18, V19, V20]
  const AjSmartVideos: seq<Video> := [V21, V22, V23, V24]
  const TheFuturVideos: seq<Video> := [V25, V26, V27, V28, V29]
  const SeedVideos: seq<Video> :=
    NanaVideos + DevopsToolkitVideos + AliAbdaalVideos + ThinkMediaVideos + AjSmartVideos + TheFuturVideos
  const SeedPrompt: string :=
    "Eres un asistente experto en resumir videos de "
    + "YouTube. Tu tarea es crear un resumen conciso "
    + "y \U{00FA}til del contenido.\n"
    + "\n"
    + "Formato del resumen:\n"
    + "1. Usa markdown con headers, listas y emojis\n"
    + "2. Incluye los puntos clave principales (m\U{00E1}ximo "
    + "5)\n"
    + "3. A\U{00F1}ade citas textuales importantes si las hay\n"
    + "4. Incluye una secci\U{00F3}n de \"Conclusiones\" o \"Para "
    + "recordar\"\n"
    + "5. Si es tutorial, lista los pasos principales\n"
    + "6. Mant\U{00E9}n el resumen en menos de 500 palabras\n"
    + "\n"
    + "Objetivo: Que el lector obtenga el 80% del valor "
    + "del video en 2 minutos de lectura."
  const SeedSettings := AppSettings("", SeedPrompt, 100000, 12450)

  const Seed := StoreModel.Snapshot(SeedCategories, SeedChannels, SeedVideos, SeedSettings)

  /** The value of two decimal digits. */
  function TwoDigits(tens: char, ones: char): int
  {
    (tens as int - '0' as int) * 10 + (ones as int - '0' as int)
  }

  /** The seconds a duration string denotes, for the two forms the seed
      uses: "MM:SS" (such as "58:22") and "H:MM:SS" (such as "4:02:15");
      None for any other shape. */
  function ClockSeconds(s: string): Option<int>
  {
    if |s| == 5 && s[2] == ':' && IsDigit(s[0]) && IsDigit(s[1]) && IsDigit(s[3]) && IsDigit(s[4]) then
      Some(TwoDigits(s[0], s[1]) * 60 + TwoDigits(s[3], s[4]))
    else if |s| == 7 && s[1] == ':' && s[4] == ':' && IsDigit(s[0]) && IsDigit(s[2]) && IsDigit(s[3])
                     && IsDigit(s[5]) && IsDigit(s[6]) then
      Some(DigitValue(s[0]) * 3600 + TwoDigits(s[2], s[3]) * 60 + TwoDigits(s[5], s[6]))
    else
      None
  }

  /** How many of the videos carry the channel id. */
  function VideosOfChannel(videos: seq<Video>, channelId: string): nat
  {
    |Filter(videos, StoreModel.OnChannel(channelId))|
  }

  predicate AllVideos(vs: seq<Video>, p: Video -> bool)
  {
    forall v :: v in vs ==> p(v)
  }

  predicate DistinctVideoIds(vs: seq<Video>)
  {
    forall i, j :: 0 <= i < j < |vs| ==> vs[i].id != vs[j].id
  }

  predicate DisjointVideoIds(a: seq<Video>, b: seq<Video>)
  {
    forall x, y :: x in a && y in b ==> x.id != y.id
  }

  /** The duration string denotes the duration in seconds. */
  predicate DurationAgrees(v: Video)
  {
    ClockSeconds(v.duration) == Some(v.durationSeconds)
  }

  /** The video's channel is a seed channel. */
  predicate HasSeedChannel(v: Video)
  {
    StoreModel.HasChannel(SeedChannels, v.channelId)
  }

  /** The video repeats the name of its seed channel. */
  predicate NamedAfterSeedChannel(v: Video)
  {
    forall ch :: ch in SeedChannels && ch.id == v.channelId ==> v.channelName == ch.name
  }

  /** A summary comes with the time it was generated. */
  predicate StampedIfSummarized(v: Video)
  {
    v.summary.Some? ==> v.summaryGeneratedAt.Some?
  }

  // ---------------------------------------------------------------------
  // Facts about any six lists, used for the six channel groups

  lemma AllOfSix(a: seq<Video>, b: seq<Video>, c: seq<Video>, d: seq<Video>, e: seq<Video>, f: seq<Video>, p: Video -> bool)
    requires AllVideos(a, p) && AllVideos(b, p) && AllVideos(c, p)
    requires AllVideos(d, p) && AllVideos(e, p) && AllVideos(f, p)
    ensures AllVideos(a + b + c + d + e + f, p)
  {
  }

  lemma FilterOfSix(a: seq<Video>, b: seq<Video>, c: seq<Video>, d: seq<Video>, e: seq<Video>, f: seq<Video>, p: Video -> bool)
    ensures Filter(a + b + c + d + e + f, p)
            == Filter(a, p) + Filter(b, p) + Filter(c, p) + Filter(d, p) + Filter(e, p) + Filter(f, p)
  {
    FilterAppend(a, b, p);
    FilterAppend(a + b, c, p);
    FilterAppend(a + b + c, d, p);
    FilterAppend(a + b + c + d, e, p);
    FilterAppend(a + b + c + d + e, f, p);
  }

  lemma DistinctAppend(a: seq<Video>, b: seq<Video>)
    requires DistinctVideoIds(a) && DistinctVideoIds(b) && DisjointVideoIds(a, b)
    ensures DistinctVideoIds(a + b)
  {
    var ab := a + b;
    forall i, j | 0 <= i < j < |ab| ensures ab[i].id != ab[j].id {
      if j < |a| {
        assert ab[i] == a[i] && ab[j] == a[j];
      } else if i >= |a| {
        assert ab[i] == b[i - |a|] && ab[j] == b[j - |a|];
      } else {
        assert ab[i] == a[i] && ab[j] == b[j - |a|];
        assert ab[i] in a && ab[j] in b;
      }
    }
  }

  lemma DistinctOfSix(a: seq<Video>, b: seq<Video>, c: seq<Video>, d: seq<Video>, e: seq<Video>, f: seq<Video>)
    requires DistinctVideoIds(a) && DistinctVideoIds(b) && DistinctVideoIds(c)
    requires DistinctVideoIds(d) && DistinctVideoIds(e) && DistinctVideoIds(f)
    requires DisjointVideoIds(a, b) && DisjointVideoIds(a, c) && DisjointVideoIds(a, d)
    requires DisjointVideoIds(a, e) && DisjointVideoIds(a, f) && DisjointVideoIds(b, c)
    requires DisjointVideoIds(b, d) && DisjointVideoIds(b, e) && DisjointVideoIds(b, f)
    requires DisjointVideoIds(c, d) && DisjointVideoIds(c, e) && DisjointVideoIds(c, f)
    requires DisjointVideoIds(d, e) && DisjointVideoIds(d, f) && DisjointVideoIds(e, f)
    ensures DistinctVideoIds(a + b + c + d + e + f)
  {
    DistinctAppend(a, b);
    DistinctAppend(a + b, c);
    DistinctAppend(a + b + c, d);
    DistinctAppend(a + b + c + d, e);
    DistinctAppend(a + b + c + d + e, f);
  }

  // ---------------------------------------------------------------------
  // The channel groups

  lemma V1Clock()
    ensures ClockSeconds(V1.duration) == Some(V1.durationSeconds)
  {
  }

  lemma V2Clock()
    ensures ClockSeconds(V2.duration) == Some(V2.durationSeconds)
  {
  }

  lemma V3Clock()
    ensures ClockSeconds(V3.duration) == Some(V3.durationSeconds)
  {
  }

  lemma V4Clock()
    ensures ClockSeconds(V4.duration) == Some(V4.durationSeconds)
  {
  }

  lemma V5Clock()
    ensures ClockSeconds(V5.duration) == Some(V5.durationSeconds)
  {
  }

  lemma NanaDurations()
    ensures AllVideos(NanaVideos, DurationAgrees)
  {
    V1Clock();
    V2Clock();
    V3Clock();
    V4Clock();
    V5Clock();
  }

  lemma NanaChannelIds()
    ensures forall v :: v in NanaVideos ==> v.channelId == NanaChannel.id
  {
  }

  lemma NanaNames()
    ensures forall v :: v in NanaVideos ==> v.channelName == NanaChannel.name
  {
  }

  lemma NanaStamped()
    ensures AllVideos(NanaVideos, StampedIfSummarized)
  {
  }

  lemma NanaDistinct()
    ensures DistinctVideoIds(NanaVideos)
  {
  }

  lemma NanaHasChannel()
    ensures AllVideos(NanaVideos, HasSeedChannel)
  {
    NanaChannelIds();
    assert NanaChannel in SeedChannels;
  }

  lemma NanaNamed()
    ensures AllVideos(NanaVideos, NamedAfterSeedChannel)
  {
    NanaChannelIds();
    NanaNames();
  }

  /** Filtering Nana's videos by any channel id keeps them all or none. */
  lemma NanaOnChannel(channelId: string)
    ensures Filter(NanaVideos, StoreModel.OnChannel(channelId)) == if channelId == NanaChannel.id then NanaVideos else []
  {
    NanaChannelIds();
    if channelId == NanaChannel.id {
      FilterKeepsAll(NanaVideos, StoreModel.OnChannel(channelId));
    } else {
      FilterDropsAll(NanaVideos, StoreModel.OnChannel(channelId));
    }
  }

  /** Filtering Nana's videos by a list of channel ids keeps them all or none. */
  lemma NanaFromChannels(ids: seq<string>)
    ensures Filter(NanaVideos, StoreModel.FromChannels(ids)) == if NanaChannel.id in ids then NanaVideos else []
  {
    NanaChannelIds();
    if NanaChannel.id in ids {
      FilterKeepsAll(NanaVideos, StoreModel.FromChannels(ids));
    } else {
      FilterDropsAll(NanaVideos, StoreModel.FromChannels(ids));
    }
  }

  /** Nana's videoCount is the number of seed videos carrying its id. */
  lemma NanaCount()
    ensures VideosOfChannel(SeedVideos, NanaChannel.id) == NanaChannel.videoCount
  {
    FilterOfSix(NanaVideos, DevopsToolkitVideos, AliAbdaalVideos, ThinkMediaVideos, AjSmartVideos, TheFuturVideos, StoreModel.OnChannel(NanaChannel.id));
    NanaOnChannel(NanaChannel.id);
    DevopsToolkitOnChannel(NanaChannel.id);
    AliAbdaalOnChannel(NanaChannel.id);
    ThinkMediaOnChannel(NanaChannel.id);
    AjSmartOnChannel(NanaChannel.id);
    TheFuturOnChannel(NanaChannel.id);
  }

  lemma V6Clock()
    ensures ClockSeconds(V6.duration) == Some(V6.durationSeconds)
  {
  }

  lemma V7Clock()
    ensures ClockSeconds(V7.duration) == Some(V7.durationSeconds)
  {
  }

  lemma V8Clock()
    ensures ClockSeconds(V8.duration) == Some(V8.durationSeconds)
  {
  }

  lemma V9Clock()
    ensures ClockSeconds(V9.duration) == Some(V9.durationSeconds)
  {
  }

  lemma DevopsToolkitDurations()
    ensures AllVideos(DevopsToolkitVideos, DurationAgrees)
  {
    V6Clock();
    V7Clock();
    V8Clock();
    V9Clock();
  }

  lemma DevopsToolkitChannelIds()
    ensures forall v :: v in DevopsToolkitVideos ==> v.channelId == DevopsToolkitChannel.id
  {
  }

  lemma DevopsToolkitNames()
    ensures forall v :: v in DevopsToolkitVideos ==> v.channelName == DevopsToolkitChannel.name
  {
  }

  lemma DevopsToolkitStamped()
    ensures AllVideos(DevopsToolkitVideos, StampedIfSummarized)
  {
  }

  lemma DevopsToolkitDistinct()
    ensures DistinctVideoIds(DevopsToolkitVideos)
  {
  }

  lemma DevopsToolkitHasChannel()
    ensures AllVideos(DevopsToolkitVideos, HasSeedChannel)
  {
    DevopsToolkitChannelIds();
    assert DevopsToolkitChannel in SeedChannels;
  }

  lemma DevopsToolkitNamed()
    ensures AllVideos(DevopsToolkitVideos, NamedAfterSeedChannel)
  {
    DevopsToolkitChannelIds();
    DevopsToolkitNames();
  }

  /** Filtering DevopsToolkit's videos by any channel id keeps them all or none. */
  lemma DevopsToolkitOnChannel(channelId: string)
    ensures Filter(DevopsToolkitVideos, StoreModel.OnChannel(channelId)) == if channelId == DevopsToolkitChannel.id then DevopsToolkitVideos else []
  {
    DevopsToolkitChannelIds();
    if channelId == DevopsToolkitChannel.id {
      FilterKeepsAll(DevopsToolkitVideos, StoreModel.OnChannel(channelId));
    } else {
      FilterDropsAll(DevopsToolkitVideos, StoreModel.OnChannel(channelId));
    }
  }

  /** Filtering DevopsToolkit's videos by a list of channel ids keeps them all or none. */
  lemma DevopsToolkitFromChannels(ids: seq<string>)
    ensures Filter(DevopsToolkitVideos, StoreModel.FromChannels(ids)) == if DevopsToolkitChannel.id in ids then DevopsToolkitVideos else []
  {
    DevopsToolkitChannelIds();
    if DevopsToolkitChannel.id in ids {
      FilterKeepsAll(DevopsToolkitVideos, StoreModel.FromChannels(ids));
    } else {
      FilterDropsAll(DevopsToolkitVideos, StoreModel.FromChannels(ids));
    }
  }

  /** DevopsToolkit's videoCount is the number of seed videos carrying its id. */
  lemma DevopsToolkitCount()
    ensures VideosOfChannel(SeedVideos, DevopsToolkitChannel.id) == DevopsToolkitChannel.videoCount
  {
    FilterOfSix(NanaVideos, DevopsToolkitVideos, AliAbdaalVideos, ThinkMediaVideos, AjSmartVideos, TheFuturVideos, StoreModel.OnChannel(DevopsToolkitChannel.id));
    NanaOnChannel(DevopsToolkitChannel.id);
    DevopsToolkitOnChannel(DevopsToolkitChannel.id);
    AliAbdaalOnChannel(DevopsToolkitChannel.id);
    ThinkMediaOnChannel(DevopsToolkitChannel.id);
    AjSmartOnChannel(DevopsToolkitChannel.id);
    TheFuturOnChannel(DevopsToolkitChannel.id);
  }

  lemma V10Clock()
    ensures ClockSeconds(V10.duration) == Some(V10.durationSeconds)
  {
  }

  lemma V11Clock()
    ensures ClockSeconds(V11.duration) == Some(V11.durationSeconds)
  {
  }

  lemma V12Clock()
    ensures ClockSeconds(V12.duration) == Some(V12.durationSeconds)
  {
  }

  lemma V13Clock()
    ensures ClockSeconds(V13.duration) == Some(V13.durationSeconds)
  {
  }

  lemma V14Clock()
    ensures ClockSeconds(V14.duration) == Some(V14.durationSeconds)
  {
  }

  lemma V15Clock()
    ensures ClockSeconds(V15.duration) == Some(V15.durationSeconds)
  {
  }

  lemma AliAbdaalDurations()
    ensures AllVideos(AliAbdaalVideos, DurationAgrees)
  {
    V10Clock();
    V11Clock();
    V12Clock();
    V13Clock();
    V14Clock();
    V15Clock();
  }

  lemma AliAbdaalChannelIds()
    ensures forall v :: v in AliAbdaalVideos ==> v.channelId == AliAbdaalChannel.id
  {
  }

  lemma AliAbdaalNames()
    ensures forall v :: v in AliAbdaalVideos ==> v.channelName == AliAbdaalChannel.name
  {
  }

  lemma AliAbdaalStamped()
    ensures AllVideos(AliAbdaalVideos, StampedIfSummarized)
  {
  }

  lemma AliAbdaalDistinct()
    ensures DistinctVideoIds(AliAbdaalVideos)
  {
  }

  lemma AliAbdaalHasChannel()
    ensures AllVideos(AliAbdaalVideos, HasSeedChannel)
  {
    AliAbdaalChannelIds();
    assert AliAbdaalChannel in SeedChannels;
  }

  lemma AliAbdaalNamed()
    ensures AllVideos(AliAbdaalVideos, NamedAfterSeedChannel)
  {
    AliAbdaalChannelIds();
    AliAbdaalNames();
  }

  /** Filtering AliAbdaal's videos by any channel id keeps them all or none. */
  lemma AliAbdaalOnChannel(channelId: string)
    ensures Filter(AliAbdaalVideos, StoreModel.OnChannel(channelId)) == if channelId == AliAbdaalChannel.id then AliAbdaalVideos else []
  {
    AliAbdaalChannelIds();
    if channelId == AliAbdaalChannel.id {
      FilterKeepsAll(AliAbdaalVideos, StoreModel.OnChannel(channelId));
    } else {
      FilterDropsAll(AliAbdaalVideos, StoreModel.OnChannel(channelId));
    }
  }

  /** Filtering AliAbdaal's videos by a list of channel ids keeps them all or none. */
  lemma AliAbdaalFromChannels(ids: seq<string>)
    ensures Filter(AliAbdaalVideos, StoreModel.FromChannels(ids)) == if AliAbdaalChannel.id in ids then AliAbdaalVideos else []
  {
    AliAbdaalChannelIds();
    if AliAbdaalChannel.id in ids {
      FilterKeepsAll(AliAbdaalVideos, StoreModel.FromChannels(ids));
    } else {
      FilterDropsAll(AliAbdaalVideos, StoreModel.FromChannels(ids));
    }
  }

  /** AliAbdaal's videoCount is the number of seed videos carrying its id. */
  lemma AliAbdaalCount()
    ensures VideosOfChannel(SeedVideos, AliAbdaalChannel.id) == AliAbdaalChannel.videoCount
  {
    FilterOfSix(NanaVideos, DevopsToolkitVideos, AliAbdaalVideos, ThinkMediaVideos, AjSmartVideos, TheFuturVideos, StoreModel.OnChannel(AliAbdaalChannel.id));
    NanaOnChannel(AliAbdaalChannel.id);
    DevopsToolkitOnChannel(AliAbdaalChannel.id);
    AliAbdaalOnChannel(AliAbdaalChannel.id);
    ThinkMediaOnChannel(AliAbdaalChannel.id);
    AjSmartOnChannel(AliAbdaalChannel.id);
    TheFuturOnChannel(AliAbdaalChannel.id);
  }

  lemma V16Clock()
    ensures ClockSeconds(V16.duration) == Some(V16.durationSeconds)
  {
  }

  lemma V17Clock()
    ensures ClockSeconds(V17.duration) == Some(V17.durationSeconds)
  {
  }

  lemma V18Clock()
    ensures ClockSeconds(V18.duration) == Some(V18.durationSeconds)
  {
  }

  lemma V19Clock()
    ensures ClockSeconds(V19.duration) == Some(V19.durationSeconds)
  {
  }

  lemma V20Clock()
    ensures ClockSeconds(V20.duration) == Some(V20.durationSeconds)
  {
  }

  lemma ThinkMediaDurations()
    ensures AllVideos(ThinkMediaVideos, DurationAgrees)
  {
    V16Clock();
    V17Clock();
    V18Clock();
    V19Clock();
    V20Clock();
  }

  lemma ThinkMediaChannelIds()
    ensures forall v :: v in ThinkMediaVideos ==> v.channelId == ThinkMediaChannel.id
  {
  }

  lemma ThinkMediaNames()
    ensures forall v :: v in ThinkMediaVideos ==> v.channelName == ThinkMediaChannel.name
  {
  }

  lemma ThinkMediaStamped()
    ensures AllVideos(ThinkMediaVideos, StampedIfSummarized)
  {
  }

  lemma ThinkMediaDistinct()
    ensures DistinctVideoIds(ThinkMediaVideos)
  {
  }

  lemma ThinkMediaHasChannel()
    ensures AllVideos(ThinkMediaVideos, HasSeedChannel)
  {
    ThinkMediaChannelIds();
    assert ThinkMediaChannel in SeedChannels;
  }

  lemma ThinkMediaNamed()
    ensures AllVideos(ThinkMediaVideos, NamedAfterSeedChannel)
  {
    ThinkMediaChannelIds();
    ThinkMediaNames();
  }

  /** Filtering ThinkMedia's videos by any channel id keeps them all or none. */
  lemma ThinkMediaOnChannel(channelId: string)
    ensures Filter(ThinkMediaVideos, StoreModel.OnChannel(channelId)) == if channelId == ThinkMediaChannel.id then ThinkMediaVideos else []
  {
    ThinkMediaChannelIds();
    if channelId == ThinkMediaChannel.id {
      FilterKeepsAll(ThinkMediaVideos, StoreModel.OnChannel(channelId));
    } else {
      FilterDropsAll(ThinkMediaVideos, StoreModel.OnChannel(channelId));
    }
  }

  /** Filtering ThinkMedia's videos by a list of channel ids keeps them all or none. */
  lemma ThinkMediaFromChannels(ids: seq<string>)
    ensures Filter(ThinkMediaVideos, StoreModel.FromChannels(ids)) == if ThinkMediaChannel.id in ids then ThinkMediaVideos else []
  {
    ThinkMediaChannelIds();
    if ThinkMediaChannel.id in ids {
      FilterKeepsAll(ThinkMediaVideos, StoreModel.FromChannels(ids));
    } else {
      FilterDropsAll(ThinkMediaVideos, StoreModel.FromChannels(ids));
    }
  }

  /** ThinkMedia's videoCount is the number of seed videos carrying its id. */
  lemma ThinkMediaCount()
    ensures VideosOfChannel(SeedVideos, ThinkMediaChannel.id) == ThinkMediaChannel.videoCount
  {
    FilterOfSix(NanaVideos, DevopsToolkitVideos, AliAbdaalVideos, ThinkMediaVideos, AjSmartVideos, TheFuturVideos, StoreModel.OnChannel(ThinkMediaChannel.id));
    NanaOnChannel(ThinkMediaChannel.id);
    DevopsToolkitOnChannel(ThinkMediaChannel.id);
    AliAbdaalOnChannel(ThinkMediaChannel.id);
    ThinkMediaOnChannel(ThinkMediaChannel.id);
    AjSmartOnChannel(ThinkMediaChannel.id);
    TheFuturOnChannel(ThinkMediaChannel.id);
  }

  lemma V21Clock()
    ensures ClockSeconds(V21.duration) == Some(V21.durationSeconds)
  {
  }

  lemma V22Clock()
    ensures ClockSeconds(V22.duration) == Some(V22.durationSeconds)
  {
  }

  lemma V23Clock()
    ensures ClockSeconds(V23.duration) == Some(V23.durationSeconds)
  {
  }

  lemma V24Clock()
    ensures ClockSeconds(V24.duration) == Some(V24.durationSeconds)
  {
  }

  lemma AjSmartDurations()
    ensures AllVideos(AjSmartVideos, DurationAgrees)
  {
    V21Clock();
    V22Clock();
    V23Clock();
    V24Clock();
  }

  lemma AjSmartChannelIds()
    ensures forall v :: v in AjSmartVideos ==> v.channelId == AjSmartChannel.id
  {
  }

  lemma AjSmartNames()
    ensures forall v :: v in AjSmartVideos ==> v.channelName == AjSmartChannel.name
  {
  }

  lemma AjSmartStamped()
    ensures AllVideos(AjSmartVideos, StampedIfSummarized)
  {
  }

  lemma AjSmartDistinct()
    ensures DistinctVideoIds(AjSmartVideos)
  {
  }

  lemma AjSmartHasChannel()
    ensures AllVideos(AjSmartVideos, HasSeedChannel)
  {
    AjSmartChannelIds();
    assert AjSmartChannel in SeedChannels;
  }

  lemma AjSmartNamed()
    ensures AllVideos(AjSmartVideos, NamedAfterSeedChannel)
  {
    AjSmartChannelIds();
    AjSmartNames();
  }

  /** Filtering AjSmart's videos by any channel id keeps them all or none. */
  lemma AjSmartOnChannel(channelId: string)
    ensures Filter(AjSmartVideos, StoreModel.OnChannel(channelId)) == if channelId == AjSmartChannel.id then AjSmartVideos else []
  {
    AjSmartChannelIds();
    if channelId == AjSmartChannel.id {
      FilterKeepsAll(AjSmartVideos, StoreModel.OnChannel(channelId));
    } else {
      FilterDropsAll(AjSmartVideos, StoreModel.OnChannel(channelId));
    }
  }

  /** Filtering AjSmart's videos by a list of channel ids keeps them all or none. */
  lemma AjSmartFromChannels(ids: seq<string>)
    ensures Filter(AjSmartVideos, StoreModel.FromChannels(ids)) == if AjSmartChannel.id in ids then AjSmartVideos else []
  {
    AjSmartChannelIds();
    if AjSmartChannel.id in ids {
      FilterKeepsAll(AjSmartVideos, StoreModel.FromChannels(ids));
    } else {
      FilterDropsAll(AjSmartVideos, StoreModel.FromChannels(ids));
    }
  }

  /** AjSmart's videoCount is the number of seed videos carrying its id. */
  lemma AjSmartCount()
    ensures VideosOfChannel(SeedVideos, AjSmartChannel.id) == AjSmartChannel.videoCount
  {
    FilterOfSix(NanaVideos, DevopsToolkitVideos, AliAbdaalVideos, ThinkMediaVideos, AjSmartVideos, TheFuturVideos, StoreModel.OnChannel(AjSmartChannel.id));
    NanaOnChannel(AjSmartChannel.id);
    DevopsToolkitOnChannel(AjSmartChannel.id);
    AliAbdaalOnChannel(AjSmartChannel.id);
    ThinkMediaOnChannel(AjSmartChannel.id);
    AjSmartOnChannel(AjSmartChannel.id);
    TheFuturOnChannel(AjSmartChannel.id);
  }

  lemma V25Clock()
    ensures ClockSeconds(V25.duration) == Some(V25.durationSeconds)
  {
  }

  lemma V26Clock()
    ensures ClockSeconds(V26.duration) == Some(V26.durationSeconds)
  {
  }

  lemma V27Clock()
    ensures ClockSeconds(V27.duration) == Some(V27.durationSeconds)
  {
  }

  lemma V28Clock()
    ensures ClockSeconds(V28.duration) == Some(V28.durationSeconds)
  {
  }

  lemma V29Clock()
    ensures ClockSeconds(V29.duration) == Some(V29.durationSeconds)
  {
  }

  lemma TheFuturDurations()
    ensures AllVideos(TheFuturVideos, DurationAgrees)
  {
    V25Clock();
    V26Clock();
    V27Clock();
    V28Clock();
    V29Clock();
  }

  lemma TheFuturChannelIds()
    ensures forall v :: v in TheFuturVideos ==> v.channelId == TheFuturChannel.id
  {
  }

  lemma TheFuturNames()
    ensures forall v :: v in TheFuturVideos ==> v.channelName == TheFuturChannel.name
  {
  }

  lemma TheFuturStamped()
    ensures AllVideos(TheFuturVideos, StampedIfSummarized)
  {
  }

  lemma TheFuturDistinct()
    ensures DistinctVideoIds(TheFuturVideos)
  {
  }

  lemma TheFuturHasChannel()
    ensures AllVideos(TheFuturVideos, HasSeedChannel)
  {
    TheFuturChannelIds();
    assert TheFuturChannel in SeedChannels;
  }

  lemma TheFuturNamed()
    ensures AllVideos(TheFuturVideos, NamedAfterSeedChannel)
  {
    TheFuturChannelIds();
    TheFuturNames();
  }

  /** Filtering TheFutur's videos by any channel id keeps them all or none. */
  lemma TheFuturOnChannel(channelId: string)
    ensures Filter(TheFuturVideos, StoreModel.OnChannel(channelId)) == if channelId == TheFuturChannel.id then TheFuturVideos else []
  {
    TheFuturChannelIds();
    if channelId == TheFuturChannel.id {
      FilterKeepsAll(TheFuturVideos, StoreModel.OnChannel(channelId));
    } else {
      FilterDropsAll(TheFuturVideos, StoreModel.OnChannel(channelId));
    }
  }

  /** Filtering TheFutur's videos by a list of channel ids keeps them all or none. */
  lemma TheFuturFromChannels(ids: seq<string>)
    ensures Filter(TheFuturVideos, StoreModel.FromChannels(ids)) == if TheFuturChannel.id in ids then TheFuturVideos else []
  {
    TheFuturChannelIds();
    if TheFuturChannel.id in ids {
      FilterKeepsAll(TheFuturVideos, StoreModel.FromChannels(ids));
    } else {
      FilterDropsAll(TheFuturVideos, StoreModel.FromChannels(ids));
    }
  }

  /** TheFutur's videoCount is the number of seed videos carrying its id. */
  lemma TheFuturCount()
    ensures VideosOfChannel(SeedVideos, TheFuturChannel.id) == TheFuturChannel.videoCount
  {
    FilterOfSix(NanaVideos, DevopsToolkitVideos, AliAbdaalVideos, ThinkMediaVideos, AjSmartVideos, TheFuturVideos, StoreModel.OnChannel(TheFuturChannel.id));
    NanaOnChannel(TheFuturChannel.id);
    DevopsToolkitOnChannel(TheFuturChannel.id);
    AliAbdaalOnChannel(TheFuturChannel.id);
    ThinkMediaOnChannel(TheFuturChannel.id);
    AjSmartOnChannel(TheFuturChannel.id);
    TheFuturOnChannel(TheFuturChannel.id);
  }

  lemma DisjointNanaDevopsToolkit()
    ensures DisjointVideoIds(NanaVideos, DevopsToolkitVideos)
  {
  }

  lemma DisjointNanaAliAbdaal()
    ensures DisjointVideoIds(NanaVideos, AliAbdaalVideos)
  {
  }

  lemma DisjointNanaThinkMedia()
    ensures DisjointVideoIds(NanaVideos, ThinkMediaVideos)
  {
  }

  lemma DisjointNanaAjSmart()
    ensures DisjointVideoIds(NanaVideos, AjSmartVideos)
  {
  }

  lemma DisjointNanaTheFutur()
    ensures DisjointVideoIds(NanaVideos, TheFuturVideos)
  {
  }

  lemma DisjointDevopsToolkitAliAbdaal()
    ensures DisjointVideoIds(DevopsToolkitVideos, AliAbdaalVideos)
  {
  }

  lemma DisjointDevopsToolkitThinkMedia()
    ensures DisjointVideoIds(DevopsToolkitVideos, ThinkMediaVideos)
  {
  }

  lemma DisjointDevopsToolkitAjSmart()
    ensures DisjointVideoIds(DevopsToolkitVideos, AjSmartVideos)
  {
  }

  lemma DisjointDevopsToolkitTheFutur()
    ensures DisjointVideoIds(DevopsToolkitVideos, TheFuturVideos)
  {
  }

  lemma DisjointAliAbdaalThinkMedia()
    ensures DisjointVideoIds(AliAbdaalVideos, ThinkMediaVideos)
  {
  }

  lemma DisjointAliAbdaalAjSmart()
    ensures DisjointVideoIds(AliAbdaalVideos, AjSmartVideos)
  {
  }

  lemma DisjointAliAbdaalTheFutur()
    ensures DisjointVideoIds(AliAbdaalVideos, TheFuturVideos)
  {
  }

  lemma DisjointThinkMediaAjSmart()
    ensures DisjointVideoIds(ThinkMediaVideos, AjSmartVideos)
  {
  }

  lemma DisjointThinkMediaTheFutur()
    ensures DisjointVideoIds(ThinkMediaVideos, TheFuturVideos)
  {
  }

  lemma DisjointAjSmartTheFutur()
    ensures DisjointVideoIds(AjSmartVideos, TheFuturVideos)
  {
  }

  // ---------------------------------------------------------------------
  // The seed as a whole

  /** The seed categories have pairwise distinct ids, and so have the seed
      channels. */
  lemma SeedCategoryAndChannelIdsDistinct()
    ensures forall i, j :: 0 <= i < j < |SeedCategories| ==> SeedCategories[i].id != SeedCategories[j].id
    ensures forall i, j :: 0 <= i < j < |SeedChannels| ==> SeedChannels[i].id != SeedChannels[j].id
  {
  }

  lemma SeedVideoTotal()
    ensures |SeedVideos| == 29
  {
  }

  /** The twenty-nine seed videos have pairwise distinct ids. */
  lemma SeedVideoIdsDistinct()
    ensures DistinctVideoIds(SeedVideos)
  {
    NanaDistinct();
    DevopsToolkitDistinct();
    AliAbdaalDistinct();
    ThinkMediaDistinct();
    AjSmartDistinct();
    TheFuturDistinct();
    DisjointNanaDevopsToolkit();
    DisjointNanaAliAbdaal();
    DisjointNanaThinkMedia();
    DisjointNanaAjSmart();
    DisjointNanaTheFutur();
    DisjointDevopsToolkitAliAbdaal();
    DisjointDevopsToolkitThinkMedia();
    DisjointDevopsToolkitAjSmart();
    DisjointDevopsToolkitTheFutur();
    DisjointAliAbdaalThinkMedia();
    DisjointAliAbdaalAjSmart();
    DisjointAliAbdaalTheFutur();
    DisjointThinkMediaAjSmart();
    DisjointThinkMediaTheFutur();
    DisjointAjSmartTheFutur();
    DistinctOfSix(NanaVideos, DevopsToolkitVideos, AliAbdaalVideos, ThinkMediaVideos, AjSmartVideos, TheFuturVideos);
  }

  /** Every seed duration string denotes the video's durationSeconds. */
  lemma SeedDurations()
    ensures forall v :: v in SeedVideos ==> ClockSeconds(v.duration) == Some(v.durationSeconds)
  {
    NanaDurations();
    DevopsToolkitDurations();
    AliAbdaalDurations();
    ThinkMediaDurations();
    AjSmartDurations();
    TheFuturDurations();
    AllOfSix(NanaVideos, DevopsToolkitVideos, AliAbdaalVideos, ThinkMediaVideos, AjSmartVideos, TheFuturVideos, DurationAgrees);
  }

  /** Every seed video's channel is a seed channel. */
  lemma SeedVideosHaveChannels()
    ensures AllVideos(SeedVideos, HasSeedChannel)
  {
    NanaHasChannel();
    DevopsToolkitHasChannel();
    AliAbdaalHasChannel();
    ThinkMediaHasChannel();
    AjSmartHasChannel();
    TheFuturHasChannel();
    AllOfSix(NanaVideos, DevopsToolkitVideos, AliAbdaalVideos, ThinkMediaVideos, AjSmartVideos, TheFuturVideos, HasSeedChannel);
  }

  /** Every seed video repeats the name of its seed channel. */
  lemma SeedVideosNamed()
    ensures AllVideos(SeedVideos, NamedAfterSeedChannel)
  {
    NanaNamed();
    DevopsToolkitNamed();
    AliAbdaalNamed();
    ThinkMediaNamed();
    AjSmartNamed();
    TheFuturNamed();
    AllOfSix(NanaVideos, DevopsToolkitVideos, AliAbdaalVideos, ThinkMediaVideos, AjSmartVideos, TheFuturVideos, NamedAfterSeedChannel);
  }

  /** Every seed channel is in a seed category, every seed video in a seed
      channel whose name it repeats. */
  lemma SeedIntegrity()
    ensures StoreModel.Integrity(StoreModel.Restore(Seed))
    ensures forall v, ch :: v in SeedVideos && ch in SeedChannels && ch.id == v.channelId ==> v.channelName == ch.name
  {
    SeedVideosHaveChannels();
    SeedVideosNamed();
  }

  /** A seed video with a summary has its timestamp, and v7 and v11 have
      summaries. */
  lemma SeedSummaries()
    ensures forall v :: v in SeedVideos && v.summary.Some? ==> v.summaryGeneratedAt.Some?
    ensures HasSummary(V7) && HasSummary(V11)
  {
    NanaStamped();
    DevopsToolkitStamped();
    AliAbdaalStamped();
    ThinkMediaStamped();
    AjSmartStamped();
    TheFuturStamped();
    AllOfSix(NanaVideos, DevopsToolkitVideos, AliAbdaalVideos, ThinkMediaVideos, AjSmartVideos, TheFuturVideos, StampedIfSummarized);
  }

  /** Each seed channel's videoCount is the number of seed videos that
      carry its id. */
  lemma SeedVideoCounts()
    ensures forall ch :: ch in SeedChannels ==> VideosOfChannel(SeedVideos, ch.id) == ch.videoCount
  {
    NanaCount();
    DevopsToolkitCount();
    AliAbdaalCount();
    ThinkMediaCount();
    AjSmartCount();
    TheFuturCount();
  }

  /** The seed's token usage is within its monthly limit. */
  lemma SeedTokensWithinLimit()
    ensures 0 <= SeedSettings.tokensUsed <= SeedSettings.monthlyTokenLimit
  {
  }

  // ---------------------------------------------------------------------
  // What the dashboard counts on the seed

  lemma NanaNew()
    ensures |Filter(NanaVideos, IsNew)| == 2
  {
    FilterFive(V1, V2, V3, V4, V5, IsNew);
  }

  lemma DevopsToolkitNew()
    ensures |Filter(DevopsToolkitVideos, IsNew)| == 2
  {
    FilterFour(V6, V7, V8, V9, IsNew);
  }

  lemma AliAbdaalNew()
    ensures |Filter(AliAbdaalVideos, IsNew)| == 2
  {
    FilterSix(V10, V11, V12, V13, V14, V15, IsNew);
  }

  lemma ThinkMediaNew()
    ensures |Filter(ThinkMediaVideos, IsNew)| == 3
  {
    FilterFive(V16, V17, V18, V19, V20, IsNew);
  }

  lemma AjSmartNew()
    ensures |Filter(AjSmartVideos, IsNew)| == 2
  {
    FilterFour(V21, V22, V23, V24, IsNew);
  }

  lemma TheFuturNew()
    ensures |Filter(TheFuturVideos, IsNew)| == 2
  {
    FilterFive(V25, V26, V27, V28, V29, IsNew);
  }

  /** Concatenating empty lists around two lists adds nothing. */
  lemma DropEmpties(x: seq<Video>, y: seq<Video>)
    ensures x + y + [] + [] + [] + [] == x + y
    ensures [] + [] + x + y + [] + [] == x + y
    ensures [] + [] + [] + [] + x + y == x + y
  {
  }

  /** The restored seed holds the seed channels and videos. */
  lemma SeedRestored()
    ensures StoreModel.Restore(Seed).channels == SeedChannels
    ensures StoreModel.Restore(Seed).videos == SeedVideos
  {
  }

  /** The seed files Nana and DevopsToolkit under the devops category. */
  lemma DevopsCategoryChannels()
    ensures StoreModel.ChannelIds(Filter(SeedChannels, StoreModel.InCategory("devops"))) == [NanaChannel.id, DevopsToolkitChannel.id]
  {
    FilterSix(NanaChannel, DevopsToolkitChannel, AliAbdaalChannel, ThinkMediaChannel, AjSmartChannel, TheFuturChannel, StoreModel.InCategory("devops"));
  }

  lemma DevopsSeedFilter(p: Video -> bool)
    requires Filter(NanaVideos, p) == NanaVideos
    requires Filter(DevopsToolkitVideos, p) == DevopsToolkitVideos
    requires Filter(AliAbdaalVideos, p) == []
    requires Filter(ThinkMediaVideos, p) == []
    requires Filter(AjSmartVideos, p) == []
    requires Filter(TheFuturVideos, p) == []
    ensures Filter(SeedVideos, p) == NanaVideos + DevopsToolkitVideos
  {
    FilterOfSix(NanaVideos, DevopsToolkitVideos, AliAbdaalVideos, ThinkMediaVideos, AjSmartVideos, TheFuturVideos, p);
    assert Filter(SeedVideos, p) == NanaVideos + DevopsToolkitVideos + [] + [] + [] + [];
    DropEmpties(NanaVideos, DevopsToolkitVideos);
  }

  /** Filtering the seed videos by a list of channel ids that names
      exactly these seed channels. */
  lemma DevopsChannelVideos(ids: seq<string>)
    requires NanaChannel.id in ids && DevopsToolkitChannel.id in ids
    requires AliAbdaalChannel.id !in ids && ThinkMediaChannel.id !in ids && AjSmartChannel.id !in ids && TheFuturChannel.id !in ids
    ensures Filter(SeedVideos, StoreModel.FromChannels(ids)) == NanaVideos + DevopsToolkitVideos
  {
    NanaFromChannels(ids);
    DevopsToolkitFromChannels(ids);
    AliAbdaalFromChannels(ids);
    ThinkMediaFromChannels(ids);
    AjSmartFromChannels(ids);
    TheFuturFromChannels(ids);
    DevopsSeedFilter(StoreModel.FromChannels(ids));
  }

  lemma DevopsIdsOf()
    ensures var ids := StoreModel.ChannelIds(Filter(SeedChannels, StoreModel.InCategory("devops")));
      NanaChannel.id in ids
      && DevopsToolkitChannel.id in ids
      && AliAbdaalChannel.id !in ids
      && ThinkMediaChannel.id !in ids
      && AjSmartChannel.id !in ids
      && TheFuturChannel.id !in ids
  {
    DevopsCategoryChannels();
    DevopsMembers(StoreModel.ChannelIds(Filter(SeedChannels, StoreModel.InCategory("devops"))));
  }

  lemma DevopsMembers(ids: seq<string>)
    requires ids == [NanaChannel.id, DevopsToolkitChannel.id]
    ensures NanaChannel.id in ids
      && DevopsToolkitChannel.id in ids
      && AliAbdaalChannel.id !in ids
      && ThinkMediaChannel.id !in ids
      && AjSmartChannel.id !in ids
      && TheFuturChannel.id !in ids
  {
  }

  /** Which seed channels the restored seed files under devops. */
  lemma DevopsCategoryIds()
    ensures var ids := StoreModel.ChannelIds(StoreModel.ChannelsByCategory(StoreModel.Restore(Seed), "devops"));
      NanaChannel.id in ids
      && DevopsToolkitChannel.id in ids
      && AliAbdaalChannel.id !in ids
      && ThinkMediaChannel.id !in ids
      && AjSmartChannel.id !in ids
      && TheFuturChannel.id !in ids
  {
    SeedRestored();
    DevopsIdsOf();
  }

  lemma DevopsCategoryVideos()
    ensures StoreModel.VideosByCategory(StoreModel.Restore(Seed), "devops") == NanaVideos + DevopsToolkitVideos
  {
    SeedRestored();
    DevopsCategoryIds();
    DevopsChannelVideos(StoreModel.ChannelIds(StoreModel.ChannelsByCategory(StoreModel.Restore(Seed), "devops")));
  }

  lemma DevopsNewCount()
    ensures StoreModel.NewVideosCount(StoreModel.Restore(Seed), "devops") == 4
  {
    DevopsCategoryVideos();
    FilterAppend(NanaVideos, DevopsToolkitVideos, IsNew);
    NanaNew();
    DevopsToolkitNew();
  }

  /** The seed files AliAbdaal and ThinkMedia under the youtube-growth category. */
  lemma YoutubeGrowthCategoryChannels()
    ensures StoreModel.ChannelIds(Filter(SeedChannels, StoreModel.InCategory("youtube-growth"))) == [AliAbdaalChannel.id, ThinkMediaChannel.id]
  {
    FilterSix(NanaChannel, DevopsToolkitChannel, AliAbdaalChannel, ThinkMediaChannel, AjSmartChannel, TheFuturChannel, StoreModel.InCategory("youtube-growth"));
  }

  lemma YoutubeGrowthSeedFilter(p: Video -> bool)
    requires Filter(NanaVideos, p) == []
    requires Filter(DevopsToolkitVideos, p) == []
    requires Filter(AliAbdaalVideos, p) == AliAbdaalVideos
    requires Filter(ThinkMediaVideos, p) == ThinkMediaVideos
    requires Filter(AjSmartVideos, p) == []
    requires Filter(TheFuturVideos, p) == []
    ensures Filter(SeedVideos, p) == AliAbdaalVideos + ThinkMediaVideos
  {
    FilterOfSix(NanaVideos, DevopsToolkitVideos, AliAbdaalVideos, ThinkMediaVideos, AjSmartVideos, TheFuturVideos, p);
    assert Filter(SeedVideos, p) == [] + [] + AliAbdaalVideos + ThinkMediaVideos + [] + [];
    DropEmpties(AliAbdaalVideos, ThinkMediaVideos);
  }

  /** Filtering the seed videos by a list of channel ids that names
      exactly these seed channels. */
  lemma YoutubeGrowthChannelVideos(ids: seq<string>)
    requires AliAbdaalChannel.id in ids && ThinkMediaChannel.id in ids
    requires NanaChannel.id !in ids && DevopsToolkitChannel.id !in ids && AjSmartChannel.id !in ids && TheFuturChannel.id !in ids
    ensures Filter(SeedVideos, StoreModel.FromChannels(ids)) == AliAbdaalVideos + ThinkMediaVideos
  {
    NanaFromChannels(ids);
    DevopsToolkitFromChannels(ids);
    AliAbdaalFromChannels(ids);
    ThinkMediaFromChannels(ids);
    AjSmartFromChannels(ids);
    TheFuturFromChannels(ids);
    YoutubeGrowthSeedFilter(StoreModel.FromChannels(ids));
  }

  lemma YoutubeGrowthIdsOf()
    ensures var ids := StoreModel.ChannelIds(Filter(SeedChannels, StoreModel.InCategory("youtube-growth")));
      AliAbdaalChannel.id in ids
      && ThinkMediaChannel.id in ids
      && NanaChannel.id !in ids
      && DevopsToolkitChannel.id !in ids
      && AjSmartChannel.id !in ids
      && TheFuturChannel.id !in ids
  {
    YoutubeGrowthCategoryChannels();
    YoutubeGrowthMembers(StoreModel.ChannelIds(Filter(SeedChannels, StoreModel.InCategory("youtube-growth"))));
  }

  lemma YoutubeGrowthMembers(ids: seq<string>)
    requires ids == [AliAbdaalChannel.id, ThinkMediaChannel.id]
    ensures AliAbdaalChannel.id in ids
      && ThinkMediaChannel.id in ids
      && NanaChannel.id !in ids
      && DevopsToolkitChannel.id !in ids
      && AjSmartChannel.id !in ids
      && TheFuturChannel.id !in ids
  {
  }

  /** Which seed channels the restored seed files under youtube-growth. */
  lemma YoutubeGrowthCategoryIds()
    ensures var ids := StoreModel.ChannelIds(StoreModel.ChannelsByCategory(StoreModel.Restore(Seed), "youtube-growth"));
      AliAbdaalChannel.id in ids
      && ThinkMediaChannel.id in ids
      && NanaChannel.id !in ids
      && DevopsToolkitChannel.id !in ids
      && AjSmartChannel.id !in ids
      && TheFuturChannel.id !in ids
  {
    SeedRestored();
    YoutubeGrowthIdsOf();
  }

  lemma YoutubeGrowthCategoryVideos()
    ensures StoreModel.VideosByCategory(StoreModel.Restore(Seed), "youtube-growth") == AliAbdaalVideos + ThinkMediaVideos
  {
    SeedRestored();
    YoutubeGrowthCategoryIds();
    YoutubeGrowthChannelVideos(StoreModel.ChannelIds(StoreModel.ChannelsByCategory(StoreModel.Restore(Seed), "youtube-growth")));
  }

  lemma YoutubeGrowthNewCount()
    ensures StoreModel.NewVideosCount(StoreModel.Restore(Seed), "youtube-growth") == 5
  {
    YoutubeGrowthCategoryVideos();
    FilterAppend(AliAbdaalVideos, ThinkMediaVideos, IsNew);
    AliAbdaalNew();
    ThinkMediaNew();
  }

  /** The seed files AjSmart and TheFutur under the ux-ui category. */
  lemma UxUiCategoryChannels()
    ensures StoreModel.ChannelIds(Filter(SeedChannels, StoreModel.InCategory("ux-ui"))) == [AjSmartChannel.id, TheFuturChannel.id]
  {
    FilterSix(NanaChannel, DevopsToolkitChannel, AliAbdaalChannel, ThinkMediaChannel, AjSmartChannel, TheFuturChannel, StoreModel.InCategory("ux-ui"));
  }

  lemma UxUiSeedFilter(p: Video -> bool)
    requires Filter(NanaVideos, p) == []
    requires Filter(DevopsToolkitVideos, p) == []
    requires Filter(AliAbdaalVideos, p) == []
    requires Filter(ThinkMediaVideos, p) == []
    requires Filter(AjSmartVideos, p) == AjSmartVideos
    requires Filter(TheFuturVideos, p) == TheFuturVideos
    ensures Filter(SeedVideos, p) == AjSmartVideos + TheFuturVideos
  {
    FilterOfSix(NanaVideos, DevopsToolkitVideos, AliAbdaalVideos, ThinkMediaVideos, AjSmartVideos, TheFuturVideos, p);
    assert Filter(SeedVideos, p) == [] + [] + [] + [] + AjSmartVideos + TheFuturVideos;
    DropEmpties(AjSmartVideos, TheFuturVideos);
  }

  /** Filtering the seed videos by a list of channel ids that names
      exactly these seed channels. */
  lemma UxUiChannelVideos(ids: seq<string>)
    requires AjSmartChannel.id in ids && TheFuturChannel.id in ids
    requires NanaChannel.id !in ids && DevopsToolkitChannel.id !in ids && AliAbdaalChannel.id !in ids && ThinkMediaChannel.id !in ids
    ensures Filter(SeedVideos, StoreModel.FromChannels(ids)) == AjSmartVideos + TheFuturVideos
  {
    NanaFromChannels(ids);
    DevopsToolkitFromChannels(ids);
    AliAbdaalFromChannels(ids);
    ThinkMediaFromChannels(ids);
    AjSmartFromChannels(ids);
    TheFuturFromChannels(ids);
    UxUiSeedFilter(StoreModel.FromChannels(ids));
  }

  lemma UxUiIdsOf()
    ensures var ids := StoreModel.ChannelIds(Filter(SeedChannels, StoreModel.InCategory("ux-ui")));
      AjSmartChannel.id in ids
      && TheFuturChannel.id in ids
      && NanaChannel.id !in ids
      && DevopsToolkitChannel.id !in ids
      && AliAbdaalChannel.id !in ids
      && ThinkMediaChannel.id !in ids
  {
    UxUiCategoryChannels();
    UxUiMembers(StoreModel.ChannelIds(Filter(SeedChannels, StoreModel.InCategory("ux-ui"))));
  }

  lemma UxUiMembers(ids: seq<string>)
    requires ids == [AjSmartChannel.id, TheFuturChannel.id]
    ensures AjSmartChannel.id in ids
      && TheFuturChannel.id in ids
      && NanaChannel.id !in ids
      && DevopsToolkitChannel.id !in ids
      && AliAbdaalChannel.id !in ids
      && ThinkMediaChannel.id !in ids
  {
  }

  /** Which seed channels the restored seed files under ux-ui. */
  lemma UxUiCategoryIds()
    ensures var ids := StoreModel.ChannelIds(StoreModel.ChannelsByCategory(StoreModel.Restore(Seed), "ux-ui"));
      AjSmartChannel.id in ids
      && TheFuturChannel.id in ids
      && NanaChannel.id !in ids
      && DevopsToolkitChannel.id !in ids
      && AliAbdaalChannel.id !in ids
      && ThinkMediaChannel.id !in ids
  {
    SeedRestored();
    UxUiIdsOf();
  }

  lemma UxUiCategoryVideos()
    ensures StoreModel.VideosByCategory(StoreModel.Restore(Seed), "ux-ui") == AjSmartVideos + TheFuturVideos
  {
    SeedRestored();
    UxUiCategoryIds();
    UxUiChannelVideos(StoreModel.ChannelIds(StoreModel.ChannelsByCategory(StoreModel.Restore(Seed), "ux-ui")));
  }

  lemma UxUiNewCount()
    ensures StoreModel.NewVideosCount(StoreModel.Restore(Seed), "ux-ui") == 4
  {
    UxUiCategoryVideos();
    FilterAppend(AjSmartVideos, TheFuturVideos, IsNew);
    AjSmartNew();
    TheFuturNew();
  }

  /** The seed files no channel under the personal category. */
  lemma PersonalCategoryChannels()
    ensures StoreModel.ChannelIds(Filter(SeedChannels, StoreModel.InCategory("personal"))) == []
  {
    FilterSix(NanaChannel, DevopsToolkitChannel, AliAbdaalChannel, ThinkMediaChannel, AjSmartChannel, TheFuturChannel, StoreModel.InCategory("personal"));
  }

  lemma PersonalSeedFilter(p: Video -> bool)
    requires Filter(NanaVideos, p) == []
    requires Filter(DevopsToolkitVideos, p) == []
    requires Filter(AliAbdaalVideos, p) == []
    requires Filter(ThinkMediaVideos, p) == []
    requires Filter(AjSmartVideos, p) == []
    requires Filter(TheFuturVideos, p) == []
    ensures Filter(SeedVideos, p) == []
  {
    FilterOfSix(NanaVideos, DevopsToolkitVideos, AliAbdaalVideos, ThinkMediaVideos, AjSmartVideos, TheFuturVideos, p);
  }

  /** Filtering the seed videos by a list of channel ids that names
      exactly these seed channels. */
  lemma PersonalChannelVideos(ids: seq<string>)
    requires NanaChannel.id !in ids && DevopsToolkitChannel.id !in ids && AliAbdaalChannel.id !in ids && ThinkMediaChannel.id !in ids && AjSmartChannel.id !in ids && TheFuturChannel.id !in ids
    ensures Filter(SeedVideos, StoreModel.FromChannels(ids)) == []
  {
    NanaFromChannels(ids);
    DevopsToolkitFromChannels(ids);
    AliAbdaalFromChannels(ids);
    ThinkMediaFromChannels(ids);
    AjSmartFromChannels(ids);
    TheFuturFromChannels(ids);
    PersonalSeedFilter(StoreModel.FromChannels(ids));
  }

  lemma PersonalIdsOf()
    ensures var ids := StoreModel.ChannelIds(Filter(SeedChannels, StoreModel.InCategory("personal")));
      NanaChannel.id !in ids
      && DevopsToolkitChannel.id !in ids
      && AliAbdaalChannel.id !in ids
      && ThinkMediaChannel.id !in ids
      && AjSmartChannel.id !in ids
      && TheFuturChannel.id !in ids
  {
    PersonalCategoryChannels();
  }

  /** Which seed channels the restored seed files under personal. */
  lemma PersonalCategoryIds()
    ensures var ids := StoreModel.ChannelIds(StoreModel.ChannelsByCategory(StoreModel.Restore(Seed), "personal"));
      NanaChannel.id !in ids
      && DevopsToolkitChannel.id !in ids
      && AliAbdaalChannel.id !in ids
      && ThinkMediaChannel.id !in ids
      && AjSmartChannel.id !in ids
      && TheFuturChannel.id !in ids
  {
    SeedRestored();
    PersonalIdsOf();
  }

  lemma PersonalCategoryVideos()
    ensures StoreModel.VideosByCategory(StoreModel.Restore(Seed), "personal") == []
  {
    SeedRestored();
    PersonalCategoryIds();
    PersonalChannelVideos(StoreModel.ChannelIds(StoreModel.ChannelsByCategory(StoreModel.Restore(Seed), "personal")));
  }

  lemma PersonalNewCount()
    ensures StoreModel.NewVideosCount(StoreModel.Restore(Seed), "personal") == 0
  {
    PersonalCategoryVideos();
  }

  /** The seed has thirteen new videos. */
  lemma SeedTotalNew()
    ensures StoreModel.TotalNewVideos(StoreModel.Restore(Seed)) == 13
  {
    SeedRestored();
    FilterOfSix(NanaVideos, DevopsToolkitVideos, AliAbdaalVideos, ThinkMediaVideos, AjSmartVideos, TheFuturVideos, IsNew);
    NanaNew();
    DevopsToolkitNew();
    AliAbdaalNew();
    ThinkMediaNew();
    AjSmartNew();
    TheFuturNew();
  }

  /** The four categories' counts add up to the total: every new seed video
      is counted in exactly one category. */
  lemma SeedNewCounts()
    ensures StoreModel.NewVideosCount(StoreModel.Restore(Seed), "devops")
            + StoreModel.NewVideosCount(StoreModel.Restore(Seed), "youtube-growth")
            + StoreModel.NewVideosCount(StoreModel.Restore(Seed), "ux-ui")
            + StoreModel.NewVideosCount(StoreModel.Restore(Seed), "personal")
            == StoreModel.TotalNewVideos(StoreModel.Restore(Seed))
  {
    SeedTotalNew();
    DevopsNewCount();
    YoutubeGrowthNewCount();
    UxUiNewCount();
    PersonalNewCount();
  }
}
