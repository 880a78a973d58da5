/**
 * The project card (src/components/ProjectCard.jsx): which canvas animation a card mounts,
 * chosen by a case-sensitive substring test on the project title, and what the media pane
 * shows around it.
 */
module ProjectCard {
  import opened Wrappers

  /** The nine canvas animations a card can mount. */
  datatype Viz =
    | AlzheimerViz | ChurnViz | SharePointViz | TitanicViz | MovieViz
    | MusicViz | DiabetesViz | YoutubeViz | McqViz

  /** `k` occurs in `s` starting at offset `i`. */
  predicate OccursAt(s: string, k: string, i: int) {
    0 <= i && i + |k| <= |s| && s[i..i + |k|] == k
  }

  /** JavaScript's `s.includes(k)`: an exact, case-sensitive, contiguous occurrence. */
  predicate Includes(s: string, k: string) {
    exists i | 0 <= i <= |s| - |k| :: OccursAt(s, k, i)
  }

  /** The keyword whose presence in a title selects each animation. */
  function Keyword(v: Viz): (k: string)
    ensures |k| > 0
  {
    match v
    case AlzheimerViz => "Alzheimer"
    case ChurnViz => "Churn"
    case SharePointViz => "SharePoint"
    case TitanicViz => "Titanic"
    case MovieViz => "Movie"
    case MusicViz => "Music"
    case DiabetesViz => "Diabetes"
    case YoutubeViz => "YouTube"
    case McqViz => "MCQ"
  }

  /** The order in which the keywords are tried. */
  const Order: seq<Viz> :=
    [AlzheimerViz, ChurnViz, SharePointViz, TitanicViz, MovieViz, MusicViz, DiabetesViz, YoutubeViz, McqViz]

  /** Position of a variant in the order of the tests. */
  function Rank(v: Viz): (n: nat)
    ensures n < |Order| && Order[n] == v
  {
    match v
    case AlzheimerViz => 0
    case ChurnViz => 1
    case SharePointViz => 2
    case TitanicViz => 3
    case MovieViz => 4
    case MusicViz => 5
    case DiabetesViz => 6
    case YoutubeViz => 7
    case McqViz => 8
  }

  /**
   * `renderViz`: the chain of `includes` tests; `None` stands for the `null` the card
   * replaces with its static image.
   */
  function RenderViz(title: string): (r: Option<Viz>)
    ensures r.Some? ==> Includes(title, Keyword(r.value))
    ensures r.Some? ==> forall v :: Rank(v) < Rank(r.value) ==> !Includes(title, Keyword(v))
    ensures r.None? <==> forall v :: !Includes(title, Keyword(v))
  {
    if Includes(title, "Alzheimer") then Some(AlzheimerViz)
    else if Includes(title, "Churn") then Some(ChurnViz)
    else if Includes(title, "SharePoint") then Some(SharePointViz)
    else if Includes(title, "Titanic") then Some(TitanicViz)
    else if Includes(title, "Movie") then Some(MovieViz)
    else if Includes(title, "Music") then Some(MusicViz)
    else if Includes(title, "Diabetes") then Some(DiabetesViz)
    else if Includes(title, "YouTube") then Some(YoutubeViz)
    else if Includes(title, "MCQ") then Some(McqViz)
    else None
  }

  /** Table-driven reference: the first variant of `Order`, from position `i` on, whose keyword the title contains. */
  function FirstFrom(title: string, i: nat): (r: Option<Viz>)
    requires i <= |Order|
    ensures r.Some? ==> i <= Rank(r.value) && Includes(title, Keyword(r.value))
    ensures r.Some? ==> forall j :: i <= j < Rank(r.value) ==> !Includes(title, Keyword(Order[j]))
    ensures r.None? <==> forall j :: i <= j < |Order| ==> !Includes(title, Keyword(Order[j]))
    decreases |Order| - i
  {
    if i == |Order| then None
    else if Includes(title, Keyword(Order[i])) then Some(Order[i])
    else FirstFrom(title, i + 1)
  }

  /** The if-chain of `renderViz` is the first-match search over the keyword table. */
  lemma RenderVizIsFirstMatch(title: string)
    ensures RenderViz(title) == FirstFrom(title, 0)
  {
    var t := title;
    assert Order[0] == AlzheimerViz && Order[1] == ChurnViz && Order[2] == SharePointViz;
    assert Order[3] == TitanicViz && Order[4] == MovieViz && Order[5] == MusicViz;
    assert Order[6] == DiabetesViz && Order[7] == YoutubeViz && Order[8] == McqViz;
    assert FirstFrom(t, 8) == if Includes(t, "MCQ") then Some(McqViz) else None;
    assert FirstFrom(t, 7) == if Includes(t, "YouTube") then Some(YoutubeViz) else FirstFrom(t, 8);
    assert FirstFrom(t, 6) == if Includes(t, "Diabetes") then Some(DiabetesViz) else FirstFrom(t, 7);
    assert FirstFrom(t, 5) == if Includes(t, "Music") then Some(MusicViz) else FirstFrom(t, 6);
    assert FirstFrom(t, 4) == if Includes(t, "Movie") then Some(MovieViz) else FirstFrom(t, 5);
    assert FirstFrom(t, 3) == if Includes(t, "Titanic") then Some(TitanicViz) else FirstFrom(t, 4);
    assert FirstFrom(t, 2) == if Includes(t, "SharePoint") then Some(SharePointViz) else FirstFrom(t, 3);
    assert FirstFrom(t, 1) == if Includes(t, "Churn") then Some(ChurnViz) else FirstFrom(t, 2);
    assert FirstFrom(t, 0) == if Includes(t, "Alzheimer") then Some(AlzheimerViz) else FirstFrom(t, 1);
  }

  /**
   * The converse of the contract of `RenderViz`: a title that contains the keyword of `v`
   * and none of the keywords tried before it selects `v`.
   */
  lemma FirstKeywordSelects(title: string, v: Viz)
    requires Includes(title, Keyword(v))
    requires forall u :: Rank(u) < Rank(v) ==> !Includes(title, Keyword(u))
    ensures RenderViz(title) == Some(v)
  {
    assert Rank(AlzheimerViz) == 0 && Rank(ChurnViz) == 1 && Rank(SharePointViz) == 2;
    assert Rank(TitanicViz) == 3 && Rank(MovieViz) == 4 && Rank(MusicViz) == 5;
    assert Rank(DiabetesViz) == 6 && Rank(YoutubeViz) == 7;
  }

  /** A keyword found at a known offset. */
  lemma IncludesAt(s: string, k: string, i: nat)
    requires OccursAt(s, k, i)
    ensures Includes(s, k)
  {
  }

  /** A keyword between any prefix and suffix is included in the whole. */
  lemma IncludesBetween(p: string, k: string, q: string)
    ensures Includes(p + k + q, k)
  {
    assert (p + k + q)[|p|..|p| + |k|] == k;
    IncludesAt(p + k + q, k, |p|);
  }

  /** A keyword with a character the title lacks is not in the title. */
  lemma AbsentChar(s: string, k: string, c: char)
    requires c in k
    requires forall i | 0 <= i < |s| :: s[i] != c
    ensures !Includes(s, k)
  {
  }

  /** "Alzheimer" wins over every other keyword that the title may also contain. */
  lemma AlzheimerWins(title: string)
    requires Includes(title, "Alzheimer")
    ensures RenderViz(title) == Some(AlzheimerViz)
  {
  }

  /** A title containing none of the nine keywords selects nothing. */
  lemma NoKeywordSelectsNone(t: string)
    requires !Includes(t, "Alzheimer") && !Includes(t, "Churn") && !Includes(t, "SharePoint")
    requires !Includes(t, "Titanic") && !Includes(t, "Movie") && !Includes(t, "Music")
    requires !Includes(t, "Diabetes") && !Includes(t, "YouTube") && !Includes(t, "MCQ")
    ensures RenderViz(t) == None
  {
  }

  /** Matching is case-sensitive: "youtube" is not "YouTube". */
  lemma LowercaseYoutubeSelectsNothing(y: string)
    requires y == "youtube"
    ensures RenderViz(y) == None
  {
    AbsentChar(y, "Alzheimer", 'A');
    AbsentChar(y, "Churn", 'C');
    AbsentChar(y, "SharePoint", 'S');
    AbsentChar(y, "Titanic", 'T');
    AbsentChar(y, "Movie", 'M');
    AbsentChar(y, "Music", 'M');
    AbsentChar(y, "Diabetes", 'D');
    AbsentChar(y, "YouTube", 'Y');
    AbsentChar(y, "MCQ", 'M');
    NoKeywordSelectsNone(y);
  }

  /** Matching is case-sensitive: "Mcq" is not "MCQ". */
  lemma MixedCaseMcqSelectsNothing(m: string)
    requires m == "Mcq"
    ensures RenderViz(m) == None
  {
    AbsentChar(m, "Alzheimer", 'A');
    AbsentChar(m, "Churn", 'C');
    AbsentChar(m, "SharePoint", 'S');
    AbsentChar(m, "Titanic", 'T');
    AbsentChar(m, "Movie", 'o');
    AbsentChar(m, "Music", 'u');
    AbsentChar(m, "Diabetes", 'D');
    AbsentChar(m, "YouTube", 'Y');
    AbsentChar(m, "MCQ", 'C');
    NoKeywordSelectsNone(m);
  }

  /** The fields of a project entry that the card reads. */
  datatype Project = Project(title: string, video: Option<string>, image: Option<string>)

  /** JavaScript truthiness of an optional string field: present and non-empty. */
  predicate Truthy(o: Option<string>) {
    o.Some? && o.value != ""
  }

  /** What the viz container shows: a canvas animation, or the `<img>` fallback. */
  datatype Visual = Canvas(viz: Viz) | StaticImage(src: Option<string>, alt: string)

  /** The media pane: the viz container, and whether a `<video>` element follows it. */
  datatype MediaPane = MediaPane(visual: Visual, hasVideo: bool)

  /** `renderViz() || <img …/>`: a `null` from `renderViz` falls back to the image. */
  function VizOrImage(p: Project): (v: Visual)
    ensures v.Canvas? <==> RenderViz(p.title).Some?
    ensures v.Canvas? ==> v.viz == RenderViz(p.title).value
    ensures v.StaticImage? ==> v.src == p.image && v.alt == p.title
  {
    match RenderViz(p.title)
    case Some(viz) => Canvas(viz)
    case None => StaticImage(p.image, p.title)
  }

  /** Both branches of `project.video ? … : …` show the same viz container; only the first adds a video. */
  function Media(p: Project): (m: MediaPane)
    ensures m.visual == VizOrImage(p)
    ensures m.hasVideo <==> Truthy(p.video)
  {
    if Truthy(p.video) then MediaPane(VizOrImage(p), true) else MediaPane(VizOrImage(p), false)
  }

  /** What the hover effect does to the video element. */
  datatype VideoCommand = NoCommand | Play | PauseAndRewind

  /**
   * The hover effect: `videoRef` is attached only when the `<video>` element is rendered;
   * without it the effect returns at once.
   */
  function HoverEffect(videoAttached: bool, hovering: bool): (c: VideoCommand)
    ensures !videoAttached ==> c == NoCommand
    ensures videoAttached ==> (c == Play <==> hovering) && (c == PauseAndRewind <==> !hovering)
  {
    if !videoAttached then NoCommand
    else if hovering then Play
    else PauseAndRewind
  }

  /**
   * A card whose project has no `video` renders no `<video>` element, so `videoRef` stays
   * unattached and hovering never plays or pauses anything.
   */
  lemma NoVideoNoCommand(p: Project, hovering: bool)
    requires !Truthy(p.video)
    ensures !Media(p).hasVideo && HoverEffect(Media(p).hasVideo, hovering) == NoCommand
  {
  }

  /** The indicator text and class list. */
  function Indicator(hovering: bool): (r: (string, string))
    ensures r.0 == "Playing" <==> hovering
    ensures r.0 == "Paused" <==> !hovering
    ensures |r.1| >= 16 && r.1[..16] == "video-indicator "
    ensures hovering <==> |r.1| >= 22 && r.1[|r.1| - 6..] == "active"
  {
    if hovering then ("Playing", "video-indicator active") else ("Paused", "video-indicator ")
  }
}
