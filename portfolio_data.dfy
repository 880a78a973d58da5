/**
 * The project entries of the static portfolio configuration (src/data.js), reduced to the
 * fields the project card reads. The entries carry `videoUrl`/`posterUrl`, never `video`,
 * so `video` is absent in every one of them.
 */
module PortfolioData {
  import opened Wrappers
  import opened ProjectCard

  /** The titles of the nine project entries. */
  const AlzheimerTitle: string := "Alzheimer’s Classification Model"
  const ChurnTitle: string := "Churn Prediction Model"
  const SharePointTitle: string := "Modular SharePoint Site"
  const TitanicTitle: string := "Titanic Survival Prediction"
  const MovieTitle: string := "Movie Ticket Price Prediction"
  const MusicTitle: string := "Music Genre Classification"
  const DiabetesTitle: string := "Diabetes Predictor"
  const McqTitle: string := "AI-Powered MCQ Generator"
  const YoutubeTitle: string := "YouTube Ad View Prediction"

  const Projects: seq<Project> := [
    Project(AlzheimerTitle, None, None),
    Project(ChurnTitle, None, None),
    Project(SharePointTitle, None, Some("https://via.placeholder.com/600x400?text=SharePoint+Dashboard")),
    Project(TitanicTitle, None, Some("https://via.placeholder.com/600x400?text=Titanic+Survival")),
    Project(MovieTitle, None, Some("https://via.placeholder.com/600x400?text=Movie+Price")),
    Project(MusicTitle, None, Some("https://via.placeholder.com/600x400?text=Music+Genre")),
    Project(DiabetesTitle, None, Some("https://via.placeholder.com/600x400?text=Diabetes+Prediction")),
    Project(McqTitle, None, Some("https://via.placeholder.com/600x400?text=MCQ+Generator")),
    Project(YoutubeTitle, None, Some("https://via.placeholder.com/600x400?text=YouTube+Ads"))
  ]

  /** The animation each entry is expected to select, in the entries' order. */
  const Expected: seq<Viz> :=
    [AlzheimerViz, ChurnViz, SharePointViz, TitanicViz, MovieViz, MusicViz, DiabetesViz, McqViz, YoutubeViz]

  lemma AlzheimerTitleKeywords(t: string)
    requires t == AlzheimerTitle
    ensures Includes(t, "Alzheimer")
  {
    IncludesAt(t, "Alzheimer", 0);
  }

  lemma SelectsAlzheimer()
    ensures RenderViz(AlzheimerTitle) == Some(AlzheimerViz)
  {
    AlzheimerTitleKeywords(AlzheimerTitle);
    FirstKeywordSelects(AlzheimerTitle, AlzheimerViz);
  }

  lemma ChurnTitleKeywords(t: string)
    requires t == ChurnTitle
    ensures !Includes(t, "Alzheimer") && Includes(t, "Churn")
  {
    AbsentChar(t, "Alzheimer", 'A');
    IncludesAt(t, "Churn", 0);
  }

  lemma SelectsChurn()
    ensures RenderViz(ChurnTitle) == Some(ChurnViz)
  {
    ChurnTitleKeywords(ChurnTitle);
    FirstKeywordSelects(ChurnTitle, ChurnViz);
  }

  lemma SharePointTitleKeywords(t: string)
    requires t == SharePointTitle
    ensures !Includes(t, "Alzheimer") && !Includes(t, "Churn") && Includes(t, "SharePoint")
  {
    AbsentChar(t, "Alzheimer", 'A');
    AbsentChar(t, "Churn", 'C');
    assert t == "Modular " + "SharePoint" + " Site";
    IncludesBetween("Modular ", "SharePoint", " Site");
  }

  lemma SelectsSharePoint()
    ensures RenderViz(SharePointTitle) == Some(SharePointViz)
  {
    SharePointTitleKeywords(SharePointTitle);
    FirstKeywordSelects(SharePointTitle, SharePointViz);
  }

  lemma TitanicTitleKeywords(t: string)
    requires t == TitanicTitle
    ensures !Includes(t, "Alzheimer") && !Includes(t, "Churn") && !Includes(t, "SharePoint") && Includes(t, "Titanic")
  {
    AbsentChar(t, "Alzheimer", 'A');
    AbsentChar(t, "Churn", 'C');
    AbsentChar(t, "SharePoint", 'h');
    IncludesAt(t, "Titanic", 0);
  }

  lemma SelectsTitanic()
    ensures RenderViz(TitanicTitle) == Some(TitanicViz)
  {
    TitanicTitleKeywords(TitanicTitle);
    FirstKeywordSelects(TitanicTitle, TitanicViz);
  }

  lemma MovieTitleKeywords0(t: string)
    requires t == MovieTitle
    ensures !Includes(t, "Alzheimer") && !Includes(t, "Churn") && !Includes(t, "SharePoint")
  {
    AbsentChar(t, "Alzheimer", 'A');
    AbsentChar(t, "Churn", 'C');
    AbsentChar(t, "SharePoint", 'S');
  }

  lemma MovieTitleKeywords1(t: string)
    requires t == MovieTitle
    ensures !Includes(t, "Titanic") && Includes(t, "Movie")
  {
    AbsentChar(t, "Titanic", 'a');
    IncludesAt(t, "Movie", 0);
  }

  lemma SelectsMovie()
    ensures RenderViz(MovieTitle) == Some(MovieViz)
  {
    MovieTitleKeywords0(MovieTitle);
    MovieTitleKeywords1(MovieTitle);
    FirstKeywordSelects(MovieTitle, MovieViz);
  }

  lemma MusicTitleKeywords0(t: string)
    requires t == MusicTitle
    ensures !Includes(t, "Alzheimer") && !Includes(t, "Churn") && !Includes(t, "SharePoint")
  {
    AbsentChar(t, "Alzheimer", 'A');
    AbsentChar(t, "Churn", 'h');
    AbsentChar(t, "SharePoint", 'S');
  }

  lemma MusicTitleKeywords1(t: string)
    requires t == MusicTitle
    ensures !Includes(t, "Titanic") && !Includes(t, "Movie") && Includes(t, "Music")
  {
    AbsentChar(t, "Titanic", 'T');
    AbsentChar(t, "Movie", 'v');
    IncludesAt(t, "Music", 0);
  }

  lemma SelectsMusic()
    ensures RenderViz(MusicTitle) == Some(MusicViz)
  {
    MusicTitleKeywords0(MusicTitle);
    MusicTitleKeywords1(MusicTitle);
    FirstKeywordSelects(MusicTitle, MusicViz);
  }

  lemma DiabetesTitleKeywords0(t: string)
    requires t == DiabetesTitle
    ensures !Includes(t, "Alzheimer") && !Includes(t, "Churn") && !Includes(t, "SharePoint")
  {
    AbsentChar(t, "Alzheimer", 'A');
    AbsentChar(t, "Churn", 'C');
    AbsentChar(t, "SharePoint", 'S');
  }

  lemma DiabetesTitleKeywords1(t: string)
    requires t == DiabetesTitle
    ensures !Includes(t, "Titanic") && !Includes(t, "Movie") && !Includes(t, "Music") && Includes(t, "Diabetes")
  {
    AbsentChar(t, "Titanic", 'T');
    AbsentChar(t, "Movie", 'M');
    AbsentChar(t, "Music", 'M');
    IncludesAt(t, "Diabetes", 0);
  }

  lemma SelectsDiabetes()
    ensures RenderViz(DiabetesTitle) == Some(DiabetesViz)
  {
    DiabetesTitleKeywords0(DiabetesTitle);
    DiabetesTitleKeywords1(DiabetesTitle);
    FirstKeywordSelects(DiabetesTitle, DiabetesViz);
  }

  lemma McqTitleKeywords0(t: string)
    requires t == McqTitle
    ensures !Includes(t, "Alzheimer") && !Includes(t, "Churn") && !Includes(t, "SharePoint")
  {
    AbsentChar(t, "Alzheimer", 'l');
    AbsentChar(t, "Churn", 'h');
    AbsentChar(t, "SharePoint", 'S');
  }

  lemma McqTitleKeywords1(t: string)
    requires t == McqTitle
    ensures !Includes(t, "Titanic") && !Includes(t, "Movie") && !Includes(t, "Music")
  {
    AbsentChar(t, "Titanic", 'T');
    AbsentChar(t, "Movie", 'v');
    AbsentChar(t, "Music", 'u');
  }

  lemma McqTitleKeywords2(t: string)
    requires t == McqTitle
    ensures !Includes(t, "Diabetes") && !Includes(t, "YouTube") && Includes(t, "MCQ")
  {
    AbsentChar(t, "Diabetes", 'D');
    AbsentChar(t, "YouTube", 'Y');
    IncludesAt(t, "MCQ", 11);
  }

  lemma SelectsMcq()
    ensures RenderViz(McqTitle) == Some(McqViz)
  {
    McqTitleKeywords0(McqTitle);
    McqTitleKeywords1(McqTitle);
    McqTitleKeywords2(McqTitle);
    FirstKeywordSelects(McqTitle, McqViz);
  }

  lemma YoutubeTitleKeywords0(t: string)
    requires t == YoutubeTitle
    ensures !Includes(t, "Alzheimer") && !Includes(t, "Churn") && !Includes(t, "SharePoint")
  {
    AbsentChar(t, "Alzheimer", 'l');
    AbsentChar(t, "Churn", 'C');
    AbsentChar(t, "SharePoint", 'S');
  }

  lemma YoutubeTitleKeywords1(t: string)
    requires t == YoutubeTitle
    ensures !Includes(t, "Titanic") && !Includes(t, "Movie") && !Includes(t, "Music")
  {
    AbsentChar(t, "Titanic", 'a');
    AbsentChar(t, "Movie", 'M');
    AbsentChar(t, "Music", 'M');
  }

  lemma YoutubeTitleKeywords2(t: string)
    requires t == YoutubeTitle
    ensures !Includes(t, "Diabetes") && Includes(t, "YouTube")
  {
    AbsentChar(t, "Diabetes", 'D');
    IncludesAt(t, "YouTube", 0);
  }

  lemma SelectsYoutube()
    ensures RenderViz(YoutubeTitle) == Some(YoutubeViz)
  {
    YoutubeTitleKeywords0(YoutubeTitle);
    YoutubeTitleKeywords1(YoutubeTitle);
    YoutubeTitleKeywords2(YoutubeTitle);
    FirstKeywordSelects(YoutubeTitle, YoutubeViz);
  }


  lemma EntrySelects0()
    ensures |Projects| == |Expected| == 9
    ensures RenderViz(Projects[0].title) == Some(Expected[0])
  {
    assert Projects[0].title == AlzheimerTitle && Expected[0] == AlzheimerViz;
    SelectsAlzheimer();
  }

  lemma EntrySelects1()
    ensures |Projects| == |Expected| == 9
    ensures RenderViz(Projects[1].title) == Some(Expected[1])
  {
    assert Projects[1].title == ChurnTitle && Expected[1] == ChurnViz;
    SelectsChurn();
  }

  lemma EntrySelects2()
    ensures |Projects| == |Expected| == 9
    ensures RenderViz(Projects[2].title) == Some(Expected[2])
  {
    assert Projects[2].title == SharePointTitle && Expected[2] == SharePointViz;
    SelectsSharePoint();
  }

  lemma EntrySelects3()
    ensures |Projects| == |Expected| == 9
    ensures RenderViz(Projects[3].title) == Some(Expected[3])
  {
    assert Projects[3].title == TitanicTitle && Expected[3] == TitanicViz;
    SelectsTitanic();
  }

  lemma EntrySelects4()
    ensures |Projects| == |Expected| == 9
    ensures RenderViz(Projects[4].title) == Some(Expected[4])
  {
    assert Projects[4].title == MovieTitle && Expected[4] == MovieViz;
    SelectsMovie();
  }

  lemma EntrySelects5()
    ensures |Projects| == |Expected| == 9
    ensures RenderViz(Projects[5].title) == Some(Expected[5])
  {
    assert Projects[5].title == MusicTitle && Expected[5] == MusicViz;
    SelectsMusic();
  }

  lemma EntrySelects6()
    ensures |Projects| == |Expected| == 9
    ensures RenderViz(Projects[6].title) == Some(Expected[6])
  {
    assert Projects[6].title == DiabetesTitle && Expected[6] == DiabetesViz;
    SelectsDiabetes();
  }

  lemma EntrySelects7()
    ensures |Projects| == |Expected| == 9
    ensures RenderViz(Projects[7].title) == Some(Expected[7])
  {
    assert Projects[7].title == McqTitle && Expected[7] == McqViz;
    SelectsMcq();
  }

  lemma EntrySelects8()
    ensures |Projects| == |Expected| == 9
    ensures RenderViz(Projects[8].title) == Some(Expected[8])
  {
    assert Projects[8].title == YoutubeTitle && Expected[8] == YoutubeViz;
    SelectsYoutube();
  }

  /** Every entry selects its expected animation (so none falls back to the static image). */
  lemma EveryProjectSelectsExpected()
    ensures |Projects| == |Expected| == 9
    ensures forall i | 0 <= i < |Projects| :: RenderViz(Projects[i].title) == Some(Expected[i])
  {
    EntrySelects0();
    EntrySelects1();
    EntrySelects2();
    EntrySelects3();
    EntrySelects4();
    EntrySelects5();
    EntrySelects6();
    EntrySelects7();
    EntrySelects8();
    forall i | 0 <= i < |Projects|
      ensures RenderViz(Projects[i].title) == Some(Expected[i])
    {
      assert i == 0 || i == 1 || i == 2 || i == 3 || i == 4 || i == 5 || i == 6 || i == 7 || i == 8;
    }
  }

  /** The nine entries mount nine different animations. */
  lemma ProjectsSelectDistinctVariants()
    ensures forall i, j | 0 <= i < j < |Expected| :: Expected[i] != Expected[j]
  {
    forall i, j | 0 <= i < j < |Expected| ensures Expected[i] != Expected[j] {
      assert Rank(Expected[i]) != Rank(Expected[j]) by {
        assert Rank(Expected[0]) == 0 && Rank(Expected[1]) == 1 && Rank(Expected[2]) == 2;
        assert Rank(Expected[3]) == 3 && Rank(Expected[4]) == 4 && Rank(Expected[5]) == 5;
        assert Rank(Expected[6]) == 6 && Rank(Expected[7]) == 8 && Rank(Expected[8]) == 7;
      }
    }
  }

  /** No entry has a `video` field: every one carries `videoUrl`/`posterUrl` or `image` instead. */
  lemma ProjectsHaveNoVideo()
    ensures forall i :: 0 <= i < |Projects| ==> !Truthy(Projects[i].video)
  {
  }
}
