/** Facts about the fixed tables that the handlers' contracts rely on. */
module ContentFacts {
  import opened Text
  import opened Content

  /** The tips table has exactly the six listed categories. */
  lemma TipKeys()
    ensures forall k :: k in Tips <==> k in TipCategoryOrder
  {
  }

  /** The six category names are distinct. */
  lemma TipCategoriesDistinct()
    ensures |TipCategoryOrder| == 6
    ensures forall i, j :: 0 <= i < j < |TipCategoryOrder| ==> TipCategoryOrder[i] != TipCategoryOrder[j]
  {
  }

  /** Every category key is in lower case and has five tips. */
  lemma TipEntries(k: string)
    requires k in Tips
    ensures IsLowerCase(k) && |Tips[k]| == 5
  {
  }

  /** The investors table has exactly the four listed stages. */
  lemma StageKeys()
    ensures forall k :: k in Investors <==> k in StageOrder
  {
  }

  /** The four stage names are distinct. */
  lemma StagesDistinct()
    ensures |StageOrder| == 4
    ensures forall i, j :: 0 <= i < j < |StageOrder| ==> StageOrder[i] != StageOrder[j]
  {
  }

  /** Every stage key is in lower case and has five firms. */
  lemma StageEntries(k: string)
    requires k in Investors
    ensures IsLowerCase(k) && |Investors[k].firms| == 5
  {
  }

  /** No firm name holds a line break, so the newline-joined field can be split back into the list. */
  lemma FirmsOnOneLine(stage: string)
    requires stage in Investors
    ensures OnOneLine(Investors[stage].firms)
  {
    StageKeys();
    if stage == "pre-seed" {
      PreSeedFirmsOnOneLine();
    } else if stage == "seed" {
      SeedFirmsOnOneLine();
    } else if stage == "series-a" {
      SeriesAFirmsOnOneLine();
    } else {
      SeriesBFirmsOnOneLine();
    }
  }

  /** No entry of `xs` holds a line break. */
  predicate OnOneLine(xs: seq<string>)
  {
    forall i :: 0 <= i < |xs| ==> '\n' !in xs[i]
  }

  /** The twelve pitch slides are single lines, so their newline join splits back into them. */
  lemma SlidesOnOneLine()
    ensures PitchSlides != [] && OnOneLine(PitchSlides)
  {
    Slide0OnOneLine();
    Slide1OnOneLine();
    Slide2OnOneLine();
    Slide3OnOneLine();
    Slide4OnOneLine();
    Slide5OnOneLine();
    Slide6OnOneLine();
    Slide7OnOneLine();
    Slide8OnOneLine();
    Slide9OnOneLine();
    Slide10OnOneLine();
    Slide11OnOneLine();
  }

  lemma Slide0OnOneLine() ensures '\n' !in PitchSlides[0] {}
  lemma Slide1OnOneLine() ensures '\n' !in PitchSlides[1] {}
  lemma Slide2OnOneLine() ensures '\n' !in PitchSlides[2] {}
  lemma Slide3OnOneLine() ensures '\n' !in PitchSlides[3] {}
  lemma Slide4OnOneLine() ensures '\n' !in PitchSlides[4] {}
  lemma Slide5OnOneLine() ensures '\n' !in PitchSlides[5] {}
  lemma Slide6OnOneLine() ensures '\n' !in PitchSlides[6] {}
  lemma Slide7OnOneLine() ensures '\n' !in PitchSlides[7] {}
  lemma Slide8OnOneLine() ensures '\n' !in PitchSlides[8] {}
  lemma Slide9OnOneLine() ensures '\n' !in PitchSlides[9] {}
  lemma Slide10OnOneLine() ensures '\n' !in PitchSlides[10] {}
  lemma Slide11OnOneLine() ensures '\n' !in PitchSlides[11] {}

  /** The help lines are single lines, so their newline join splits back into them. */
  lemma HelpLinesOnOneLine()
    ensures HelpCommands() != [] && OnOneLine(HelpCommands())
  {
    TipUsageOnOneLine();
    ResourcesUsageOnOneLine();
    InvestorsUsageOnOneLine();
    AskUsageOnOneLine();
    PitchUsageOnOneLine();
    MetricsUsageOnOneLine();
    HelpUsageOnOneLine();
  }

  /** A usage line holds a line break only if one of its parts does. */
  lemma UsageLineOnOneLine(u: Usage)
    requires '\n' !in u.command && '\n' !in u.arguments && '\n' !in u.summary
    ensures '\n' !in UsageLine(u)
  {
    var opening := "**!" + u.command + u.arguments;
    assert '\n' !in "**!" + u.command;
    assert '\n' !in opening;
    assert '\n' !in opening + "** - ";
    assert UsageLine(u) == opening + "** - " + u.summary;
  }

  lemma TipUsageOnOneLine() ensures '\n' !in UsageLine(HelpUsages[0]) { TipSummaryOnOneLine(); UsageLineOnOneLine(HelpUsages[0]); }
  lemma TipSummaryOnOneLine() ensures '\n' !in HelpUsages[0].summary
  {
    var a, b, c, d := "Get startup tips ", "(funding, marketing, ", "product, legal, ", "hiring, general)";
    assert '\n' !in a && '\n' !in b && '\n' !in c && '\n' !in d;
    assert '\n' !in a + b;
    assert '\n' !in a + b + c;
    assert '\n' !in a + b + c + d;
    assert HelpUsages[0].summary == a + b + c + d;
  }
  lemma ResourcesUsageOnOneLine() ensures '\n' !in UsageLine(HelpUsages[1]) { UsageLineOnOneLine(HelpUsages[1]); }
  lemma InvestorsUsageOnOneLine() ensures '\n' !in UsageLine(HelpUsages[2]) { InvestorsSummaryOnOneLine(); UsageLineOnOneLine(HelpUsages[2]); }
  lemma InvestorsSummaryOnOneLine() ensures '\n' !in HelpUsages[2].summary
  {
    var a, b, c := "Find investors by stage ", "(pre-seed, seed, ", "series-a, series-b)";
    assert '\n' !in a && '\n' !in b && '\n' !in c;
    assert '\n' !in a + b;
    assert '\n' !in a + b + c;
    assert HelpUsages[2].summary == a + b + c;
  }
  lemma AskUsageOnOneLine() ensures '\n' !in UsageLine(HelpUsages[3]) { UsageLineOnOneLine(HelpUsages[3]); }
  lemma PitchUsageOnOneLine() ensures '\n' !in UsageLine(HelpUsages[4]) { UsageLineOnOneLine(HelpUsages[4]); }
  lemma MetricsUsageOnOneLine() ensures '\n' !in UsageLine(HelpUsages[5]) { UsageLineOnOneLine(HelpUsages[5]); }
  lemma HelpUsageOnOneLine() ensures '\n' !in UsageLine(HelpUsages[6]) { UsageLineOnOneLine(HelpUsages[6]); }

  /** The category notice names exactly the table's categories, in table order. */
  lemma TipNoticeNamesCategories()
    ensures TipNotFoundTail == "' not found. Available: " + Join(", ", TipCategoryOrder)
  {
    JoinOfSix(", ", "funding", "marketing", "product", "legal", "hiring", "general");
  }

  /** The stage notice names exactly the table's stages, in table order. */
  lemma StageNoticeNamesStages()
    ensures StageNotFound == "Stage not found. Use: " + Join(", ", StageOrder)
  {
    JoinOfFour(", ", "pre-seed", "seed", "series-a", "series-b");
  }

  lemma PreSeedFirmsOnOneLine() ensures OnOneLine(Investors["pre-seed"].firms) {}
  lemma SeedFirmsOnOneLine() ensures OnOneLine(Investors["seed"].firms) {}
  lemma SeriesAFirmsOnOneLine() ensures OnOneLine(Investors["series-a"].firms) {}
  lemma SeriesBFirmsOnOneLine() ensures OnOneLine(Investors["series-b"].firms) {}

  /** The title-cased tip categories. */
  lemma CategoryTitles()
    ensures Title("funding") == "Funding" && Title("marketing") == "Marketing"
    ensures Title("product") == "Product" && Title("legal") == "Legal"
    ensures Title("hiring") == "Hiring" && Title("general") == "General"
  {
    FirstCategoryTitles();
  }

  lemma FirstCategoryTitles()
    ensures Title("funding") == "Funding" && Title("marketing") == "Marketing"
  {
  }

  /** The title-cased stages; `str.title` also capitalises the letter after a hyphen. */
  lemma StageTitles()
    ensures Title("pre-seed") == "Pre-Seed" && Title("seed") == "Seed"
    ensures Title("series-a") == "Series-A" && Title("series-b") == "Series-B"
  {
  }
}
