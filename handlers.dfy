/**
  The static-content commands of startup_discord_bot.py: `tip`, `investors`,
  `resources`, `pitch`, `metrics` and `help`.  Each is a pure reply function
  (what the command sends) and a method that builds the same reply on an
  embed, field by field, and sends it to the channel.
*/
module Handlers {
  import opened Wrappers
  import opened Text
  import opened Messages
  import opened Content
  import opened ContentFacts

  // ---- tip ----

  /** The index that stands for `random.choice`: within the category's list whenever the category exists. */
  predicate TipPickInRange(category: string, pick: nat)
  {
    Lower(category) in Tips ==> pick < |Tips[Lower(category)]|
  }

  /** What `!tip <category>` sends: one not-found text for an unknown key, else one embed with the picked tip. */
  function TipReplies(category: string, pick: nat): (r: seq<Message>)
    requires TipPickInRange(category, pick)
    ensures |r| == 1
    ensures r[0].Plain? <==> Lower(category) !in TipCategoryOrder
    ensures r[0].Plain? ==> r[0].content == TipNotFoundHead + category + TipNotFoundTail
    ensures r[0].Embed? ==>
      && Lower(category) in Tips
      && r[0].description.Some? && r[0].description.value in Tips[Lower(category)]
      && r[0].title == Some(TipTitlePrefix + Title(Lower(category)))
      && r[0].fields == [] && r[0].footer == Some(TipFooter)
  {
    TipKeys();
    var cat := Lower(category);
    if cat !in Tips then
      [Plain(TipNotFoundHead + category + TipNotFoundTail)]
    else
      LowerTitle(cat);
      [Embed(Some(TipTitlePrefix + Title(cat)), Some(Tips[cat][pick]), [], Some(TipFooter))]
  }

  /** The argument is case-insensitive: upper-casing it changes nothing in a found tip. */
  lemma TipIgnoresCase(category: string, pick: nat)
    requires TipPickInRange(category, pick)
    ensures TipPickInRange(Upper(category), pick)
    ensures Lower(category) in Tips ==> TipReplies(Upper(category), pick) == TipReplies(category, pick)
    ensures TipReplies(Upper(category), pick)[0].Plain? == TipReplies(category, pick)[0].Plain?
  {
    LowerIgnoresCase(category);
  }

  /** `!tip` without an argument shows a general tip under the title "💡 Startup Tip - General". */
  lemma TipDefault(pick: nat)
    requires pick < 5
    ensures TipPickInRange(DefaultTipCategory, pick)
    ensures TipReplies(DefaultTipCategory, pick) ==
      [Embed(Some(TipTitlePrefix + "General"), Some(Tips["general"][pick]), [], Some(TipFooter))]
  {
    LowerOfLowerCase(DefaultTipCategory);
    CategoryTitles();
  }

  method StartupTip(ch: Channel, category: Option<string>, pick: nat)
    requires TipPickInRange(GetOr(category, DefaultTipCategory), pick)
    modifies ch
    ensures ch.sent == old(ch.sent) + TipReplies(GetOr(category, DefaultTipCategory), pick)
  {
    var arg := GetOr(category, DefaultTipCategory);
    var cat := Lower(arg);
    if cat !in Tips {
      ch.Send(Plain(TipNotFoundHead + arg + TipNotFoundTail));
      return;
    }
    var tip := Tips[cat][pick];
    var embed := new EmbedBuilder(Some(TipTitlePrefix + Title(cat)), Some(tip));
    embed.SetFooter(TipFooter);
    ch.Send(embed.Build());
  }

  // ---- investors ----

  /** What `!investors <stage>` sends: one not-found text for an unknown stage, else one embed of three fields. */
  function InvestorsReplies(stage: string): (r: seq<Message>)
    ensures |r| == 1
    ensures r[0].Plain? <==> Lower(stage) !in StageOrder
    ensures r[0].Plain? ==> r[0].content == StageNotFound
    ensures r[0].Embed? ==>
      && Lower(stage) in Investors
      && r[0].title == Some(InvestorsTitlePrefix + Title(Lower(stage)) + InvestorsTitleSuffix)
      && r[0].description == Some(InvestorsDescription)
      && |r[0].fields| == 3
      && r[0].fields[0].name == TopFirmsName
      && SplitOn(r[0].fields[0].value, '\n') == Investors[Lower(stage)].firms
      && r[0].fields[1] == Field(FindingAngelsName, Investors[Lower(stage)].angels)
      && r[0].fields[2] == ProTip
      && r[0].footer == None
  {
    StageKeys();
    var key := Lower(stage);
    if key !in Investors then
      [Plain(StageNotFound)]
    else
      var data := Investors[key];
      StageEntries(key);
      LowerTitle(key);
      FirmsOnOneLine(key);
      [InvestorsEmbed(key, data)]
  }

  /** The embed for a found stage, in the order the fields are added. */
  function InvestorsEmbed(key: string, data: InvestorRecord): (m: Message)
    ensures m.Embed? && |m.fields| == 3 && m.fields[0].name == TopFirmsName
    ensures data.firms != [] && OnOneLine(data.firms) ==> SplitOn(m.fields[0].value, '\n') == data.firms
  {
    assert data.firms != [] && OnOneLine(data.firms) ==> SplitOn(Join("\n", data.firms), '\n') == data.firms by {
      if data.firms != [] && OnOneLine(data.firms) {
        SplitJoin(data.firms, '\n');
      }
    }
    Embed(Some(InvestorsTitlePrefix + Title(key) + InvestorsTitleSuffix), Some(InvestorsDescription),
      [Field(TopFirmsName, Join("\n", data.firms)), Field(FindingAngelsName, data.angels), ProTip], None)
  }

  /** `!investors` without an argument shows the seed stage. */
  lemma InvestorsDefault()
    ensures InvestorsReplies(DefaultStage) == [InvestorsEmbed("seed", Investors["seed"])]
    ensures InvestorsReplies(DefaultStage)[0].title == Some(InvestorsTitlePrefix + "Seed" + InvestorsTitleSuffix)
  {
    LowerOfLowerCase(DefaultStage);
    StageTitles();
  }

  /** The stage is case-insensitive. */
  lemma InvestorsIgnoreCase(stage: string)
    ensures InvestorsReplies(Upper(stage)) == InvestorsReplies(stage)
  {
    LowerIgnoresCase(stage);
  }

  method FindInvestors(ch: Channel, stage: Option<string>)
    modifies ch
    ensures ch.sent == old(ch.sent) + InvestorsReplies(GetOr(stage, DefaultStage))
  {
    var key := Lower(GetOr(stage, DefaultStage));
    if key !in Investors {
      ch.Send(Plain(StageNotFound));
      return;
    }
    var data := Investors[key];
    var embed := new EmbedBuilder(Some(InvestorsTitlePrefix + Title(key) + InvestorsTitleSuffix), Some(InvestorsDescription));
    embed.AddField(TopFirmsName, Join("\n", data.firms));
    embed.AddField(FindingAngelsName, data.angels);
    embed.AddField(ProTip.name, ProTip.value);
    assert embed.fields == [Field(TopFirmsName, Join("\n", data.firms)), Field(FindingAngelsName, data.angels), ProTip];
    assert embed.Build() == InvestorsEmbed(key, data);
    assert InvestorsReplies(GetOr(stage, DefaultStage)) == [InvestorsEmbed(key, data)];
    ch.Send(embed.Build());
  }

  // ---- resources, pitch, metrics: constant replies ----

  function ResourcesReply(): (m: Message)
    ensures m.Embed? && m.title == Some(ResourcesTitle) && |m.fields| == 4 && m.footer.None?
    ensures forall i, j :: 0 <= i < j < |m.fields| ==> m.fields[i].name != m.fields[j].name
  {
    Embed(Some(ResourcesTitle), Some(ResourcesDescription),
      [ResourcesLearning, ResourcesFunding, ResourcesTools, ResourcesCommunity], None)
  }

  method StartupResources(ch: Channel)
    modifies ch
    ensures ch.sent == old(ch.sent) + [ResourcesReply()]
  {
    var embed := new EmbedBuilder(Some(ResourcesTitle), Some(ResourcesDescription));
    embed.AddField(ResourcesLearning.name, ResourcesLearning.value);
    embed.AddField(ResourcesFunding.name, ResourcesFunding.value);
    embed.AddField(ResourcesTools.name, ResourcesTools.value);
    embed.AddField(ResourcesCommunity.name, ResourcesCommunity.value);
    assert embed.fields == [ResourcesLearning, ResourcesFunding, ResourcesTools, ResourcesCommunity];
    ch.Send(embed.Build());
  }

  function PitchReply(): (m: Message)
    ensures m.Embed? && m.title == Some(PitchTitle) && |m.fields| == 3 && m.footer.None?
    ensures m.fields[0].name == SlideStructureName && SplitOn(m.fields[0].value, '\n') == PitchSlides
  {
    SlidesOnOneLine();
    SplitJoin(PitchSlides, '\n');
    Embed(Some(PitchTitle), Some(PitchDescription),
      [Field(SlideStructureName, Join("\n", PitchSlides)), PitchTiming, PitchDesign], None)
  }

  method PitchTemplate(ch: Channel)
    modifies ch
    ensures ch.sent == old(ch.sent) + [PitchReply()]
  {
    var embed := new EmbedBuilder(Some(PitchTitle), Some(PitchDescription));
    embed.AddField(SlideStructureName, Join("\n", PitchSlides));
    embed.AddField(PitchTiming.name, PitchTiming.value);
    embed.AddField(PitchDesign.name, PitchDesign.value);
    assert embed.fields == [Field(SlideStructureName, Join("\n", PitchSlides)), PitchTiming, PitchDesign];
    ch.Send(embed.Build());
  }

  function MetricsReply(): (m: Message)
    ensures m.Embed? && m.title == Some(MetricsTitle) && |m.fields| == 4 && m.footer.None?
    ensures forall i, j :: 0 <= i < j < |m.fields| ==> m.fields[i].name != m.fields[j].name
  {
    Embed(Some(MetricsTitle), Some(MetricsDescription),
      [MetricsFinancial, MetricsCustomer, MetricsProduct, MetricsGrowth], None)
  }

  method KeyMetrics(ch: Channel)
    modifies ch
    ensures ch.sent == old(ch.sent) + [MetricsReply()]
  {
    var embed := new EmbedBuilder(Some(MetricsTitle), Some(MetricsDescription));
    embed.AddField(MetricsFinancial.name, MetricsFinancial.value);
    embed.AddField(MetricsCustomer.name, MetricsCustomer.value);
    embed.AddField(MetricsProduct.name, MetricsProduct.value);
    embed.AddField(MetricsGrowth.name, MetricsGrowth.value);
    assert embed.fields == [MetricsFinancial, MetricsCustomer, MetricsProduct, MetricsGrowth];
    ch.Send(embed.Build());
  }

  // ---- help ----

  function HelpReply(): (m: Message)
    ensures m.Embed? && m.title == Some(HelpTitle) && |m.fields| == 2 && m.footer == Some(HelpFooter)
    ensures m.fields[0].name == AvailableCommandsName && SplitOn(m.fields[0].value, '\n') == HelpCommands()
  {
    HelpLinesOnOneLine();
    SplitJoin(HelpCommands(), '\n');
    Embed(Some(HelpTitle), Some(HelpDescription),
      [Field(AvailableCommandsName, Join("\n", HelpCommands())), HelpExamples], Some(HelpFooter))
  }

  method HelpCommand(ch: Channel)
    modifies ch
    ensures ch.sent == old(ch.sent) + [HelpReply()]
  {
    var embed := new EmbedBuilder(Some(HelpTitle), Some(HelpDescription));
    embed.AddField(AvailableCommandsName, Join("\n", HelpCommands()));
    embed.AddField(HelpExamples.name, HelpExamples.value);
    assert embed.fields == [Field(AvailableCommandsName, Join("\n", HelpCommands())), HelpExamples];
    embed.SetFooter(HelpFooter);
    ch.Send(embed.Build());
  }
}
