/**
  The bot's fixed tables and texts, as defined inside its command handlers
  in startup_discord_bot.py.  They are built once and never changed.
  Some longer texts are written as a concatenation of shorter literals (the
  not-found notices split at their list items); the value is the same string.
*/
module Content {
  import opened Messages

  // ---- tip (startup_discord_bot.py:29-88) ----

  /** The six tip categories, in the order the tips table lists them. */
  const TipCategoryOrder: seq<string> := ["funding", "marketing", "product", "legal", "hiring", "general"]

  const DefaultTipCategory: string := "general"

  /** Category key to its five tips. */
  const Tips: map<string, seq<string>> := map[
    "funding" := [
      "💰 Bootstrap first - prove your concept before seeking investment",
      "📊 Know your numbers cold - investors will ask about unit economics",
      "🎯 Target investors who understand your industry and stage",
      "📈 Show traction - revenue, users, or meaningful metrics matter most",
      "🤝 Warm introductions work better than cold emails"
    ],
    "marketing" := [
      "🎯 Focus on one channel at a time until you master it",
      "👥 Build in public - share your journey on social media",
      "📝 Content marketing: Start a blog addressing customer pain points",
      "🔄 Product-led growth: Make your product easy to try and share",
      "💬 Community building beats paid ads in early stages"
    ],
    "product" := [
      "🎨 Start with MVP - ship fast, iterate based on feedback",
      "👂 Talk to users weekly - understanding problems > building features",
      "📱 Mobile-first design is crucial in 2025",
      "⚡ Page load speed impacts conversion - optimize ruthlessly",
      "🔐 Build security and privacy in from day one"
    ],
    "legal" := [
      "📄 Incorporate early - LLC or C-Corp depending on goals",
      "🤝 Always use written contracts and agreements",
      "💼 Vesting schedules protect co-founder equity",
      "™️ Trademark your brand name and logo early",
      "📋 Keep clean cap tables from the start"
    ],
    "hiring" := [
      "🎯 Hire for culture fit and learning ability over experience",
      "💡 First 10 hires define your company culture",
      "🔍 Use trial projects to assess skills before hiring",
      "📈 Equity can attract talent when cash is limited",
      "🤝 Hire people who've built things, not just worked places"
    ],
    "general" := [
      "🚀 Launch before you're ready - feedback beats perfection",
      "💪 Founder mental health is crucial - take breaks",
      "📊 Track metrics that matter: CAC, LTV, churn, MRR",
      "🔄 Pivot quickly when data shows you're wrong",
      "🎓 Learn from failures fast and move on"
    ]
  ]

  /** The not-found reply is `TipNotFoundHead + category + TipNotFoundTail`, with the argument as typed. */
  const TipNotFoundHead: string := "Category '"
  const TipNotFoundTail: string :=
    "' not found. Available: " + "funding" + ", " + "marketing" + ", " + "product" + ", " + "legal" + ", " + "hiring" + ", " + "general"
  const TipTitlePrefix: string := "💡 Startup Tip - "
  const TipFooter: string := "Use !tip <category> for more tips"

  // ---- resources (startup_discord_bot.py:95-123) ----

  const ResourcesTitle: string := "🚀 Essential Startup Resources"
  const ResourcesDescription: string := "Curated tools and platforms to help your startup succeed"
  const ResourcesLearning: Field := Field("📚 Learning", "• Y Combinator Startup School (free)\n• How to Start a Startup (YC course)\n• The Lean Startup by Eric Ries\n• Zero to One by Peter Thiel")
  const ResourcesFunding: Field := Field("💰 Funding", "• YC Combinator\n• TechStars\n• AngelList\n• Crunchbase (research)\n• Product Hunt (launches)")
  const ResourcesTools: Field := Field("🛠️ Tools", "• Notion (docs)\n• Figma (design)\n• Vercel/Replit (hosting)\n• Stripe (payments)\n• PostHog (analytics)")
  const ResourcesCommunity: Field := Field("👥 Community", "• Indie Hackers\n• Reddit r/startups\n• Twitter startup community\n• Local startup meetups\n• Slack communities")

  // ---- investors (startup_discord_bot.py:131-203) ----

  datatype InvestorRecord = InvestorRecord(firms: seq<string>, angels: string)

  /** The four funding stages, in the order the investors table lists them. */
  const StageOrder: seq<string> := ["pre-seed", "seed", "series-a", "series-b"]

  const DefaultStage: string := "seed"

  /** Stage key to its firms and angel-finding guidance. */
  const Investors: map<string, InvestorRecord> := map[
    "pre-seed" := InvestorRecord([
        "🏢 Y Combinator - batch program",
        "🏢 Hustle Fund - $25K-$150K checks",
        "🏢 Boost VC - pre-seed crypto/sci-fi",
        "🏢 Antler - pre-seed global",
        "🏢 On Deck - community + funding"
      ],
      "AngelList, Angel Investment Network, Gust"),
    "seed" := InvestorRecord([
        "🏢 Sequoia Arc - $500K-$1M",
        "🏢 a16z - varies by vertical",
        "🏢 First Round Capital",
        "🏢 Initialized Capital",
        "🏢 Founder Collective"
      ],
      "Seek warm intros via LinkedIn"),
    "series-a" := InvestorRecord([
        "🏢 Sequoia Capital",
        "🏢 Accel Partners",
        "🏢 Benchmark",
        "🏢 Greylock Partners",
        "🏢 Lightspeed Venture"
      ],
      "Focus on institutional VCs"),
    "series-b" := InvestorRecord([
        "🏢 Tiger Global",
        "🏢 Coatue Management",
        "🏢 Insight Partners",
        "🏢 General Catalyst",
        "🏢 Index Ventures"
      ],
      "Growth-stage institutional only")
  ]

  const StageNotFound: string := "Stage not found. Use: " + "pre-seed" + ", " + "seed" + ", " + "series-a" + ", " + "series-b"
  const InvestorsTitlePrefix: string := "💼 "
  const InvestorsTitleSuffix: string := " Investors"
  const InvestorsDescription: string := "Top firms and platforms for your stage"
  const TopFirmsName: string := "Top Firms"
  const FindingAngelsName: string := "Finding Angels"
  const ProTip: Field := Field("💡 Pro Tip",
    "Warm introductions have 10x higher success rate. Use LinkedIn to find connections.")

  // ---- pitch (startup_discord_bot.py:267-304) ----

  const PitchTitle: string := "📊 Pitch Deck Template (10-15 slides)"
  const PitchDescription: string := "Essential slides every investor pitch needs"
  const PitchSlides: seq<string> := [
    "1️⃣ **Cover**: Company name, " + "tagline, contact",
    "2️⃣ **Problem**: What pain " + "point are you solving?",
    "3️⃣ **Solution**: Your product/service",
    "4️⃣ **Market Size**: " + "TAM/SAM/SOM breakdown",
    "5️⃣ **Product Demo**: " + "Screenshots or video",
    "6️⃣ **Traction**: Users, " + "revenue, growth metrics",
    "7️⃣ **Business Model**: How " + "you make money",
    "8️⃣ **Competition**: " + "Competitive landscape",
    "9️⃣ **Go-to-Market**: " + "Customer acquisition strategy",
    "🔟 **Team**: Founders and key hires",
    "1️⃣1️⃣ **Financials**: 3-year " + "projections",
    "1️⃣2️⃣ **Ask**: How much, use " + "of funds, timeline"
  ]
  const SlideStructureName: string := "📝 Slide Structure"
  const PitchTiming: Field := Field("⏱️ Timing", "Aim for 10-15 minutes. Leave 10+ minutes for Q&A.")
  const PitchDesign: Field := Field("🎨 Design Tips", "• Use Pitch, Canva, or Google Slides\n• Keep it simple and visual\n• One idea per slide\n• Large fonts (30pt minimum)")

  // ---- metrics (startup_discord_bot.py:312-340) ----

  const MetricsTitle: string := "📈 Key Startup Metrics"
  const MetricsDescription: string := "Track these to understand your business health"
  const MetricsFinancial: Field := Field("💰 Financial", "• **MRR/ARR**: Monthly/Annual Recurring Revenue\n• **Burn Rate**: Cash spent per month\n• **Runway**: Months until out of cash\n• **Revenue Growth**: Month-over-month %")
  const MetricsCustomer: Field := Field("👥 Customer", "• **CAC**: Customer Acquisition Cost\n• **LTV**: Lifetime Value\n• **LTV:CAC Ratio**: Should be 3:1 or better\n• **Churn Rate**: % customers lost per month")
  const MetricsProduct: Field := Field("📊 Product", "• **DAU/MAU**: Daily/Monthly Active Users\n• **Activation Rate**: % completing key action\n• **Retention**: % users returning\n• **NPS**: Net Promoter Score")
  const MetricsGrowth: Field := Field("🎯 Growth", "• **Viral Coefficient**: Users referred per user\n• **Conversion Rate**: % visitors to customers\n• **Payback Period**: Time to recover CAC")

  // ---- help (startup_discord_bot.py:348-376) ----

  const HelpTitle: string := "🚀 Startup Helper Bot - Commands"
  const HelpDescription: string := "Your AI-powered startup assistant"
  /** One help line: `**!<command><arguments>** - <summary>`. */
  datatype Usage = Usage(command: string, arguments: string, summary: string)

  function UsageLine(u: Usage): string
  {
    "**!" + u.command + u.arguments + "** - " + u.summary
  }

  /** The usage of each command, in the order the help reply lists them. */
  const HelpUsages: seq<Usage> := [
    Usage("tip", " [category]", "Get startup tips " + "(funding, marketing, " + "product, legal, " + "hiring, general)"),
    Usage("resources", "", "Essential tools and platforms"),
    Usage("investors", " [stage]", "Find investors by stage " + "(pre-seed, seed, " + "series-a, series-b)"),
    Usage("ask", " [question]", "Ask AI for startup advice"),
    Usage("pitch", "", "Get pitch deck template"),
    Usage("metrics", "", "Key metrics to track"),
    Usage("help", "", "Show this message")
  ]

  /** The help reply's command list, one line per usage, each opening with the command's name. */
  function HelpCommands(): (lines: seq<string>)
    ensures |lines| == |HelpUsages|
    ensures forall i :: 0 <= i < |lines| ==> "**!" + HelpUsages[i].command <= lines[i]
  {
    var lines := seq(|HelpUsages|, i requires 0 <= i < |HelpUsages| => UsageLine(HelpUsages[i]));
    assert forall i :: 0 <= i < |lines| ==> "**!" + HelpUsages[i].command <= lines[i] by {
      forall i | 0 <= i < |lines|
        ensures "**!" + HelpUsages[i].command <= lines[i]
      {
        UsageLineStarts(HelpUsages[i]);
      }
    }
    lines
  }

  lemma UsageLineStarts(u: Usage)
    ensures "**!" + u.command <= UsageLine(u)
  {
    assert UsageLine(u) == ("**!" + u.command) + (u.arguments + "** - " + u.summary);
  }

  const AvailableCommandsName: string := "📋 Available Commands"
  const HelpExamples: Field := Field("💡 Examples",
    "`!tip funding` - Get funding tips\n`!investors seed` - Find seed investors\n`!ask How do I validate my idea?` - AI advice")
  const HelpFooter: string := "Built for startups by startups 🚀"
}
