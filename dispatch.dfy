/**
  The seven commands of startup_discord_bot.py as one datatype, and the
  dispatch from a parsed command to its handler.  An argument is None when
  the message holds nothing after the command name.
*/
module Dispatch {
  import opened Wrappers
  import opened Messages
  import Content
  import Handlers
  import Advisor

  datatype Command =
    | Tip(category: Option<string>)
    | Resources
    | Investors(stage: Option<string>)
    | Ask(question: Option<string>)
    | Pitch
    | Metrics
    | Help

  /** The name a command is registered under. */
  function CommandName(c: Command): (r: string)
    ensures r == Content.HelpUsages[HelpIndex(c)].command
  {
    match c
    case Tip(_) => "tip"
    case Resources => "resources"
    case Investors(_) => "investors"
    case Ask(_) => "ask"
    case Pitch => "pitch"
    case Metrics => "metrics"
    case Help => "help"
  }

  /** What a handler may consult beyond its argument: the configured key, the random pick and the provider. */
  datatype Environment = Environment(apiKey: string, pick: nat, provider: Advisor.Request -> Advisor.ApiOutcome)

  predicate Ready(c: Command, env: Environment)
  {
    c.Tip? ==> Handlers.TipPickInRange(GetOr(c.category, Content.DefaultTipCategory), env.pick)
  }

  /**
    Everything one invocation sends.  A missing `ask` question raises the
    framework's missing-argument error, for which the bot has no handler, so
    nothing is sent.
  */
  function Respond(c: Command, env: Environment): (r: seq<Message>)
    requires Ready(c, env)
    ensures r == [] <==> c == Ask(None)
    ensures !c.Ask? ==> |r| == 1
  {
    match c
    case Tip(category) => Handlers.TipReplies(GetOr(category, Content.DefaultTipCategory), env.pick)
    case Resources => [Handlers.ResourcesReply()]
    case Investors(stage) => Handlers.InvestorsReplies(GetOr(stage, Content.DefaultStage))
    case Ask(question) =>
      if question.None? then []
      else Advisor.Ask(env.apiKey, question.value, env.provider).replies
    case Pitch => [Handlers.PitchReply()]
    case Metrics => [Handlers.MetricsReply()]
    case Help => [Handlers.HelpReply()]
  }

  method Handle(ch: Channel, c: Command, env: Environment)
    requires Ready(c, env)
    modifies ch
    ensures ch.sent == old(ch.sent) + Respond(c, env)
  {
    match c
    case Tip(category) =>
      Handlers.StartupTip(ch, category, env.pick);
      assert Respond(c, env) == Handlers.TipReplies(GetOr(category, Content.DefaultTipCategory), env.pick);
    case Resources =>
      Handlers.StartupResources(ch);
      assert Respond(c, env) == [Handlers.ResourcesReply()];
    case Investors(stage) =>
      Handlers.FindInvestors(ch, stage);
      assert Respond(c, env) == Handlers.InvestorsReplies(GetOr(stage, Content.DefaultStage));
    case Ask(question) =>
      if question.Some? {
        Advisor.AskAi(ch, env.apiKey, question.value, env.provider);
        assert Respond(c, env) == Advisor.Ask(env.apiKey, question.value, env.provider).replies;
      } else {
        assert Respond(c, env) == [];
      }
    case Pitch =>
      Handlers.PitchTemplate(ch);
      assert Respond(c, env) == [Handlers.PitchReply()];
    case Metrics =>
      Handlers.KeyMetrics(ch);
      assert Respond(c, env) == [Handlers.MetricsReply()];
    case Help =>
      Handlers.HelpCommand(ch);
      assert Respond(c, env) == [Handlers.HelpReply()];
  }

  /** The line of the help listing that describes `c`. */
  function HelpIndex(c: Command): (i: nat)
    ensures i < |Content.HelpUsages|
  {
    match c
    case Tip(_) => 0
    case Resources => 1
    case Investors(_) => 2
    case Ask(_) => 3
    case Pitch => 4
    case Metrics => 5
    case Help => 6
  }

  /** The help listing has one line per command: it opens with "**!" and the command's name and has a non-empty summary. */
  lemma HelpListsEveryCommand(c: Command)
    ensures |Content.HelpCommands()| == 7 && HelpIndex(c) < 7
    ensures Content.HelpUsages[HelpIndex(c)].command == CommandName(c)
    ensures Content.HelpUsages[HelpIndex(c)].summary != ""
    ensures "**!" + CommandName(c) <= Content.HelpCommands()[HelpIndex(c)]
  {
  }

  /** Commands with different names never share a help line. */
  lemma HelpLinesDistinct(c1: Command, c2: Command)
    requires HelpIndex(c1) == HelpIndex(c2)
    ensures CommandName(c1) == CommandName(c2)
  {
  }

  /** No two commands are registered under the same name. */
  lemma CommandNamesDistinct(c1: Command, c2: Command)
    requires CommandName(c1) == CommandName(c2)
    ensures HelpIndex(c1) == HelpIndex(c2)
  {
  }
}
