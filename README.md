# Startup Helper Discord bot — verified model of its command core

The bot answers seven chat commands: `!tip`, `!resources`, `!investors`, `!ask`, `!pitch`, `!metrics` and `!help`.
Most of them format fixed tables into an embed. `!ask` forwards one question to a text-generation API and relays the
answer, cutting long answers into 1900-character slices. This project models those rules in Dafny and proves what they
promise.

Registration: the bot is created at startup_discord_bot.py:11 without `help_command=None`. discord.py would therefore register
its own `help` command first, and the file's `help` handler at line 344 would clash with it when the module loads. The
model assumes the file's own `help` handler is the one registered, as the file evidently intends.

Layout (one module per concern):

- `wrappers.dfy` — `Option` and `GetOr`. `GetOr` supplies an omitted argument's default.
- `text.dfy` — Python's `str.lower()`, `str.title()`, `sep.join()`, and the `str.split(c)` that undoes a join.
- `chunking.dfy` — the slicing `[a[i:i+1900] for i in range(0, len(a), 1900)]` and its inverse `Flatten`.
- `messages.dfy` — a reply is a text message or an embed (title, description, fields in insertion order, footer).
  `Channel` is the reply target, which records everything sent. `EmbedBuilder` is an embed built by `add_field` and `set_footer` calls.
- `content.dfy` — the tips table, the investors table and the texts of every reply except `ask`'s (those are in `advisor.dfy`), taken verbatim from the handlers.
- `content_facts.dfy` — facts about those tables: the key sets, lower-case keys, list sizes, newline-free firm names and the title-cased keys.
- `handlers.dfy` — `tip`, `investors`, `resources`, `pitch`, `metrics` and `help`. Each has a pure reply function and
  a method that builds the embed field by field and sends it. The method is proved to send exactly what the function says.
- `advisor.dfy` — `ask`. It covers the key check, the request (URL, headers, model id, `max_tokens`, one user message
  wrapping the question), the decision between the four outcomes, and the loop that sends the slices.
- `dispatch.dfy` — the commands as one datatype, and `Respond`/`Handle`, which pick the handler.

Inputs that the source reads from its surroundings are parameters here:
- `pick` is the index `random.choice` would choose.
- `apiKey` is `ANTHROPIC_API_KEY`; the empty string means unset.
- `provider` is a function from the request to its outcome. The outcome is an HTTP status with the extracted answer, or an exception with
  its description. "No request is made" is stated as: the result has no request, and it is the same for every provider.

Characters are Unicode scalar values. For every string a Dafny `string` can hold, Python's `len` and slicing count the same unit, so the 1900 bound is the source's bound. A Python `str` can also hold a lone surrogate (for example from `json.loads` of an unpaired `\ud800` escape); such answers are outside the model.

`!ask` with no question: the handler declares the question as a required keyword argument. discord.py then raises
a missing-argument error, and this file installs no handler for it, so nothing is sent. The model follows the code
(`Respond(Ask(None), env) == []`). It does not send a usage reply.

## Model

| member | source | states |
|---|---|---|
| `Text.Lower` | startup_discord_bot.py:74 | same length; no upper-case letter is left; each character is kept or replaced by a lower-case letter, for an upper-case ASCII letter or KELVIN SIGN |
| `Text.LowerOfLowerCase` | startup_discord_bot.py:74 | a string already in lower case is left unchanged, so the lower-case keys match themselves |
| `Text.LowerIdempotent` | startup_discord_bot.py:174 | lower-casing twice equals lower-casing once |
| `Text.LowerIgnoresCase` | startup_discord_bot.py:74-75 | lower-casing gives the same key whatever the ASCII case of the argument |
| `Text.Title` | startup_discord_bot.py:83 | same length; a letter becomes upper case exactly when the character before it is not a letter, as `str.title` does |
| `Text.TitleOnlyChangesCase` | startup_discord_bot.py:182 | title-casing changes letter case only: lower-casing the result gives the lower-cased input |
| `Text.LowerTitle` | startup_discord_bot.py:83 | the title-cased form of a lower-case key lower-cases back to the key |
| `Text.Join` | startup_discord_bot.py:189 | `sep.join(xs)` (also at lines 290 and 366): for no entries the empty string, for one entry that entry. `Text.SplitJoin` gives the rest of what it means |
| `Text.SplitOn` | startup_discord_bot.py:189 | not code the bot runs: the inverse that specifies the `'\n'.join` here. Splitting at a character gives at least one piece, and no piece contains that character |
| `Text.LowerChar` | startup_discord_bot.py:74 | the result is never an upper-case ASCII letter nor KELVIN SIGN; KELVIN SIGN becomes 'k'; a letter becomes a lower-case letter; any other character is kept |
| `Text.JoinSplit` | startup_discord_bot.py:189 | joining the pieces of a split at `c` with `c` restores the string, so the split of a field value determines that value |
| `Text.SplitJoin` | startup_discord_bot.py:189 | splitting a newline join at `'\n'` gives back the joined list, in order, when no entry contains a line break |
| `Chunking.Chunks` | startup_discord_bot.py:244 | every slice is 1..1900 characters; all but the last are exactly 1900; the count is the least `n` with `n*1900 >= len` (the ceiling) |
| `Chunking.ChunksPrefix` | startup_discord_bot.py:244 | the first `k` slices concatenate to the first `min(k*1900, len)` characters of the answer |
| `Chunking.ChunksFlatten` | startup_discord_bot.py:244 | the slices concatenate back to the answer |
| `Chunking.ChunksUnique` | startup_discord_bot.py:243-244 | any cut of the answer into full 1900-character pieces and a non-empty last piece of at most 1900 is exactly the slicing |
| `Chunking.ChunksOf4500` | startup_discord_bot.py:243-250 | a 4500-character answer gives the slices `[0:1900]`, `[1900:3800]`, `[3800:4500]`, of 1900, 1900 and 700 characters |
| `Messages.Channel.Send` | startup_discord_bot.py:89 | `ctx.send` appends one message to what the channel has received |
| `Messages.EmbedBuilder.constructor` | startup_discord_bot.py:82-87 | a new embed has the given title and description, no fields and no footer |
| `Messages.EmbedBuilder.AddField` | startup_discord_bot.py:187-203 | `add_field` appends one field after the existing ones and changes nothing else |
| `Messages.EmbedBuilder.SetFooter` | startup_discord_bot.py:88 | `set_footer` sets the footer and changes nothing else |
| `ContentFacts.TipKeys` | startup_discord_bot.py:29-72 | a key is in the tips table exactly when it is one of funding, marketing, product, legal, hiring, general |
| `ContentFacts.TipCategoriesDistinct` | startup_discord_bot.py:29-72 | the six category names are distinct |
| `ContentFacts.TipEntries` | startup_discord_bot.py:29-72 | every category key is in lower case and has five tips |
| `ContentFacts.StageKeys` | startup_discord_bot.py:131-172 | a key is in the investors table exactly when it is one of pre-seed, seed, series-a, series-b |
| `ContentFacts.StagesDistinct` | startup_discord_bot.py:131-172 | the four stage names are distinct |
| `ContentFacts.StageEntries` | startup_discord_bot.py:131-172 | every stage key is in lower case and lists five firms |
| `ContentFacts.FirmsOnOneLine` | startup_discord_bot.py:133-169 | no firm name contains a line break |
| `ContentFacts.SlidesOnOneLine` | startup_discord_bot.py:273-286 | there is at least one slide, and no slide contains a line break |
| `ContentFacts.HelpLinesOnOneLine` | startup_discord_bot.py:354-362 | there is at least one help line, and no help line contains a line break |
| `ContentFacts.UsageLineOnOneLine` | startup_discord_bot.py:354-362 | a help line contains a line break only if its command, arguments or summary does |
| `ContentFacts.TipNoticeNamesCategories` | startup_discord_bot.py:76 | the not-found notice lists exactly the table's six categories, in table order, separated by ", " |
| `ContentFacts.StageNoticeNamesStages` | startup_discord_bot.py:176 | the not-found notice lists exactly the table's four stages, in table order, separated by ", " |
| `Content.HelpCommands` | startup_discord_bot.py:354-362 | one line per usage, seven in all, each opening with "**!" and its command's name |
| `Content.UsageLineStarts` | startup_discord_bot.py:354-362 | a usage line opens with "**!" and the command's name |
| `ContentFacts.CategoryTitles` | startup_discord_bot.py:83 | the title-cased categories are Funding, Marketing, Product, Legal, Hiring, General |
| `ContentFacts.StageTitles` | startup_discord_bot.py:182 | the title-cased stages are Pre-Seed, Seed, Series-A, Series-B (`str.title` capitalises after a hyphen) |
| `Handlers.TipReplies` | startup_discord_bot.py:74-89 | exactly one message. It is a text exactly when the lower-cased argument is not one of the six categories; that text is "Category '<argument as typed>' not found. Available: funding, marketing, product, legal, hiring, general". Otherwise it is an embed whose description is one of that category's tips, whose title is "💡 Startup Tip - " followed by the title-cased (`Text.Title`) lower-cased category, with no fields and the fixed footer |
| `Handlers.TipIgnoresCase` | startup_discord_bot.py:74-75 | upper-casing the argument does not change whether it is found, nor the embed for a found one |
| `Handlers.TipDefault` | startup_discord_bot.py:26 | with no argument, the picked general tip is shown under "💡 Startup Tip - General" |
| `Handlers.StartupTip` | startup_discord_bot.py:25-89 | sends exactly `TipReplies` of the argument, or of "general" when it is omitted |
| `Handlers.InvestorsReplies` | startup_discord_bot.py:174-205 | exactly one message. It is a text exactly when the lower-cased stage is not one of the four stages; that text is "Stage not found. Use: pre-seed, seed, series-a, series-b". Otherwise it is an embed titled "💼 " + the title-cased (`Text.Title`) lower-cased stage + " Investors" (by `Text.TitleOnlyChangesCase` this differs from the given stage only in letter case), and it has three fields in this order: "Top Firms", whose value splits at newlines into the stage's firms in table order; "Finding Angels", holding the stage's angels text; and "💡 Pro Tip" |
| `Handlers.InvestorsEmbed` | startup_discord_bot.py:182-203 | an embed with three fields, the first named "Top Firms". If the firm list is non-empty and no firm has a line break, that field's value splits at newlines back into the firms |
| `Handlers.InvestorsDefault` | startup_discord_bot.py:128 | with no argument, the seed stage is shown under "💼 Seed Investors" |
| `Handlers.InvestorsIgnoreCase` | startup_discord_bot.py:174-175 | the reply does not depend on the case of the stage argument |
| `Handlers.FindInvestors` | startup_discord_bot.py:127-205 | adds the three fields in order, then sends exactly `InvestorsReplies` of the argument, or of "seed" when it is omitted |
| `Handlers.ResourcesReply` | startup_discord_bot.py:95-123 | one embed with the resources title, four sections under distinct headings, and no footer |
| `Handlers.StartupResources` | startup_discord_bot.py:91-125 | sends one embed with the four resource fields in source order |
| `Handlers.PitchReply` | startup_discord_bot.py:267-304 | one embed with the pitch title, three fields and no footer. The first is "📝 Slide Structure", whose value splits at newlines back into the twelve slides in order |
| `Handlers.PitchTemplate` | startup_discord_bot.py:263-306 | sends one embed. Its fields are the newline-joined twelve slides, then timing, then design tips |
| `Handlers.MetricsReply` | startup_discord_bot.py:312-340 | one embed with the metrics title, four sections under distinct headings, and no footer |
| `Handlers.KeyMetrics` | startup_discord_bot.py:308-342 | sends one embed with the four metric fields in source order |
| `Handlers.HelpReply` | startup_discord_bot.py:348-376 | one embed with the help title, two fields and the fixed footer. The first is "📋 Available Commands", whose value splits at newlines back into the help lines in order |
| `Handlers.HelpCommand` | startup_discord_bot.py:344-378 | sends one embed: the newline-joined command list, the examples and the footer |
| `Advisor.PromptQuestion` | startup_discord_bot.py:229 | not code the bot runs: the inverse that specifies the prompt template here. A content string it accepts is the fixed instruction prefix followed by the returned question |
| `Advisor.BuildRequest` | startup_discord_bot.py:218-236 | POST URL; headers `x-api-key`, `anthropic-version: 2023-06-01`, `content-type: application/json`; model `claude-sonnet-4-20250514`; `max_tokens` 500; exactly one `user` message, whose content is the instruction prefix followed by the question |
| `Advisor.BuildRequestInjective` | startup_discord_bot.py:229 | the whole question reaches the prompt: different questions give different requests |
| `Advisor.SliceMessages` | startup_discord_bot.py:245-249 | one message per slice; each description is that slice |
| `Advisor.AnswerReplies` | startup_discord_bot.py:243-257 | an answer of at most 1900 characters gives exactly one embed titled "🤖 AI Startup Advisor" holding the whole answer. A longer one gives at least two embeds, each without title, fields or footer. Their count is the ceiling of length/1900, their descriptions are fixed-width pieces, and those pieces concatenate back to the answer |
| `Advisor.OutcomeReplies` | startup_discord_bot.py:238-261 | at least one message. A non-200 status gives exactly the single "❌ AI service temporarily unavailable" text and none of the body. An exception gives "❌ Error: " followed by its description. A 200 status gives exactly `AnswerReplies` of the answer: one titled embed when it fits in 1900 characters, otherwise the untitled slices. Their descriptions concatenate to the answer |
| `Advisor.Ask` | startup_discord_bot.py:211-261 | an empty key gives exactly the configuration notice, and no request is made. With a key set, the request is `BuildRequest` of the question, and the replies are those for the provider's outcome on that request |
| `Advisor.AskWithoutKeyMakesNoRequest` | startup_discord_bot.py:211-213 | without a key the result is the same for every provider: nothing is asked of the network |
| `Advisor.AnswerOf4500` | startup_discord_bot.py:243-250 | a 4500-character answer goes out as three untitled embeds, with the slices `[0:1900]`, `[1900:3800]` and `[3800:]` in order |
| `Advisor.SendSlices` | startup_discord_bot.py:245-250 | the loop sends one embed per slice, in order. After `k` rounds, the descriptions sent so far concatenate to the answer's first `min(k*1900, len)` characters |
| `Advisor.SendAnswer` | startup_discord_bot.py:243-257 | sends exactly `AnswerReplies` of the answer |
| `Advisor.AskAi` | startup_discord_bot.py:207-261 | sends exactly `Ask(...).replies`: the notice and a return when the key is empty, otherwise the outcome's replies |
| `Dispatch.CommandName` | startup_discord_bot.py:25 | the name each handler is registered under (`@bot.command(name=...)` at lines 25, 91, 127, 207, 263, 308 and 344) is the name its help line shows |
| `Dispatch.CommandNamesDistinct` | startup_discord_bot.py:25 | no two commands are registered under the same name |
| `Dispatch.Respond` | startup_discord_bot.py:25-378 | `ask` without a question sends nothing. Every other command sends at least one message, and each non-`ask` command exactly one |
| `Dispatch.Handle` | startup_discord_bot.py:25-378 | handling a command sends exactly `Respond` for it |
| `Dispatch.HelpListsEveryCommand` | startup_discord_bot.py:354-362 | the help list has seven lines. Every command has its own line, which opens with "**!" and the command's name and has a non-empty summary |
| `Dispatch.HelpLinesDistinct` | startup_discord_bot.py:354-362 | commands with different names never share a help line |

## Left out

- The Discord client, intents, the `on_ready` presence, `ctx.typing()`, `bot.run` and the start-up token check (startup_discord_bot.py:9-23, 381-386): platform I/O.
- Command parsing: the `!` prefix, name lookup and whitespace stripping belong to discord.py. Commands arrive already parsed as `Dispatch.Command`, with `None` for an argument that is absent.
- The aiohttp session, the POST and the JSON decoding: the caller-supplied `provider` function replaces them. A 200 body without `content[0].text` raises inside the `try`, which the model covers as a `Failure` outcome.
- An exception raised by `ctx.send` itself is not modelled. In the source such an exception, raised part-way through the slice loop, would leave some slices sent and then add an error text.
- `random.choice`: replaced by the caller's index `pick`. Uniformity is not modelled.
- Colours, timestamps and the `inline` flag of fields: they do not affect the text of a reply.
- Text.Lower: lower-cases ASCII letters and KELVIN SIGN only, and leaves every other character unchanged. Python lower-cases more characters than this, but none of the others lower-cases to ASCII-only text, so whether an argument names a key is decided as in Python. The lower-cased string itself differs from Python's on other scripts; it is only compared with the table, never shown.
- Text.Title: ASCII letters only. It is applied only to keys that were found, all of which are ASCII.
- Text.Join: its contract covers only the empty and one-element cases. Its content is characterised through `Text.SplitJoin`.
- Some longer texts in `content.dfy` are written as concatenations of shorter literals, with the same value as the source's strings. The verifier cannot read individual characters of a single literal much longer than forty characters.
- The help list is stored as `Content.HelpUsages` records. Each line is `"**!" + command + arguments + "** - " + summary`, the same text as the source's literal lines.
- The static replies of `resources`, `pitch` and `metrics` are constant data. Their handlers are proved only to send that data.
