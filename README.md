# Terminal portfolio: command interpreter and terminal session

This project models the interactive core of a browser "terminal" portfolio site. The site is written in TypeScript and React. A visitor types commands at a prompt and the command processor answers them. `help` shows a fixed overview of the commands. `about`, `skills`, `projects`, `experience`, `resume` and `socials` show screens built from the owner's profile. `ask` forwards a question to a Gemini language model. `joke` and `inspire` pick a canned text. `clear`/`cls` wipe the transcript, and `sudo`, `ls`, `pwd`, `whoami`, `date` and `uname` give shell-like answers. Any other name is an error.

Around the command processor:

- The terminal keeps the transcript of output records, the command history and its copy in local storage (the newest fifty entries), and a processing flag.
- The input line recalls history with the arrow keys and completes command names with Tab.
- Each transcript line picks a colour by kind, types AI answers out one character per tick, and asks the terminal to clear itself when its content is the `CLEAR_COMMAND` sentinel.

Modules, one per source file (plus shared ones):

- `Strings`: the JavaScript string built-ins the source relies on (`trim`, `split`, `join`, `toLowerCase`, `startsWith`, `padEnd`, `repeat`, number rendering).
- `Records`: the record shapes of `src/types/index.ts`.
- `Profile`: the owner's data of `src/data/personalInfo.ts`.
- `Gemini`: `src/services/geminiService.ts`. The remote model is an oracle from prompt to reply, and the random choice is an index passed in.
- `Commands`: `src/utils/commandProcessor.ts`, as pure functions over an environment. The environment holds the profile, the screens' fixed texts, the AI service, the oracle, the random pick and the clock readings.
- `OutputView`: `src/components/OutputLine.tsx`, including the class `LineView` for the typing effect.
- `Prompt`: `src/components/CommandLine.tsx`. The pure step function `KeyStep` specifies the class `InputLine`.
- `Terminal`: `src/components/Terminal.tsx`. The class `Session` splits the asynchronous `handleCommand` at its `await`.
  - `Begin` is the synchronous part: echo, history, storage.
  - `Settle` is the continuation: the result record, the end of processing, and the render that follows it.

Two details of the command history:

- The in-memory command history is never truncated; only the stored copy is limited to fifty entries (`Terminal.tsx:120-122`).
- The echo shows the text handed to `handleCommand`. The input line has already trimmed it (`CommandLine.tsx:36-37`).

## Model

| member | source | states |
|---|---|---|
| `Strings.TrimStart` | src/utils/commandProcessor.ts:11 | drops exactly a leading run of JavaScript white space and line terminators: the result is a suffix, what was dropped is blank, the result starts with a non-space |
| `Strings.TrimEnd` | src/utils/commandProcessor.ts:11 | the mirror image for the trailing run |
| `Strings.TrimEmptyIffBlank` | src/components/Terminal.tsx:105 | `trim()` gives the empty string exactly for blank text, which is the falsy test `!text.trim()` |
| `Strings.TrimEnds` | src/utils/commandProcessor.ts:11 | a trimmed text is empty or starts and ends with a non-space |
| `Strings.TrimIdempotent` | src/components/CommandLine.tsx:36-37 | trimming twice is trimming once |
| `Strings.TrimNoEdges` | src/utils/commandProcessor.ts:11 | a text without white space at either end is its own trim |
| `Strings.IndexOf` | src/utils/commandProcessor.ts:11 | the first position of a character that occurs |
| `Strings.Split` | src/utils/commandProcessor.ts:11 | `split(" ")` gives at least one piece and no piece holds the separator |
| `Strings.JoinSplit` | src/utils/commandProcessor.ts:11-13 | joining the pieces with the separator gives back the text |
| `Strings.SplitJoin` | src/utils/commandProcessor.ts:11-13 | splitting a join of separator-free pieces gives back the pieces |
| `Strings.SplitRest` | src/utils/commandProcessor.ts:11-13 | the first piece is the text before the first separator and the rest joins back to the text after it |
| `Strings.SplitWord` | src/utils/commandProcessor.ts:11 | a separator-free word and a separator split into that word and the pieces of the rest |
| `Strings.SplitLeading` | src/utils/commandProcessor.ts:11 | a leading separator contributes an empty first piece |
| `Strings.Lower` | src/utils/commandProcessor.ts:12 | `toLowerCase()` keeps the length and maps each character to its lower-case form |
| `Strings.LowerKeepsSpace` | src/components/CommandLine.tsx:80 | lower-casing keeps white space where it was |
| `Strings.Repeat` | src/utils/commandProcessor.ts:193 | `"-".repeat(n)` has n characters, all that character |
| `Strings.PadEnd` | src/utils/commandProcessor.ts:281 | `padEnd(12)` keeps the text as a prefix and pads with spaces to at least that width |
| `Strings.NatText` | src/utils/commandProcessor.ts:192 | a number in a template literal is a non-empty string of decimal digits without a leading zero |
| `Strings.NatTextRoundTrip` | src/components/Terminal.tsx:111 | reading the rendered digits back gives the number |
| `Strings.NatTextInjective` | src/components/Terminal.tsx:111 | different numbers render differently |
| `Gemini.ApiKey` | src/services/geminiService.ts:4 | `VITE_GEMINI_API_KEY \|\| "demo-key"`: never empty, and the demo key exactly when the variable is missing, empty or itself the demo key |
| `Gemini.NewService` | src/services/geminiService.ts:9-13 | the constructed service chooses from the shipped joke and quote lists |
| `Gemini.ConfiguredIff` | src/services/geminiService.ts:4-13 | a client exists exactly when `VITE_GEMINI_API_KEY` is set, non-empty and not `demo-key`, and then it holds that key |
| `Gemini.ContextPrompt` | src/services/geminiService.ts:15-38 | `getContextPrompt`; what it contains is stated by `Gemini.ContextPromptMentions` |
| `Gemini.Prompt` | src/services/geminiService.ts:54 | the text sent to the model: the context prompt, then the query |
| `Gemini.ContextPromptMentions` | src/services/geminiService.ts:15-38 | the context prompt states owner and title, the bio, all skills joined by ", ", and one summary line for every project and every position |
| `Gemini.LeadingSkills` | src/services/geminiService.ts:46-48 | `skills.slice(0, 5)`: the first five skills, or all when fewer |
| `Gemini.DemoAnswerMentions` | src/services/geminiService.ts:42-50 | the demo answer quotes the query and names owner and title, the leading skills and the first project |
| `Gemini.DemoAnswer` | src/services/geminiService.ts:41-51 | the demo text; what it contains is stated by `Gemini.DemoAnswerMentions` |
| `Gemini.AskQuestion` | src/services/geminiService.ts:40-69 | `askQuestion`; its cases are stated by `Gemini.UnconfiguredAnswer` and `Gemini.ConfiguredAnswer` |
| `Gemini.UnconfiguredAnswer` | src/services/geminiService.ts:40-51 | without a client the answer is the demo text, whatever the model would say |
| `Gemini.ConfiguredAnswer` | src/services/geminiService.ts:53-68 | with a client the answer is the model's non-empty text; it is "No response from AI." for an empty or missing text and the apology for a failed call; it is never empty |
| `Gemini.Joke` | src/services/geminiService.ts:71-80 | the joke is the picked entry of the joke list |
| `Gemini.Inspiration` | src/services/geminiService.ts:82-91 | the quote is the picked entry of the quote list |
| `Gemini.CannedListsCovered` | src/services/geminiService.ts:71-91 | every list entry is some pick's answer and every answer is an entry; neither depends on the client |
| `Gemini.ShippedChoices` | src/services/geminiService.ts:72-89 | a constructed service picks from the five jokes and five quotes of the source |
| `Commands.ProjectBlocksPrefix` | src/utils/commandProcessor.ts:190-206 | each `forEach` step appends block i + 1 for project i |
| `Commands.ProjectBlock` | src/utils/commandProcessor.ts:191-205 | one project's block: heading, underline, description, stack, the GitHub link and the demo link when set |
| `Commands.ShowProjects` | src/utils/commandProcessor.ts:182-216 | the loop builds exactly the specified projects screen |
| `Commands.ExperienceBlocksPrefix` | src/utils/commandProcessor.ts:226-232 | each `forEach` step appends entry i + 1 for position i |
| `Commands.ShowExperience` | src/utils/commandProcessor.ts:218-242 | the loop builds exactly the specified experience screen |
| `Commands.SocialIcon` | src/utils/commandProcessor.ts:297-307 | `getSocialIcon`: the table's icon for the platform as given (the keys are capitalised, so case matters), the link icon for a platform not in it |
| `Commands.SocialIconDefault` | src/utils/commandProcessor.ts:297-307 | the icon is the table's entry for a listed platform and the link icon exactly for an unlisted one (platform names that are not `Object.prototype` members) |
| `Commands.SocialLinesPrefix` | src/utils/commandProcessor.ts:279-282 | each `forEach` step appends the line of the next `Object.entries` pair |
| `Commands.ShowSocials` | src/utils/commandProcessor.ts:269-295 | the loop builds exactly the specified socials screen |
| `Commands.HelpText` | src/utils/commandProcessor.ts:85-122 | `showHelp`: the fixed command overview (its opening line is stated by `Commands.ProfileScreens`) |
| `Commands.AboutText` | src/utils/commandProcessor.ts:124-145 | `showAbout`: banner, name, title, bio and closing text (opening line by `Commands.ProfileScreens`) |
| `Commands.SkillsText` | src/utils/commandProcessor.ts:147-180 | `showSkills`: banner and the skills (opening line by `Commands.ProfileScreens`) |
| `Commands.ResumeText` | src/utils/commandProcessor.ts:244-267 | `showResume`: banner, the resume link and the locale date of the clock (opening line by `Commands.ProfileScreens`) |
| `Commands.ListingText` | src/utils/commandProcessor.ts:351-367 | `listDirectory`: the nine entries, each with the clock's locale date; stated by `Commands.ListingOpensLine` and `Commands.ListingCommand` |
| `Commands.AskAI` | src/utils/commandProcessor.ts:309-328 | `askAI`: the usage error for a blank question, otherwise the AI prefix and the service's answer; stated by `Commands.AskBlank` and `Commands.AskAnswered` |
| `Commands.SudoRmRf` | src/utils/commandProcessor.ts:369-388 | the prank is an AI line |
| `Commands.Tokens` | src/utils/commandProcessor.ts:11 | the trimmed input splits into at least one piece |
| `Commands.Handle` | src/utils/commandProcessor.ts:15-82 | no branch answers with a command-kind line |
| `Commands.ProcessCommand` | src/utils/commandProcessor.ts:10-83 | a processed command never yields a command-kind line |
| `Commands.ParseInput` | src/utils/commandProcessor.ts:10-15 | the name is the lower-cased text before the first space of the trimmed input, the arguments rejoin to the text after it, and dispatch goes by that name |
| `Commands.ParseWord` | src/utils/commandProcessor.ts:11-13 | a word followed by space-separated arguments parses into that word and the pieces of the rest |
| `Commands.EmptyPieceKept` | src/utils/commandProcessor.ts:11-13 | a double space keeps an empty argument, so the rejoined argument text keeps both spaces |
| `Commands.CaseInsensitive` | src/utils/commandProcessor.ts:12 | command names differing only in case give the same answer |
| `Commands.SudoArguments` | src/utils/commandProcessor.ts:50-57 | `sudo` with exactly `rm -rf /*` plays the prank, and otherwise says the command is not found |
| `Commands.TrimmedInputSame` | src/utils/commandProcessor.ts:11 | surrounding white space does not change the answer |
| `Commands.NameOf` | src/utils/commandProcessor.ts:15-82 | the `case` label a lower-cased name selects; its properties are `Commands.NameOfLabel` |
| `Commands.NameOfLabel` | src/utils/commandProcessor.ts:15-82 | each `case` label selects its own branch and exactly the names outside the table reach `default` |
| `Commands.NotFoundMentions` | src/utils/commandProcessor.ts:77-81 | the not-found text quotes the name and ends with the hint to type `help` |
| `Commands.UnknownCommand` | src/utils/commandProcessor.ts:77-81 | an unknown name is answered with an error quoting the lower-cased name and the help hint |
| `Commands.ShippedOpensLines` | src/utils/commandProcessor.ts:85-295 | every shipped screen starts on a new line |
| `Commands.ProfileScreens` | src/utils/commandProcessor.ts:16-32 | `help`, `about`, `skills` and `resume` are output lines that open on a new line |
| `Commands.ListScreens` | src/utils/commandProcessor.ts:25-35 | `projects`, `experience` and `socials` are output lines that open on a new line |
| `Commands.ListingOpensLine` | src/utils/commandProcessor.ts:351-367 | the directory listing starts on a new line |
| `Commands.ListingCommand` | src/utils/commandProcessor.ts:59-60 | `ls` answers with the listing as output |
| `Commands.FixedOutputs` | src/utils/commandProcessor.ts:62-75 | `pwd`, `whoami` and `uname` answer with their fixed texts, and `date` with the clock's date text, all as output |
| `Commands.FixedTextsDiffer` | src/utils/commandProcessor.ts:62-75 | none of the fixed answers, nor the `ask` usage text, is the clear sentinel |
| `Commands.ClearCommands` | src/utils/commandProcessor.ts:46-48 | `clear` and `cls` both answer with the sentinel as output |
| `Commands.UnknownBranch` | src/utils/commandProcessor.ts:77-81 | `default` answers with the not-found error, which is not the sentinel |
| `Commands.SudoCommand` | src/utils/commandProcessor.ts:50-57 | the prank is played exactly when the joined arguments are `rm -rf /*` |
| `Commands.SudoStagesShown` | src/utils/commandProcessor.ts:369-388 | all fourteen stages appear, joined by newlines |
| `Commands.SudoTextsDiffer` | src/utils/commandProcessor.ts:50-57 | neither `sudo` answer is the sentinel |
| `Commands.AskBranch` | src/utils/commandProcessor.ts:37-38 | `ask` passes the space-joined arguments to `askAI` |
| `Commands.AskBlank` | src/utils/commandProcessor.ts:309-315 | a blank question gets the usage error |
| `Commands.AskAnswered` | src/utils/commandProcessor.ts:317-319 | any other question gets an AI line: the assistant prefix and then the delegate's answer |
| `Commands.CannedCommands` | src/utils/commandProcessor.ts:330-349 | `joke` and `inspire` answer with an AI line holding an entry of their list behind its emoji |
| `Commands.ErrorResults` | src/utils/commandProcessor.ts:15-82 | the result is an error exactly for an unknown name, a blank `ask` and a `sudo` other than the prank |
| `Commands.AiResults` | src/utils/commandProcessor.ts:15-82 | the result is an AI line exactly for `joke`, `inspire`, an answered `ask` and the prank |
| `Commands.ExpectedKinds` | src/utils/commandProcessor.ts:15-82 | the reference table of kinds has those two exact cases |
| `Commands.BranchKinds` | src/utils/commandProcessor.ts:15-82 | every branch's kind is the one in the reference table |
| `Commands.ScreensNotSentinel` | src/utils/commandProcessor.ts:16-35 | no profile screen, and not the listing, is the sentinel |
| `Commands.ShellNotSentinel` | src/utils/commandProcessor.ts:50-81 | no shell-like or error answer is the sentinel |
| `Commands.ServiceNotSentinel` | src/utils/commandProcessor.ts:37-44 | no AI-backed answer is the sentinel |
| `Commands.SentinelOnlyFromClear` | src/utils/commandProcessor.ts:15-82 | a branch answers with the sentinel exactly when it is `clear` or `cls` |
| `Commands.ClearInput` | src/utils/commandProcessor.ts:10-48 | an input yields the sentinel exactly when its lower-cased first word is `clear` or `cls` |
| `Commands.ProjectBlocksHold` | src/utils/commandProcessor.ts:190-206 | every project's numbered block appears in the blocks |
| `Commands.ProjectsListed` | src/utils/commandProcessor.ts:182-216 | every project's block appears in the screen, and the screen ends with the total |
| `Commands.ProjectEntryShape` | src/utils/commandProcessor.ts:191-205 | a block opens with its number, name and underline; it shows each link that is set, and a link that is not set adds no line, whether or not the other one is set |
| `Commands.LinksOmitted` | src/utils/commandProcessor.ts:197-203 | a missing GitHub link leaves heading, live line and newline; a missing live link leaves heading, GitHub line and newline |
| `Commands.ExperienceBlocksHold` | src/utils/commandProcessor.ts:226-232 | every position's numbered entry appears in the entries |
| `Commands.ExperienceListed` | src/utils/commandProcessor.ts:218-242 | every position appears in the screen, and the screen ends with the timeline count |
| `Commands.SocialLinesHold` | src/utils/commandProcessor.ts:279-282 | every platform's line appears in the lines |
| `Commands.SocialsListed` | src/utils/commandProcessor.ts:269-295 | every platform's line appears in the screen and starts with its icon and the padded platform name |
| `Commands.PortfolioIcons` | src/utils/commandProcessor.ts:297-307 | every platform of the shipped profile has its own icon |
| `OutputView.LineColor` | src/components/OutputLine.tsx:37-48 | each kind has its own colour class: cyan for commands, red for errors, yellow for AI, green for output |
| `OutputView.ColorsDistinct` | src/components/OutputLine.tsx:37-48 | two lines share a colour exactly when they share a kind |
| `OutputView.ClearsTranscript` | src/components/OutputLine.tsx:50-56 | only a sentinel line with a clear callback clears |
| `OutputView.TickStep` | src/components/OutputLine.tsx:20-28 | one interval callback; its effect over k ticks is stated by `OutputView.TypingAfter` and `OutputView.TypingGrows` |
| `OutputView.Start` | src/components/OutputLine.tsx:13-35 | an AI line starts typing from nothing with the cursor on; any other line shows its content at once |
| `OutputView.TypingAfter` | src/components/OutputLine.tsx:20-28 | after k ticks the first k characters show with the cursor; past the end, all of the text shows and the timer stops |
| `OutputView.TypingGrows` | src/components/OutputLine.tsx:20-28 | what shows is a prefix of the content and grows by one character per tick |
| `OutputView.StaticLine` | src/components/OutputLine.tsx:31-34 | a non-AI line never changes under ticks |
| `OutputView.Shown` | src/components/OutputLine.tsx:58-72 | a clearing line renders nothing; a non-AI line renders its content |
| `OutputView.LineView.constructor` | src/components/OutputLine.tsx:13-35 | mounting puts the component in the start state |
| `OutputView.LineView.Tick` | src/components/OutputLine.tsx:20-28 | one interval callback is one specified tick |
| `OutputView.LineView.Play` | src/components/OutputLine.tsx:20-28 | k callbacks give the specified state after k ticks |
| `Prompt.Filter` | src/components/CommandLine.tsx:79-81 | keeps exactly the names that start with the prefix |
| `Prompt.Matching` | src/components/CommandLine.tsx:66-81 | the completion candidates: exactly the listed names that start with the lower-cased draft |
| `Prompt.KeyStep` | src/components/CommandLine.tsx:34-86 | `handleKeyDown` as a step on draft and position; stated key by key by `Prompt.EnterKey`, `Prompt.UpKey`, `Prompt.DownKey` and `Prompt.TabKey` |
| `Prompt.UpIndex` | src/components/CommandLine.tsx:44-47 | ArrowUp's new position is a valid index |
| `Prompt.StepFits` | src/components/CommandLine.tsx:34-86 | every key leaves the position valid for the history, and for any longer one |
| `Prompt.EnterKey` | src/components/CommandLine.tsx:35-40 | only Enter on a non-blank draft submits: it submits the trim, once, and resets the draft and position; a blank Enter changes nothing |
| `Prompt.UpKey` | src/components/CommandLine.tsx:41-50 | ArrowUp recalls the newest entry from no position and the next older one otherwise, stopping at the oldest |
| `Prompt.DownKey` | src/components/CommandLine.tsx:51-62 | ArrowDown recalls the next newer entry, and leaves the history with an empty draft past the newest |
| `Prompt.Keys` | src/components/CommandLine.tsx:34-86 | a run of keys keeps the position valid |
| `Prompt.RecallWalk` | src/components/CommandLine.tsx:41-62 | with history a, b, c: ArrowUp four times gives c, b, a, a, and then ArrowDown gives b |
| `Prompt.UniqueMatch` | src/components/CommandLine.tsx:79-84 | a single match is the only listed name with the prefix |
| `Prompt.TabKey` | src/components/CommandLine.tsx:63-84 | Tab completes to the name and a space exactly when one name matches the lower-cased draft, and otherwise changes nothing |
| `Prompt.TabOnlyListed` | src/components/CommandLine.tsx:66-78 | Tab only produces listed names, and `cls`, `sudo`, `ls`, `pwd`, `whoami`, `date` and `uname` are not listed |
| `Prompt.NotUnique` | src/components/CommandLine.tsx:82 | two matching names leave no unique completion |
| `Prompt.FilterNone` | src/components/CommandLine.tsx:79-81 | with no matching name the filter is empty |
| `Prompt.FilterSingle` | src/components/CommandLine.tsx:79-81 | with one matching name the filter is that name alone |
| `Prompt.TabAmbiguous` | src/components/CommandLine.tsx:66-84 | "s" matches `skills` and `socials` and is kept |
| `Prompt.TabCompletes` | src/components/CommandLine.tsx:66-84 | "pro" completes to "projects " |
| `Prompt.TabEmpty` | src/components/CommandLine.tsx:66-84 | the empty draft matches every name and is kept |
| `Prompt.NoneMatch` | src/components/CommandLine.tsx:79-81 | a prefix with a space matches no space-free name |
| `Prompt.TabAfterCompletion` | src/components/CommandLine.tsx:79-84 | a draft holding a space, such as a completed one, matches nothing and is kept |
| `Prompt.InputLine.constructor` | src/components/CommandLine.tsx:14-15 | the line starts with an empty draft and no position |
| `Prompt.InputLine.Change` | src/components/CommandLine.tsx:96 | typing replaces the draft and keeps the position |
| `Prompt.InputLine.KeyDown` | src/components/CommandLine.tsx:34-86 | one key handler call performs the specified step, keeping the position valid |
| `Terminal.Welcome` | src/components/Terminal.tsx:32-101 | the welcome records of the mount effect; stated by `Terminal.WelcomeShape` |
| `Terminal.WelcomeShape` | src/components/Terminal.tsx:32-101 | the welcome transcript has eleven output records stamped with the mount time, with distinct ids and no sentinel |
| `Terminal.Last50` | src/components/Terminal.tsx:122 | `slice(-50)`: the newest fifty entries, or all when fewer |
| `Terminal.Last50Snoc` | src/components/Terminal.tsx:120-122 | the stored copy after one more entry follows from the previous stored copy alone |
| `Terminal.Last50Newest` | src/components/Terminal.tsx:120-122 | the stored copy holds the newest entries, and all of them below fifty |
| `Terminal.Echo` | src/components/Terminal.tsx:110-115 | the echo is a command line `$ ` + text with a `cmd-` id |
| `Terminal.ResultLine` | src/components/Terminal.tsx:128-144 | a result keeps its content and kind under a `res-` id; a thrown error becomes an error line "Error: " + message, with "Unknown error occurred" for a non-`Error` value, under an `err-` id |
| `Terminal.RecordsApart` | src/components/Terminal.tsx:110-144 | an echo and the record after it never share an id, and neither an echo nor an error record is the sentinel |
| `Terminal.Render` | src/components/Terminal.tsx:183-185 | after rendering, no sentinel line remains: the transcript is kept or emptied |
| `Terminal.RenderAppend` | src/components/OutputLine.tsx:58-61 | a transcript without the sentinel renders unchanged; appending a line empties it exactly when that line is the sentinel |
| `Terminal.RenderPair` | src/components/Terminal.tsx:117-135 | after an echo and a record, the transcript is emptied exactly when the record is the sentinel |
| `Terminal.CommandTranscript` | src/components/Terminal.tsx:104-148 | a command appends its echo and then its result, in that order; `clear`/`cls` empties the transcript instead |
| `Terminal.Session.constructor` | src/components/Terminal.tsx:24-102 | mounting loads the stored history when there is one and shows the welcome transcript |
| `Terminal.Session.Begin` | src/components/Terminal.tsx:104-122 | a blank text changes nothing; any other sets processing, appends the echo and the history entry, and stores the newest fifty |
| `Terminal.Session.Settle` | src/components/Terminal.tsx:124-147 | appends the result or error record, ends processing and applies the render-time clear; history and storage untouched |
| `Terminal.Session.HandleCommand` | src/components/Terminal.tsx:104-148 | the whole command: blank text is ignored; otherwise history grows by the text, storage holds the newest fifty, and the transcript is the render of echo then result |
| `Terminal.Session.Clear` | src/components/Terminal.tsx:150-152 | `handleClear` empties the transcript and nothing else |
| `Terminal.Session.Type` | src/components/CommandLine.tsx:96-98 | typing changes the draft unless the input is disabled while processing |
| `Terminal.Session.Press` | src/components/CommandLine.tsx:34-98 | a key does nothing while processing; otherwise it steps the input line, and a submitted text starts the command |

## Left out

- Clock readings (`Date.now()`, `new Date()`, `toString`, `toLocaleDateString`) are parameters: `now`, `sent`, `done` and the `Clock` texts. One reading stands for each group of calls: the nine `toLocaleDateString()` calls of `listDirectory` share one `localeDate`, and the eleven `new Date()` timestamps of the welcome records share one `now`.
- `Math.random()` is the `Pick` index passed in. Uniformity of the choice is not modelled, only that every entry can be picked.
- The Gemini network call (`generateContent`) is an oracle with three outcomes. The model name, request shape, `console.error` logging and response parsing beyond the first candidate's text are not modelled.
- The asynchrony of `processCommand`, `askAI`, `getJoke` and `getInspiration` is not modelled: they are pure functions, and the terminal's `await` is the `Begin`/`Settle` split.
- The catch blocks of `askAI`, `getJoke` and `getInspiration` are not modelled: what they guard never throws. `Settle` still accepts a thrown outcome, as `handleCommand` does.
- `Terminal.Session.HandleCommand` takes the command processor as a function parameter. `Terminal.CommandTranscript` states the transcript for `Commands.ProcessCommand` itself.
- The `Screens` parameter: the fixed banners and headings of the screens are parameters of the handlers. `Commands.Shipped` holds the source's wording, and `Commands.ShippedOpensLines` shows it opens lines. The sentinel and kind lemmas assume only that the screens open on a new line.
- `Terminal.CommandTranscript` and `Commands.SentinelOnlyFromClear` assume the clock's date text is not `CLEAR_COMMAND`. `Date.toString()` never produces that text, but the clock is a parameter.
- Strings.Lower: lower-cases only the ASCII letters A to Z. `toLowerCase` also maps other characters, some of them onto ASCII letters: U+212A KELVIN SIGN becomes `k`. So an input such as `JO\u212AE` runs `joke` in the source but reaches the not-found branch in the model, and `Commands.CaseInsensitive` covers only A to Z.
- Prompt.TabKey: for the same reason, Tab on `as\u212A` completes to `ask ` in the source but keeps the draft in the model.
- Strings are sequences of Unicode scalar values, not UTF-16 code units. The two counts differ only for characters outside the Basic Multilingual Plane, such as the emoji 🤖, 😄, 💥 and 👨‍💻. The box-drawing characters count 1 either way. Every AI line except the `inspire` line holds such an emoji: the assistant prefix, the joke prefix and the prank's stages. The `inspire` line opens with ✨ (U+2728, inside the plane) and its quotes are ASCII, so its two counts agree.
- OutputView.TypingAfter: counts ticks in scalar values. The source steps through `text.length` code units, so it takes one extra tick per astral character and shows a lone surrogate on that tick.
- OutputView.TypingGrows: the same difference; the source's shown text is a prefix in code units.
- OutputView.LineView.Tick: the same difference, for one callback.
- OutputView.LineView.Play: the same difference, for k callbacks.
- Commands.ProjectBlock: the underline has `|name| + 4` dashes counted in scalar values. The source counts code units, one more dash per astral character in the name.
- Strings.PadEnd: pads to 12 scalar values, where `padEnd(12)` counts code units.
- Commands.SocialIcon: looks the platform up in a map of the table's own entries. The source indexes an object literal, so `constructor`, `toString`, `valueOf`, `hasOwnProperty` or `__proto__` resolve to inherited members rather than the link icon. `Commands.SocialIconDefault` holds for platform names that are not such members.
- Records.Info.socials: is the entry list in insertion order. `Object.entries` lists integer-like keys first, in ascending order, so `Commands.ShowSocials` follows the source only for profiles whose platform names are not integer-like. The shipped profile has neither kind of name.
- JSX content (`string | JSX.Element`): only string contents exist in this core.
- The local storage value is modelled as the list it encodes. JSON encoding and a corrupt stored value are not modelled.
- Scrolling to the bottom, focusing the input, the blinking prompt cursor, the cursor glyph and all styling are presentation.
- React's batching and re-render scheduling are not modelled. The render-time clear is applied together with the record that triggers it.
- `src/components/BootLoader.tsx`, `src/components/ProjectCard.tsx` and `src/App.tsx` are not part of this model.
