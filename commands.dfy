/** The command interpreter of src/utils/commandProcessor.ts: the input is
    trimmed and split on single spaces, the first piece is lower-cased and
    selects the handler, the other pieces are the arguments. The profile, the
    fixed screen texts, the AI service, the remote model, the random pick and
    the clock readings come in as an environment. */
module Commands {
  import opened Wrappers
  import opened Strings
  import opened Records
  import opened Gemini
  import opened Profile

  /** `CommandResult`: what a handler returns. */
  datatype CommandResult = CommandResult(content: string, kind: LineKind)

  /** The two clock renderings the handlers use: `new Date().toString()` and
      `new Date().toLocaleDateString()`. */
  datatype Clock = Clock(dateText: string, localeDate: string)

  /** The fixed text that each screen puts around the profile data: banners,
      headings and closing lines. The handlers take it as data, so that what
      is proved about the dispatch holds for any wording; `Shipped` holds the
      wording of commandProcessor.ts. */
  datatype Screens = Screens(
    help: string,
    aboutHead: string, aboutTail: string,
    skillsHead: string,
    projectsHead: string, projectsTail: string,
    experienceHead: string, experienceTail: string,
    resumeHead: string, resumeMiddle: string, resumeTail: string,
    socialsHead: string, socialsTail: string)

  /** Everything a command may read besides its own text. */
  datatype Env = Env(
    info: Info,
    screens: Screens,
    service: Service,
    oracle: string -> Reply,
    pick: Pick,
    clock: Clock)

  /** The content the `clear` and `cls` handlers return; the transcript view
      treats a line holding it as a request to clear the transcript. */
  const ClearSentinel := "CLEAR_COMMAND"

  /** The names the dispatch recognises. */
  const KnownNames: seq<string> := ["help", "about", "skills", "projects", "experience",
    "resume", "socials", "ask", "joke", "inspire", "clear", "cls", "sudo", "ls", "pwd",
    "whoami", "date", "uname"]

  // ----- the screens -----

  /** `showHelp()` */
  function HelpText(s: Screens): string {
    s.help
  }

  /** `showAbout()`: name, role and bio between the fixed lines. */
  function AboutText(info: Info, s: Screens): string {
    s.aboutHead + info.name + "\nRole:     " + info.title + "\n\n" + info.bio + s.aboutTail
  }

  /** `showSkills()`: the fixed skill board, then the number of listed skills. */
  function SkillsText(info: Info, s: Screens): string {
    s.skillsHead + NatText(|info.skills|) + " skills mastered and counting...\n"
  }

  /** The closing lines of the projects listing, starting with the total. */
  function ProjectsFooter(count: nat, s: Screens): string {
    "\nTotal Projects: " + NatText(count) + s.projectsTail
  }

  /** The first lines of a project block: its number, its name underlined
      with four more dashes than the name has characters, description and
      stack. */
  function ProjectHeading(n: nat, p: Project): string {
    "\n[" + NatText(n) + "] " + p.name + "\n" + Repeat('-', |p.name| + 4)
    + "\nDescription: " + p.description + "\nTech Stack:  " + Join(p.tech, " • ")
  }

  /** The GitHub line, shown only for a present, non-empty link. */
  function GitHubLine(p: Project): string {
    if Present(p.github) then "\nGitHub:      " + p.github.value else ""
  }

  /** The live-demo line, shown only for a present, non-empty link. */
  function LiveLine(p: Project): string {
    if Present(p.live) then "\nLive Demo:   " + p.live.value else ""
  }

  /** One whole project block. */
  function ProjectEntry(n: nat, p: Project): string {
    ProjectHeading(n, p) + GitHubLine(p) + LiveLine(p) + "\n"
  }

  /** The project blocks numbered 1 to |ps| in data order. */
  function ProjectBlocks(ps: seq<Project>): string {
    if ps == [] then "" else ProjectBlocks(ps[..|ps| - 1]) + ProjectEntry(|ps|, ps[|ps| - 1])
  }

  /** What `showProjects` prints: banner, the blocks, then the total. */
  function ProjectsText(ps: seq<Project>, s: Screens): string {
    s.projectsHead + ProjectBlocks(ps) + ProjectsFooter(|ps|, s)
  }

  lemma ProjectBlocksPrefix(ps: seq<Project>, i: nat)
    requires i < |ps|
    ensures ProjectBlocks(ps[..i + 1]) == ProjectBlocks(ps[..i]) + ProjectEntry(i + 1, ps[i])
  {
    assert ps[..i + 1][..i] == ps[..i];
  }

  /** The body of the `forEach` callback of `showProjects`: the block of
      one project, whose link lines are added only when the link is truthy. */
  method ProjectBlock(n: nat, project: Project) returns (block: string)
    ensures block == ProjectEntry(n, project)
  {
    block := "\n[" + NatText(n) + "] " + project.name + "\n"
      + Repeat('-', |project.name| + 4)
      + "\nDescription: " + project.description
      + "\nTech Stack:  " + Join(project.tech, " • ");
    assert block == ProjectHeading(n, project);
    if Present(project.github) {
      block := block + ("\nGitHub:      " + project.github.value);
    }
    assert block == ProjectHeading(n, project) + GitHubLine(project);
    if Present(project.live) {
      block := block + ("\nLive Demo:   " + project.live.value);
    }
    assert block == ProjectHeading(n, project) + GitHubLine(project) + LiveLine(project);
    block := block + "\n";
  }

  /** `showProjects()`: the text built by appending each project's block. */
  method ShowProjects(ps: seq<Project>, s: Screens) returns (text: string)
    ensures text == ProjectsText(ps, s)
  {
    text := s.projectsHead;
    var index := 0;
    while index < |ps|
      invariant 0 <= index <= |ps|
      invariant text == s.projectsHead + ProjectBlocks(ps[..index])
    {
      var block := ProjectBlock(index + 1, ps[index]);
      text := text + block;
      ProjectBlocksPrefix(ps, index);
      AppendAssoc(s.projectsHead, ProjectBlocks(ps[..index]), block);
      index := index + 1;
    }
    assert ps[..index] == ps;
    text := text + ProjectsFooter(|ps|, s);
  }

  /** The closing lines of the experience listing, starting with the count. */
  function ExperienceFooter(count: nat, s: Screens): string {
    "\nCareer Timeline: " + NatText(count) + s.experienceTail
  }

  /** One position: number, title, then company, period and description indented. */
  function ExperienceEntry(n: nat, e: Experience): string {
    "\n" + NatText(n) + ". " + e.title + "\n   " + e.company + " | " + e.period
    + "\n   " + e.description + "\n"
  }

  /** The position blocks numbered 1 to |es| in data order. */
  function ExperienceBlocks(es: seq<Experience>): string {
    if es == [] then "" else ExperienceBlocks(es[..|es| - 1]) + ExperienceEntry(|es|, es[|es| - 1])
  }

  /** What `showExperience` prints. */
  function ExperienceText(es: seq<Experience>, s: Screens): string {
    s.experienceHead + ExperienceBlocks(es) + ExperienceFooter(|es|, s)
  }

  lemma ExperienceBlocksPrefix(es: seq<Experience>, i: nat)
    requires i < |es|
    ensures ExperienceBlocks(es[..i + 1]) == ExperienceBlocks(es[..i]) + ExperienceEntry(i + 1, es[i])
  {
    assert es[..i + 1][..i] == es[..i];
  }

  /** `showExperience()`: the text built by appending one block per position. */
  method ShowExperience(es: seq<Experience>, s: Screens) returns (text: string)
    ensures text == ExperienceText(es, s)
  {
    text := s.experienceHead;
    var index := 0;
    while index < |es|
      invariant 0 <= index <= |es|
      invariant text == s.experienceHead + ExperienceBlocks(es[..index])
    {
      var exp := es[index];
      text := text + ("\n" + NatText(index + 1) + ". " + exp.title + "\n   " + exp.company
        + " | " + exp.period + "\n   " + exp.description + "\n");
      ExperienceBlocksPrefix(es, index);
      AppendAssoc(s.experienceHead, ExperienceBlocks(es[..index]), ExperienceEntry(index + 1, exp));
      index := index + 1;
    }
    assert es[..index] == es;
    text := text + ExperienceFooter(|es|, s);
  }

  /** `showResume()`: the download link and the date of today between the fixed lines. */
  function ResumeText(info: Info, localeDate: string, s: Screens): string {
    s.resumeHead + info.resumeLink + s.resumeMiddle + localeDate + s.resumeTail
  }

  /** The icon table of `getSocialIcon`. */
  const SocialIcons: map<string, string> := map[
    "GitHub" := "🐙", "LinkedIn" := "💼", "Twitter" := "🐦",
    "Email" := "📧", "Portfolio" := "🌐", "Instagram" := "📷"]

  const DefaultIcon := "🔗"

  /** `getSocialIcon(platform)`: the table's icon, or the link icon. */
  function SocialIcon(platform: string): string {
    if platform in SocialIcons then SocialIcons[platform] else DefaultIcon
  }

  /** A platform gets the link icon exactly when the table does not list it. */
  lemma SocialIconDefault(platform: string)
    ensures SocialIcon(platform) == DefaultIcon <==> platform !in SocialIcons
    ensures platform in SocialIcons ==> SocialIcon(platform) == SocialIcons[platform]
  {
    if platform in SocialIcons {
      assert SocialIcons[platform] in SocialIcons.Values;
      assert |SocialIcons[platform]| == 1;
    }
  }

  /** One contact line: icon, the platform padded to twelve characters, the address. */
  function SocialEntry(platform: string, url: string): string {
    SocialIcon(platform) + " " + PadEnd(platform, 12) + " " + url + "\n"
  }

  /** The contact lines in data order. */
  function SocialLines(socials: seq<(string, string)>): string {
    if socials == [] then ""
    else SocialLines(socials[..|socials| - 1]) + SocialEntry(socials[|socials| - 1].0, socials[|socials| - 1].1)
  }

  /** What `showSocials` prints. */
  function SocialsText(socials: seq<(string, string)>, s: Screens): string {
    s.socialsHead + SocialLines(socials) + s.socialsTail
  }

  lemma SocialLinesPrefix(socials: seq<(string, string)>, i: nat)
    requires i < |socials|
    ensures SocialLines(socials[..i + 1]) == SocialLines(socials[..i]) + SocialEntry(socials[i].0, socials[i].1)
  {
    assert socials[..i + 1][..i] == socials[..i];
  }

  /** `showSocials()`: the text built by appending one line per entry. */
  method ShowSocials(socials: seq<(string, string)>, s: Screens) returns (text: string)
    ensures text == SocialsText(socials, s)
  {
    text := s.socialsHead;
    var index := 0;
    while index < |socials|
      invariant 0 <= index <= |socials|
      invariant text == s.socialsHead + SocialLines(socials[..index])
    {
      var (platform, url) := socials[index];
      var icon := SocialIcon(platform);
      text := text + (icon + " " + PadEnd(platform, 12) + " " + url + "\n");
      SocialLinesPrefix(socials, index);
      AppendAssoc(s.socialsHead, SocialLines(socials[..index]), SocialEntry(platform, url));
      index := index + 1;
    }
    assert socials[..index] == socials;
    text := text + s.socialsTail;
  }

  /** The entries of the pretend directory: the columns before the date and
      the file name. */
  const ListingEntries: seq<(string, string)> := [
    ("drwxr-xr-x  2 sankalp sankalp  4096 ", "./"),
    ("drwxr-xr-x  3 root    root     4096 ", "../"),
    ("-rw-r--r--  1 sankalp sankalp   420 ", "about.txt"),
    ("-rw-r--r--  1 sankalp sankalp  1337 ", "skills.txt"),
    ("-rw-r--r--  1 sankalp sankalp  2048 ", "projects.txt"),
    ("-rw-r--r--  1 sankalp sankalp   654 ", "experience.txt"),
    ("-rw-r--r--  1 sankalp sankalp   321 ", "resume.pdf"),
    ("-rw-r--r--  1 sankalp sankalp   128 ", "socials.txt"),
    ("-rwxr-xr-x  1 sankalp sankalp  4096 ", "ai_assistant*")]

  const ListingHint := "Use commands like 'about', 'skills', 'projects' etc. to read these files.\n"

  /** One line per entry, each with the date between the columns and the name. */
  function ListingRows(entries: seq<(string, string)>, localeDate: string): string {
    if entries == [] then ""
    else entries[0].0 + localeDate + " " + entries[0].1 + "\n" + ListingRows(entries[1..], localeDate)
  }

  /** `listDirectory()`: a fixed listing whose dates are today's. */
  function ListingText(localeDate: string): string {
    "\n" + ("total 7\n" + ListingRows(ListingEntries, localeDate) + "\n" + ListingHint)
  }

  // The lines `sudoRmRf` prints, one per stage.
  const SudoStages: seq<string> := ["Removing /usr... ",
    "Removing /var... ",
    "Removing /etc... ",
    "Removing /home... ",
    "System destroyed successfully! 💥",
    "",
    "Just kidding! 😄",
    "This is a portfolio website, not an actual Linux system.",
    "No files were harmed in the making of this joke.",
    "",
    "Pro tip: Never run \"sudo rm -rf /*\" on a real system!",
    "It would delete everything irreversibly.",
    "",
    "Stay safe and keep coding! 👨‍💻"]

  /** `sudoRmRf()` */
  function SudoRmRf(): (r: CommandResult)
    ensures r.kind == Ai
  {
    CommandResult(Join(SudoStages, "\n"), Ai)
  }

  const AskUsage := "Please provide a question. Usage: ask <your question>"
  const AiPrefix := "🤖 AI Assistant: "

  /** `askAI(question)`: a blank question (one whose `trim()` is empty, see
      `TrimEmptyIffBlank`) is refused before the service is asked; otherwise
      the service's answer is shown as AI output. The service never throws,
      so the source's catch branch is never taken. */
  function AskAI(question: string, env: Env): CommandResult {
    if IsBlank(question) then CommandResult(AskUsage, Error)
    else CommandResult(AiPrefix + AskQuestion(env.service, env.info, question, env.oracle), Ai)
  }

  // ----- dispatch -----

  /** The pieces of the trimmed input between single spaces. */
  function Tokens(input: string): (r: seq<string>)
    ensures |r| >= 1
  {
    Split(Trim(input), ' ')
  }

  /** The lower-cased first piece. */
  function CommandName(input: string): string {
    Lower(Tokens(input)[0])
  }

  /** The remaining pieces, untouched. */
  function Args(input: string): seq<string> {
    Tokens(input)[1..]
  }

  /** `args.join(" ")` */
  function ArgText(input: string): string {
    Join(Args(input), " ")
  }

  /** The branches of the `switch` of `processCommand`. */
  datatype Name = HelpCmd | AboutCmd | SkillsCmd | ProjectsCmd | ExperienceCmd | ResumeCmd
    | SocialsCmd | AskCmd | JokeCmd | InspireCmd | ClearCmd | ClsCmd | SudoCmd | LsCmd
    | PwdCmd | WhoamiCmd | DateCmd | UnameCmd | UnknownCmd

  /** The `case` label a lower-cased command name selects. */
  function NameOf(command: string): Name {
    match command
    case "help" => HelpCmd
    case "about" => AboutCmd
    case "skills" => SkillsCmd
    case "projects" => ProjectsCmd
    case "experience" => ExperienceCmd
    case "resume" => ResumeCmd
    case "socials" => SocialsCmd
    case "ask" => AskCmd
    case "joke" => JokeCmd
    case "inspire" => InspireCmd
    case "clear" => ClearCmd
    case "cls" => ClsCmd
    case "sudo" => SudoCmd
    case "ls" => LsCmd
    case "pwd" => PwdCmd
    case "whoami" => WhoamiCmd
    case "date" => DateCmd
    case "uname" => UnameCmd
    case _ => UnknownCmd
  }

  const WorkingDirectory := "/home/JupiterCodes/portfolio"
  const UserName := "JupiterCodes"
  const SystemName := "Portfolio-OS 2.1.0 Terminal x86_64"

  /** The reply to a name the dispatch does not know. */
  function NotFound(command: string): string {
    "Command not found: " + command + ". " + HelpHint
  }

  const HelpHint := "Type 'help' for available commands."

  /** The reply of `sudo` to anything but the root wipe. */
  function SudoNotFound(argText: string): string {
    "sudo: " + argText + ": command not found"
  }

  /** The body of the selected `case`, given the command name, the untouched
      argument pieces and the environment. */
  function Handle(name: Name, command: string, args: seq<string>, env: Env): (r: CommandResult)
    ensures r.kind != Command
  {
    match name
    case HelpCmd => CommandResult(HelpText(env.screens), Output)
    case AboutCmd => CommandResult(AboutText(env.info, env.screens), Output)
    case SkillsCmd => CommandResult(SkillsText(env.info, env.screens), Output)
    case ProjectsCmd => CommandResult(ProjectsText(env.info.projects, env.screens), Output)
    case ExperienceCmd => CommandResult(ExperienceText(env.info.experience, env.screens), Output)
    case ResumeCmd => CommandResult(ResumeText(env.info, env.clock.localeDate, env.screens), Output)
    case SocialsCmd => CommandResult(SocialsText(env.info.socials, env.screens), Output)
    case AskCmd => AskAI(Join(args, " "), env)
    case JokeCmd => CommandResult("😄 " + Joke(env.service, env.pick), Ai)
    case InspireCmd => CommandResult("✨ " + Inspiration(env.service, env.pick), Ai)
    case ClearCmd => CommandResult(ClearSentinel, Output)
    case ClsCmd => CommandResult(ClearSentinel, Output)
    case SudoCmd =>
      if Join(args, " ") == "rm -rf /*" then SudoRmRf()
      else CommandResult(SudoNotFound(Join(args, " ")), Error)
    case LsCmd => CommandResult(ListingText(env.clock.localeDate), Output)
    case PwdCmd => CommandResult(WorkingDirectory, Output)
    case WhoamiCmd => CommandResult(UserName, Output)
    case DateCmd => CommandResult(env.clock.dateText, Output)
    case UnameCmd => CommandResult(SystemName, Output)
    case UnknownCmd => CommandResult(NotFound(command), Error)
  }

  /** `processCommand(input)`: trim, split on single spaces, lower-case the
      first piece, dispatch. */
  function ProcessCommand(input: string, env: Env): (r: CommandResult)
    ensures r.kind != Command
  {
    var parts := Split(Trim(input), ' ');
    var command := Lower(parts[0]);
    Handle(NameOf(command), command, parts[1..], env)
  }

  // ----- the shipped screen texts -----

  const Help := "\n" + Join([
      "Available Commands:",
      "═══════════════════",
      "",
      "Portfolio Commands:",
      "  about          - Display bio and role information",
      "  skills         - Show technical skills and expertise",
      "  projects       - List recent projects with links",
      "  experience     - Show work and education timeline",
      "  resume         - View and download resume",
      "  socials        - Display social media links",
      "",
      "AI-Powered Commands:",
      "  ask <question> - Ask the AI assistant anything",
      "  joke           - Get a programming joke",
      "  inspire        - Get an inspirational quote",
      "",
      "System Commands:",
      "  help           - Show this help message",
      "  clear          - Clear the terminal screen",
      "  ls             - List directory contents",
      "  pwd            - Show current directory",
      "  whoami         - Display current user",
      "  date           - Show current date and time",
      "  uname          - Show system information",
      "",
      " Don't Commands:",
      "  sudo rm -rf /* - Don't try this at home!",
      "",
      "Navigation:",
      "  ↑/↓ arrows     - Navigate command history",
      "  Tab            - Auto-complete commands",
      "  ",
      "Try typing 'about' to learn more about me!",
      ""
    ], "\n")

  const AboutHead := "\n" + Join([
      "╔══════════════════════════════════════════════════════════════╗",
      "║                        ABOUT ME                              ║",
      "╚══════════════════════════════════════════════════════════════╝",
      "",
      "Name:     "
    ], "\n")

  const AboutTail := "\n" + Join([
      "",
      "Location: India 🇮🇳",
      "Status:   Open to opportunities",
      "Focus:    Building intelligent systems that solve real problems",
      "",
      "Fun fact: I love combining traditional terminal aesthetics ",
      "         with modern AI capabilities - just like this portfolio!",
      "",
      "Type 'skills' to see my technical expertise or 'projects' to view my work.",
      ""
    ], "\n")

  const SkillsHead := "\n" + Join([
      "╔══════════════════════════════════════════════════════════════╗",
      "║                     TECHNICAL SKILLS                         ║",
      "╚══════════════════════════════════════════════════════════════╝",
      "",
      "Programming Languages:",
      "▪ Python ",
      "▪ JavaScript ",
      "▪ TypeScript",
      "",
      "AI/ML & Data Science:",
      "▪ TensorFlow      ▪ PyTorch         ▪ Scikit-learn",
      "▪ Computer Vision ▪ NLP             ▪ Deep Learning",
      "▪ Data Analysis   ▪ MLOps",
      "",
      "Web Development:",
      "▪ React",
      "▪ Node.js",
      "▪ Tailwind CSS",
      "▪ Next.js",
      "",
      "Databases & Cloud:",
      "▪ MongoDB    ▪ PostgreSQL   ▪ AWS        ▪ Docker",
      "▪ Redis      ▪ Firebase     ▪ MySQL      ▪ Kubernetes",
      "",
      "Tools & Others:",
      "▪ Git/GitHub ▪ Linux       ▪ Docker      ▪ API Design",
      "▪ Testing    ▪ CI/CD       ▪ System Design",
      "",
      ""
    ], "\n")

  const ProjectsHead := "\n" + Join([
      "╔══════════════════════════════════════════════════════════════╗",
      "║                      MY PROJECTS                             ║",
      "╚══════════════════════════════════════════════════════════════╝",
      "",
      ""
    ], "\n")

  const ProjectsTail := "\n" + Join([
      "All projects are available on my GitHub profile.",
      "",
      "Want to know more about any project? Ask my AI: 'ask tell me about [project name]'",
      ""
    ], "\n")

  const ExperienceHead := "\n" + Join([
      "╔══════════════════════════════════════════════════════════════╗",
      "║                    EXPERIENCE & EDUCATION                    ║",
      "╚══════════════════════════════════════════════════════════════╝",
      "",
      ""
    ], "\n")

  const ExperienceTail := Join([
      " key positions",
      "Current Focus: AI/ML Research & Development",
      "",
      "Looking for new opportunities in AI/ML and full-stack development!",
      ""
    ], "\n")

  const ResumeHead := "\n" + Join([
      "╔══════════════════════════════════════════════════════════════╗",
      "║                         RESUME                               ║",
      "╚══════════════════════════════════════════════════════════════╝",
      "",
      "📄 My complete resume is available for download:",
      "",
      "🔗 Download Link: "
    ], "\n")

  const ResumeMiddle := "\n" + Join([
      "",
      "The resume includes:",
      "• Detailed work experience and projects",
      "• Complete list of technical skills",
      "• Education and certifications",
      "• Contact information",
      "• References and recommendations",
      "",
      "Format: PDF | Last Updated: "
    ], "\n")

  const ResumeTail := "\n" + Join([
      "",
      "You can also view my experience here by typing 'experience'",
      "or check out my projects with 'projects'.",
      ""
    ], "\n")

  const SocialsHead := "\n" + Join([
      "╔══════════════════════════════════════════════════════════════╗",
      "║                   SOCIAL MEDIA & CONTACT                     ║",
      "╚══════════════════════════════════════════════════════════════╝",
      "",
      "Connect with me on:",
      "",
      ""
    ], "\n")

  const SocialsTail := "\n" + Join([
      "📫 Feel free to reach out for:",
      "   • Collaboration opportunities",
      "   • Technical discussions",
      "   • Project partnerships",
      "   • Career opportunities",
      "",
      "🤝 Always open to connecting with fellow developers and AI enthusiasts!",
      ""
    ], "\n")

  /** The wording of commandProcessor.ts. */
  const Shipped := Screens(Help, AboutHead, AboutTail, SkillsHead, ProjectsHead, ProjectsTail,
    ExperienceHead, ExperienceTail, ResumeHead, ResumeMiddle, ResumeTail, SocialsHead, SocialsTail)

  // ----- parsing -----

  /** The command name is the lower-cased text of the trimmed input up to its
      first space (all of it when there is none); the arguments, joined with
      single spaces, give back exactly the text after that space, so empty
      pieces from repeated spaces are kept. */
  lemma ParseInput(input: string, env: Env)
    ensures var t := Trim(input);
      (' ' !in t ==> CommandName(input) == Lower(t) && Args(input) == [])
      && (' ' in t ==> CommandName(input) == Lower(t[..IndexOf(t, ' ')])
                       && ArgText(input) == t[IndexOf(t, ' ') + 1..])
    ensures ProcessCommand(input, env)
      == Handle(NameOf(CommandName(input)), CommandName(input), Args(input), env)
  {
    SplitRest(Trim(input), ' ');
  }

  /** A run of characters none of which is white space. */
  predicate Word(w: string) {
    w != [] && forall i :: 0 <= i < |w| ==> !IsSpace(w[i])
  }

  /** A rest that is empty or starts with a space and does not end in white space. */
  predicate ArgTail(rest: string) {
    rest == [] || (rest[0] == ' ' && !IsSpace(rest[|rest| - 1]))
  }

  /** A word followed by such a rest is parsed to the lower-cased word and
      the pieces of the rest. */
  lemma ParseWord(w: string, rest: string)
    requires Word(w) && ArgTail(rest)
    ensures CommandName(w + rest) == Lower(w)
    ensures Args(w + rest) == if rest == [] then [] else Split(rest[1..], ' ')
  {
    var s := w + rest;
    assert s[0] == w[0];
    assert s[|s| - 1] == if rest == [] then w[|w| - 1] else rest[|rest| - 1];
    TrimNoEdges(s);
    assert ' ' !in w by {
      assert forall i :: 0 <= i < |w| ==> w[i] != ' ' by {
        assert IsSpace(' ');
      }
    }
    if rest == [] {
      SplitRest(w, ' ');
    } else {
      assert s == w + [' '] + rest[1..];
      SplitWord(w, rest[1..], ' ');
    }
  }

  /** A second space right after the first leaves an empty argument piece,
      and the argument text keeps every space after the first: `ask  hi`
      asks " hi". */
  lemma EmptyPieceKept(w: string, rest: string)
    requires Word(w) && ArgTail(rest) && |rest| >= 2 && rest[1] == ' '
    ensures Args(w + rest) == [""] + Split(rest[2..], ' ')
    ensures ArgText(w + rest) == rest[1..]
  {
    ParseWord(w, rest);
    SplitLeading(rest[1..], ' ');
    assert rest[1..][1..] == rest[2..];
    JoinSplit(rest[1..], ' ');
  }

  /** Name matching ignores case, and the arguments are passed on unchanged. */
  lemma CaseInsensitive(w1: string, w2: string, rest: string, env: Env)
    requires Word(w1) && Word(w2) && ArgTail(rest)
    requires Lower(w1) == Lower(w2)
    ensures ProcessCommand(w1 + rest, env) == ProcessCommand(w2 + rest, env)
    ensures ProcessCommand(w1 + rest, env)
      == Handle(NameOf(Lower(w1)), Lower(w1), if rest == [] then [] else Split(rest[1..], ' '), env)
  {
    ParseWord(w1, rest);
    ParseWord(w2, rest);
    ParseInput(w1 + rest, env);
    ParseInput(w2 + rest, env);
  }

  /** The name is case-insensitive but the arguments are not: `sudo`, in any
      case, prints the stages exactly when the text after it is the root wipe
      letter for letter, so an upper-case `RM` is reported as not found. */
  lemma SudoArguments(w: string, rest: string, env: Env)
    requires Word(w) && Lower(w) == "sudo"
    requires ArgTail(rest) && rest != []
    ensures rest[1..] == "rm -rf /*" ==>
      ProcessCommand(w + rest, env).content == SudoRmRf().content && ProcessCommand(w + rest, env).kind == Ai
    ensures rest[1..] != "rm -rf /*" ==>
      ProcessCommand(w + rest, env).content == SudoNotFound(rest[1..]) && ProcessCommand(w + rest, env).kind == Error
  {
    ParseWord(w, rest);
    Dispatch(w + rest, env);
    NameOfSudo(CommandName(w + rest));
    JoinSplit(rest[1..], ' ');
    SudoCommand("sudo", Split(rest[1..], ' '), env);
  }

  /** Surrounding white space does not change the outcome. */
  lemma TrimmedInputSame(input: string, env: Env)
    ensures ProcessCommand(Trim(input), env) == ProcessCommand(input, env)
  {
    TrimIdempotent(input);
  }

  // ----- dispatch -----

  /** The label of each branch of the `switch`. */
  function Label(name: Name): string
    requires name != UnknownCmd
  {
    match name
    case HelpCmd => "help"
    case AboutCmd => "about"
    case SkillsCmd => "skills"
    case ProjectsCmd => "projects"
    case ExperienceCmd => "experience"
    case ResumeCmd => "resume"
    case SocialsCmd => "socials"
    case AskCmd => "ask"
    case JokeCmd => "joke"
    case InspireCmd => "inspire"
    case ClearCmd => "clear"
    case ClsCmd => "cls"
    case SudoCmd => "sudo"
    case LsCmd => "ls"
    case PwdCmd => "pwd"
    case WhoamiCmd => "whoami"
    case DateCmd => "date"
    case UnameCmd => "uname"
  }

  /** `processCommand` hands the parsed name and pieces to the `switch`. */
  lemma Dispatch(input: string, env: Env)
    ensures ProcessCommand(input, env)
      == Handle(NameOf(CommandName(input)), CommandName(input), Args(input), env)
  {
  }

  /** The name `sudo` selects its branch. */
  lemma NameOfSudo(c: string)
    requires c == "sudo"
    ensures NameOf(c) == SudoCmd
  {
  }

  /** Exactly `clear` and `cls` select the two clearing branches. */
  lemma NameOfClear(c: string)
    ensures NameOf(c) == ClearCmd <==> c == "clear"
    ensures NameOf(c) == ClsCmd <==> c == "cls"
  {
  }

  /** Each label selects its own branch, a name that selects a branch is that
      branch's label, and exactly the names outside the table fall through
      to the default branch. */
  lemma NameOfLabel(name: Name, command: string)
    ensures name != UnknownCmd ==> NameOf(Label(name)) == name
    ensures NameOf(command) != UnknownCmd ==> Label(NameOf(command)) == command
    ensures NameOf(command) == UnknownCmd <==> command !in KnownNames
  {
  }

  /** The not-found reply quotes the name and ends with the hint to type `help`. */
  lemma NotFoundMentions(command: string)
    ensures Occurs(command, NotFound(command))
    ensures Occurs(HelpHint, NotFound(command)) && EndsWith(NotFound(command), HelpHint)
  {
    var head := "Command not found: ";
    OccursAtEnd(head, command);
    OccursExtend(command, head + command, ". ");
    OccursExtend(command, head + command + ". ", HelpHint);
    OccursAtEnd(head + command + ". ", HelpHint);
  }

  /** Any name outside the table is answered with an error that quotes the
      lower-cased name and points to `help`. */
  lemma UnknownCommand(input: string, env: Env)
    requires CommandName(input) !in KnownNames
    ensures ProcessCommand(input, env).content == NotFound(CommandName(input))
    ensures ProcessCommand(input, env).kind == Error
    ensures Occurs(CommandName(input), ProcessCommand(input, env).content)
    ensures Occurs(HelpHint, ProcessCommand(input, env).content)
  {
    Dispatch(input, env);
    NameOfLabel(UnknownCmd, CommandName(input));
    UnknownBranch(CommandName(input), Args(input), env);
    NotFoundMentions(CommandName(input));
  }

  /** A text that starts a new line, as every screen of the source does. */
  predicate OpensLine(t: string) {
    t != [] && t[0] == '\n'
  }

  /** Every screen opens on a new line. */
  predicate ScreensOpenLines(s: Screens) {
    OpensLine(s.help) && OpensLine(s.aboutHead) && OpensLine(s.skillsHead)
    && OpensLine(s.projectsHead) && OpensLine(s.experienceHead) && OpensLine(s.resumeHead)
    && OpensLine(s.socialsHead)
  }

  /** The shipped screens open on a new line. */
  lemma ShippedOpensLines()
    ensures ScreensOpenLines(Shipped)
  {
  }

  /** The profile screens without a list are output and open on a new line
      when their fixed text does. */
  lemma ProfileScreens(name: Name, command: string, args: seq<string>, env: Env)
    requires name == HelpCmd || name == AboutCmd || name == SkillsCmd || name == ResumeCmd
    ensures Handle(name, command, args, env).kind == Output
    ensures ScreensOpenLines(env.screens) ==> OpensLine(Handle(name, command, args, env).content)
  {
  }

  /** So are the three listings of the profile's projects, positions and links. */
  lemma ListScreens(name: Name, command: string, args: seq<string>, env: Env)
    requires name == ProjectsCmd || name == ExperienceCmd || name == SocialsCmd
    ensures Handle(name, command, args, env).kind == Output
    ensures ScreensOpenLines(env.screens) ==> OpensLine(Handle(name, command, args, env).content)
  {
  }

  /** The directory listing opens on a new line. */
  lemma ListingOpensLine(localeDate: string)
    ensures OpensLine(ListingText(localeDate))
  {
  }

  /** `ls` prints the listing for today's date as output. */
  lemma ListingCommand(command: string, args: seq<string>, env: Env)
    ensures Handle(LsCmd, command, args, env).kind == Output
    ensures Handle(LsCmd, command, args, env).content == ListingText(env.clock.localeDate)
  {
  }

  /** A text that opens on a new line is not the sentinel. */
  lemma OpenNotSentinel(t: string)
    requires OpensLine(t)
    ensures t != ClearSentinel
  {
    assert ClearSentinel[0] == 'C';
  }

  /** Hence the listing is not the sentinel. */
  lemma ListingNotSentinel(localeDate: string)
    ensures ListingText(localeDate) != ClearSentinel
  {
    ListingOpensLine(localeDate);
    OpenNotSentinel(ListingText(localeDate));
  }

  /** `pwd`, `whoami` and `uname` print their fixed text, and `date` the
      clock's text, whatever the arguments. */
  lemma FixedOutputs(command: string, args: seq<string>, env: Env)
    ensures Handle(PwdCmd, command, args, env).content == WorkingDirectory
    ensures Handle(WhoamiCmd, command, args, env).content == UserName
    ensures Handle(UnameCmd, command, args, env).content == SystemName
    ensures Handle(DateCmd, command, args, env).content == env.clock.dateText
    ensures Handle(PwdCmd, command, args, env).kind == Output && Handle(WhoamiCmd, command, args, env).kind == Output
    ensures Handle(UnameCmd, command, args, env).kind == Output && Handle(DateCmd, command, args, env).kind == Output
  {
  }

  /** None of the fixed texts is the sentinel. */
  lemma FixedTextsDiffer()
    ensures WorkingDirectory != ClearSentinel && UserName != ClearSentinel && SystemName != ClearSentinel
    ensures AskUsage != ClearSentinel
  {
    assert WorkingDirectory[0] == '/';
    assert UserName[0] == 'J';
    assert SystemName[0] == 'P';
    assert |AskUsage| != |ClearSentinel|;
  }

  /** `clear` and `cls` both give the output-type sentinel, whatever the
      arguments and the environment. */
  lemma ClearCommands(command: string, args: seq<string>, env: Env)
    ensures Handle(ClearCmd, command, args, env).content == ClearSentinel
    ensures Handle(ClsCmd, command, args, env).content == ClearSentinel
    ensures Handle(ClearCmd, command, args, env).kind == Output && Handle(ClsCmd, command, args, env).kind == Output
  {
  }

  /** The default branch answers with the not-found error for the name. */
  lemma UnknownBranch(command: string, args: seq<string>, env: Env)
    ensures Handle(UnknownCmd, command, args, env).content == NotFound(command)
    ensures Handle(UnknownCmd, command, args, env).kind == Error
    ensures NotFound(command) != ClearSentinel
  {
    assert NotFound(command)[1] == 'o';
  }

  /** `sudo` prints the stages exactly when its argument text is the root
      wipe, and otherwise reports the argument text as not found. */
  lemma SudoCommand(command: string, args: seq<string>, env: Env)
    ensures Join(args, " ") == "rm -rf /*" ==> Handle(SudoCmd, command, args, env).content == SudoRmRf().content
    ensures Join(args, " ") != "rm -rf /*" ==>
      Handle(SudoCmd, command, args, env).content == SudoNotFound(Join(args, " "))
    ensures Handle(SudoCmd, command, args, env).kind == Ai <==> Join(args, " ") == "rm -rf /*"
    ensures Handle(SudoCmd, command, args, env).kind == Error <==> Join(args, " ") != "rm -rf /*"
  {
  }

  /** The narrative holds every one of the fourteen stages as its own line,
      the first one first. */
  lemma SudoStagesShown()
    ensures |SudoStages| == 14
    ensures SudoRmRf().content == SudoStages[0] + "\n" + Join(SudoStages[1..], "\n")
    ensures forall i :: 0 <= i < |SudoStages| ==> Occurs(SudoStages[i], SudoRmRf().content)
  {
    forall i | 0 <= i < |SudoStages|
      ensures Occurs(SudoStages[i], SudoRmRf().content)
    {
      OccursInJoin(SudoStages, "\n", i);
    }
  }

  /** Neither `sudo` reply is the sentinel. */
  lemma SudoTextsDiffer(argText: string)
    ensures SudoRmRf().content != ClearSentinel
    ensures SudoNotFound(argText) != ClearSentinel
  {
    SudoStagesShown();
    assert SudoRmRf().content[0] == 'R';
    assert SudoNotFound(argText)[0] == 's';
  }

  /** `ask` passes the argument pieces, joined by single spaces, to `askAI`. */
  lemma AskBranch(command: string, args: seq<string>, env: Env)
    ensures Handle(AskCmd, command, args, env).content == AskAI(Join(args, " "), env).content
    ensures Handle(AskCmd, command, args, env).kind == AskAI(Join(args, " "), env).kind
  {
  }

  /** A blank question is refused without consulting the service: the reply
      depends neither on the service, the model nor the profile. */
  lemma AskBlank(command: string, args: seq<string>, env: Env)
    requires IsBlank(Join(args, " "))
    ensures Handle(AskCmd, command, args, env).content == AskUsage
    ensures Handle(AskCmd, command, args, env).kind == Error
  {
    AskBranch(command, args, env);
  }

  /** Any other question is answered as AI output carrying the service's
      answer after the assistant prefix. */
  lemma AskAnswered(command: string, args: seq<string>, env: Env)
    requires !IsBlank(Join(args, " "))
    ensures var r := Handle(AskCmd, command, args, env);
      r.kind == Ai && StartsWith(r.content, AiPrefix)
      && r.content[|AiPrefix|..] == AskQuestion(env.service, env.info, Join(args, " "), env.oracle)
    ensures Handle(AskCmd, command, args, env).content != ClearSentinel
  {
    var r := Handle(AskCmd, command, args, env);
    assert r.content == AiPrefix + AskQuestion(env.service, env.info, Join(args, " "), env.oracle);
    assert r.content[0] == '🤖';
  }

  /** `joke` and `inspire` show one of the canned texts whatever the
      arguments, and never ask the model. */
  lemma CannedCommands(command: string, args: seq<string>, env: Env)
    ensures var r := Handle(JokeCmd, command, args, env);
      r.kind == Ai && exists j :: j in env.service.lists.jokes && r.content == "😄 " + j
    ensures var r := Handle(InspireCmd, command, args, env);
      r.kind == Ai && exists q :: q in env.service.lists.quotes && r.content == "✨ " + q
    ensures Handle(JokeCmd, command, args, env).content != ClearSentinel
    ensures Handle(InspireCmd, command, args, env).content != ClearSentinel
  {
    var j := Joke(env.service, env.pick);
    var q := Inspiration(env.service, env.pick);
    assert j in env.service.lists.jokes && Handle(JokeCmd, command, args, env).content == "😄 " + j;
    assert q in env.service.lists.quotes && Handle(InspireCmd, command, args, env).content == "✨ " + q;
    assert Handle(JokeCmd, command, args, env).content[0] == '😄';
    assert Handle(InspireCmd, command, args, env).content[0] == '✨';
  }

  /** A result is an error exactly for an unknown name, a blank question and
      a `sudo` with any argument text but the root wipe. */
  lemma ErrorResults(name: Name, command: string, args: seq<string>, env: Env)
    ensures Handle(name, command, args, env).kind == Error <==>
      (name == UnknownCmd
       || (name == AskCmd && IsBlank(Join(args, " ")))
       || (name == SudoCmd && Join(args, " ") != "rm -rf /*"))
  {
    BranchKinds(name, command, args, env);
    ExpectedKinds(name, Join(args, " "));
  }

  /** A result is AI output exactly for a joke, a quote, an answered question
      and the root wipe. */
  lemma AiResults(name: Name, command: string, args: seq<string>, env: Env)
    ensures Handle(name, command, args, env).kind == Ai <==>
      (name == JokeCmd || name == InspireCmd
       || (name == AskCmd && !IsBlank(Join(args, " ")))
       || (name == SudoCmd && Join(args, " ") == "rm -rf /*"))
  {
    BranchKinds(name, command, args, env);
    ExpectedKinds(name, Join(args, " "));
  }

  /** The kind each branch gives: AI output for the canned texts, an
      answered question and the root wipe, an error for an unknown name, a
      blank question and any other `sudo`, plain output for the rest. */
  function ExpectedKind(name: Name, argText: string): LineKind {
    match name
    case JokeCmd => Ai
    case InspireCmd => Ai
    case UnknownCmd => Error
    case AskCmd => if IsBlank(argText) then Error else Ai
    case SudoCmd => if argText == "rm -rf /*" then Ai else Error
    case _ => Output
  }

  /** Which names and argument texts `ExpectedKind` sends to an error and to AI output. */
  lemma ExpectedKinds(name: Name, argText: string)
    ensures ExpectedKind(name, argText) == Error <==>
      (name == UnknownCmd || (name == AskCmd && IsBlank(argText))
       || (name == SudoCmd && argText != "rm -rf /*"))
    ensures ExpectedKind(name, argText) == Ai <==>
      (name == JokeCmd || name == InspireCmd || (name == AskCmd && !IsBlank(argText))
       || (name == SudoCmd && argText == "rm -rf /*"))
  {
  }

  /** Every branch gives the kind `ExpectedKind` names. */
  lemma BranchKinds(name: Name, command: string, args: seq<string>, env: Env)
    ensures Handle(name, command, args, env).kind == ExpectedKind(name, Join(args, " "))
  {
    match name
    case AskCmd =>
      assert Handle(name, command, args, env) == AskAI(Join(args, " "), env);
    case _ =>
  }

  /** The screens and the listing never show the sentinel when the screens
      open on a new line. */
  lemma ScreensNotSentinel(name: Name, command: string, args: seq<string>, env: Env)
    requires ScreensOpenLines(env.screens)
    ensures (name == HelpCmd || name == AboutCmd || name == SkillsCmd || name == ResumeCmd
      || name == ProjectsCmd || name == ExperienceCmd || name == SocialsCmd || name == LsCmd)
      ==> Handle(name, command, args, env).content != ClearSentinel
  {
    if name == HelpCmd || name == AboutCmd || name == SkillsCmd || name == ResumeCmd {
      ProfileScreens(name, command, args, env);
      OpenNotSentinel(Handle(name, command, args, env).content);
    }
    if name == ProjectsCmd || name == ExperienceCmd || name == SocialsCmd {
      ListScreens(name, command, args, env);
      OpenNotSentinel(Handle(name, command, args, env).content);
    }
    ListingCommand(command, args, env);
    ListingNotSentinel(env.clock.localeDate);
  }

  /** Nor do the shell commands, `sudo` and the default branch, as long as
      the clock's date text is not the sentinel. */
  lemma ShellNotSentinel(name: Name, command: string, args: seq<string>, env: Env)
    requires env.clock.dateText != ClearSentinel
    ensures (name == PwdCmd || name == WhoamiCmd || name == UnameCmd || name == DateCmd
      || name == UnknownCmd || name == SudoCmd)
      ==> Handle(name, command, args, env).content != ClearSentinel
  {
    FixedOutputs(command, args, env);
    FixedTextsDiffer();
    UnknownBranch(command, args, env);
    SudoCommand(command, args, env);
    SudoTextsDiffer(Join(args, " "));
  }

  /** Nor do `ask`, `joke` and `inspire`, whatever the service answers. */
  lemma ServiceNotSentinel(name: Name, command: string, args: seq<string>, env: Env)
    ensures (name == AskCmd || name == JokeCmd || name == InspireCmd)
      ==> Handle(name, command, args, env).content != ClearSentinel
  {
    CannedCommands(command, args, env);
    if IsBlank(Join(args, " ")) {
      AskBlank(command, args, env);
      FixedTextsDiffer();
    } else {
      AskAnswered(command, args, env);
    }
  }

  /** No other branch produces the sentinel text, provided the screens open
      on a new line and the clock's rendering of the date is not that text. */
  lemma SentinelOnlyFromClear(name: Name, command: string, args: seq<string>, env: Env)
    requires ScreensOpenLines(env.screens)
    requires env.clock.dateText != ClearSentinel
    ensures Handle(name, command, args, env).content == ClearSentinel <==> name == ClearCmd || name == ClsCmd
  {
    ScreensNotSentinel(name, command, args, env);
    ShellNotSentinel(name, command, args, env);
    ServiceNotSentinel(name, command, args, env);
    ClearCommands(command, args, env);
  }

  /** An input asks for the transcript to be cleared exactly when its
      lower-cased first word is `clear` or `cls`. */
  lemma ClearInput(input: string, env: Env)
    requires ScreensOpenLines(env.screens)
    requires env.clock.dateText != ClearSentinel
    ensures ProcessCommand(input, env).content == ClearSentinel
      <==> CommandName(input) == "clear" || CommandName(input) == "cls"
  {
    var c := CommandName(input);
    Dispatch(input, env);
    SentinelOnlyFromClear(NameOf(c), c, Args(input), env);
    NameOfClear(c);
  }

  // ----- listings -----

  /** Block i of the project listing is numbered i + 1 and appears in it. */
  lemma {:induction false} ProjectBlocksHold(ps: seq<Project>, i: nat)
    requires i < |ps|
    ensures Occurs(ProjectEntry(i + 1, ps[i]), ProjectBlocks(ps))
    decreases |ps|
  {
    var init := ps[..|ps| - 1];
    if i == |ps| - 1 {
      OccursAtEnd(ProjectBlocks(init), ProjectEntry(i + 1, ps[i]));
    } else {
      assert init[i] == ps[i];
      ProjectBlocksHold(init, i);
      OccursExtend(ProjectEntry(i + 1, ps[i]), ProjectBlocks(init), ProjectEntry(|ps|, ps[|ps| - 1]));
    }
  }

  /** The projects listing holds every project's block numbered from 1 in
      data order, and its total is the number of projects. */
  lemma ProjectsListed(ps: seq<Project>, i: nat, s: Screens)
    requires i < |ps|
    ensures Occurs(ProjectEntry(i + 1, ps[i]), ProjectsText(ps, s))
    ensures EndsWith(ProjectsText(ps, s), ProjectsFooter(|ps|, s))
  {
    ProjectBlocksHold(ps, i);
    OccursWiden(ProjectEntry(i + 1, ps[i]), ProjectBlocks(ps), s.projectsHead, ProjectsFooter(|ps|, s));
  }

  /** A project block starts with its number and its name underlined with
      four more dashes than the name has characters, shows a link line for
      each truthy link, and has no line for a link that is not truthy. */
  lemma ProjectEntryShape(n: nat, p: Project)
    ensures StartsWith(ProjectEntry(n, p),
      "\n[" + NatText(n) + "] " + p.name + "\n" + Repeat('-', |p.name| + 4) + "\nDescription: ")
    ensures Present(p.github) ==> Occurs("\nGitHub:      " + p.github.value, ProjectEntry(n, p))
    ensures Present(p.live) ==> Occurs("\nLive Demo:   " + p.live.value, ProjectEntry(n, p))
    ensures !Present(p.github) ==> ProjectEntry(n, p) == ProjectHeading(n, p) + LiveLine(p) + "\n"
    ensures !Present(p.live) ==> ProjectEntry(n, p) == ProjectHeading(n, p) + GitHubLine(p) + "\n"
    ensures !Present(p.github) && !Present(p.live) ==> ProjectEntry(n, p) == ProjectHeading(n, p) + "\n"
  {
    var head := "\n[" + NatText(n) + "] " + p.name + "\n" + Repeat('-', |p.name| + 4) + "\nDescription: ";
    var h, g, l := ProjectHeading(n, p), GitHubLine(p), LiveLine(p);
    assert h == head + p.description + "\nTech Stack:  " + Join(p.tech, " • ");
    assert ProjectEntry(n, p)[..|head|] == head;
    if Present(p.github) {
      OccursBetween(h, g, l + "\n");
      assert ProjectEntry(n, p) == h + g + (l + "\n");
    }
    if Present(p.live) {
      OccursBetween(h + g, l, "\n");
    }
    LinksOmitted(n, p);
  }

  /** A link that is not truthy contributes nothing to its block. */
  lemma LinksOmitted(n: nat, p: Project)
    ensures !Present(p.github) ==> ProjectEntry(n, p) == ProjectHeading(n, p) + LiveLine(p) + "\n"
    ensures !Present(p.live) ==> ProjectEntry(n, p) == ProjectHeading(n, p) + GitHubLine(p) + "\n"
  {
    var h, g, l := ProjectHeading(n, p), GitHubLine(p), LiveLine(p);
    if !Present(p.github) {
      assert g == [];
      assert h + g == h;
    }
    if !Present(p.live) {
      assert l == [];
      assert h + g + l == h + g;
    }
  }

  /** Position i of the experience listing is numbered i + 1 and appears in it. */
  lemma {:induction false} ExperienceBlocksHold(es: seq<Experience>, i: nat)
    requires i < |es|
    ensures Occurs(ExperienceEntry(i + 1, es[i]), ExperienceBlocks(es))
    decreases |es|
  {
    var init := es[..|es| - 1];
    if i == |es| - 1 {
      OccursAtEnd(ExperienceBlocks(init), ExperienceEntry(i + 1, es[i]));
    } else {
      assert init[i] == es[i];
      ExperienceBlocksHold(init, i);
      OccursExtend(ExperienceEntry(i + 1, es[i]), ExperienceBlocks(init), ExperienceEntry(|es|, es[|es| - 1]));
    }
  }

  /** The experience listing holds every position numbered from 1 in data
      order, and its footer counts the positions. */
  lemma ExperienceListed(es: seq<Experience>, i: nat, s: Screens)
    requires i < |es|
    ensures Occurs(ExperienceEntry(i + 1, es[i]), ExperienceText(es, s))
    ensures EndsWith(ExperienceText(es, s), ExperienceFooter(|es|, s))
  {
    ExperienceBlocksHold(es, i);
    OccursWiden(ExperienceEntry(i + 1, es[i]), ExperienceBlocks(es), s.experienceHead, ExperienceFooter(|es|, s));
  }

  /** Entry i of the contacts appears in the contact lines. */
  lemma {:induction false} SocialLinesHold(socials: seq<(string, string)>, i: nat)
    requires i < |socials|
    ensures Occurs(SocialEntry(socials[i].0, socials[i].1), SocialLines(socials))
    decreases |socials|
  {
    var init := socials[..|socials| - 1];
    var last := socials[|socials| - 1];
    if i == |socials| - 1 {
      OccursAtEnd(SocialLines(init), SocialEntry(last.0, last.1));
    } else {
      assert init[i] == socials[i];
      SocialLinesHold(init, i);
      OccursExtend(SocialEntry(socials[i].0, socials[i].1), SocialLines(init), SocialEntry(last.0, last.1));
    }
  }

  /** The contacts listing holds one line per entry, starting with the
      platform's icon followed by the platform padded to twelve characters. */
  lemma SocialsListed(socials: seq<(string, string)>, i: nat, s: Screens)
    requires i < |socials|
    ensures Occurs(SocialEntry(socials[i].0, socials[i].1), SocialsText(socials, s))
    ensures StartsWith(SocialEntry(socials[i].0, socials[i].1), SocialIcon(socials[i].0) + " " + PadEnd(socials[i].0, 12))
  {
    SocialLinesHold(socials, i);
    OccursWiden(SocialEntry(socials[i].0, socials[i].1), SocialLines(socials), s.socialsHead, s.socialsTail);
  }

  /** Every platform of the shipped profile has its own icon. */
  lemma PortfolioIcons()
    ensures forall i :: 0 <= i < |Portfolio.socials| ==> SocialIcon(Portfolio.socials[i].0) != DefaultIcon
  {
  }
}
