/** The AI delegate of src/services/geminiService.ts: whether a client is
    configured, the context prompt built from the profile, the answer to a
    question (demo text when unconfigured, the model's text, a default when it
    gives none, an apology when the call fails) and the canned jokes and quotes.
    The remote call is an oracle from prompt to reply; the random choice is an
    index handed in. */
module Gemini {
  import opened Wrappers
  import opened Strings
  import opened Records

  /** What the remote `generateContent` call can come back with: a first
      candidate's text, a response without one, or a thrown error. */
  datatype Reply = Text(text: string) | NoText | Failure

  /** The canned texts `getJoke` and `getInspiration` choose from. */
  datatype Canned = Canned(jokes: seq<string>, quotes: seq<string>)

  /** Canned texts with five jokes and five quotes, as shipped. */
  type Lists = c: Canned | |c.jokes| == 5 && |c.quotes| == 5
    witness Canned(["", "", "", "", ""], ["", "", "", "", ""])

  /** The service holds a client, made with the given API key, or none, and
      its canned texts. */
  datatype Service = Service(ai: Option<string>, lists: Lists)

  /** `Math.floor(Math.random() * 5)`: an index into a five-element list. */
  type Pick = i: int | 0 <= i < 5

  const DemoKey := "demo-key"
  const NoResponse := "No response from AI."
  const Apology := "Sorry, I encountered an error processing your request. Please try again later."

  /** The key read from `VITE_GEMINI_API_KEY`; a missing or empty variable
      falls back to the demo key. */
  function ApiKey(envVar: Option<string>): (k: string)
    ensures k != ""
    ensures k == DemoKey <==> envVar.None? || envVar.value == "" || envVar.value == DemoKey
  {
    if envVar.Some? && envVar.value != "" then envVar.value else DemoKey
  }

  /** The constructor: a client is created only for a key other than the demo key. */
  function NewService(apiKey: string): (s: Service)
    ensures s.lists == ShippedLists
  {
    if apiKey != DemoKey then Service(Some(apiKey), ShippedLists) else Service(None, ShippedLists)
  }

  predicate Configured(s: Service) {
    s.ai.Some?
  }

  /** The service is configured exactly when the variable is set to something
      other than the empty string and the demo key. */
  lemma ConfiguredIff(envVar: Option<string>)
    ensures Configured(NewService(ApiKey(envVar)))
      <==> envVar.Some? && envVar.value != "" && envVar.value != DemoKey
    ensures Configured(NewService(ApiKey(envVar))) ==> NewService(ApiKey(envVar)).ai == envVar
  {
  }

  /** One line of the prompt's project list. */
  function ProjectSummary(p: Project): string {
    "- " + p.name + ": " + p.description + " (" + Join(p.tech, ", ") + ")"
  }

  /** One line of the prompt's experience list. */
  function ExperienceSummary(e: Experience): string {
    "- " + e.title + " at " + e.company + " (" + e.period + "): " + e.description
  }

  function ProjectSummaries(ps: seq<Project>): (r: seq<string>)
    ensures |r| == |ps| && forall i :: 0 <= i < |ps| ==> r[i] == ProjectSummary(ps[i])
  {
    seq(|ps|, i requires 0 <= i < |ps| => ProjectSummary(ps[i]))
  }

  function ExperienceSummaries(es: seq<Experience>): (r: seq<string>)
    ensures |r| == |es| && forall i :: 0 <= i < |es| ==> r[i] == ExperienceSummary(es[i])
  {
    seq(|es|, i requires 0 <= i < |es| => ExperienceSummary(es[i]))
  }

  const PromptClosing := ", answer as if you're their personal AI assistant"
    + " with deep knowledge of their background."
    + " Keep responses concise and terminal-friendly (avoid excessive formatting)."
    + " If asked about technical topics, you can provide general programming help as well."

  /** `getContextPrompt()` */
  function ContextPrompt(info: Info): string {
    "You are an AI assistant integrated into " + info.name + "'s terminal portfolio website.\n"
    + (info.name + " is " + info.title + ".")
    + "\n\nBio: " + info.bio
    + "\n\n" + ("Skills: " + Join(info.skills, ", "))
    + "\n\nProjects:\n" + Join(ProjectSummaries(info.projects), "\n")
    + "\n\nExperience:\n" + Join(ExperienceSummaries(info.experience), "\n")
    + "\n\nWhen visitors ask about " + info.name + PromptClosing
  }

  /** The context prompt states who the owner is, the bio, every skill joined by
      ", ", one summary line per project and one per position. */
  lemma ContextPromptMentions(info: Info)
    ensures Occurs(info.name + " is " + info.title + ".", ContextPrompt(info))
    ensures Occurs(info.bio, ContextPrompt(info))
    ensures Occurs("Skills: " + Join(info.skills, ", "), ContextPrompt(info))
    ensures forall i :: 0 <= i < |info.projects| ==>
      Occurs(ProjectSummary(info.projects[i]), ContextPrompt(info))
    ensures forall j :: 0 <= j < |info.experience| ==>
      Occurs(ExperienceSummary(info.experience[j]), ContextPrompt(info))
  {
    var owner := info.name + " is " + info.title + ".";
    var skills := "Skills: " + Join(info.skills, ", ");
    var projects := Join(ProjectSummaries(info.projects), "\n");
    var jobs := Join(ExperienceSummaries(info.experience), "\n");
    var s1 := "You are an AI assistant integrated into " + info.name + "'s terminal portfolio website.\n";
    var s2 := s1 + owner;
    var s3 := s2 + "\n\nBio: ";
    var s4 := s3 + info.bio;
    var s5 := s4 + "\n\n";
    var s6 := s5 + skills;
    var s7 := s6 + "\n\nProjects:\n";
    var s8 := s7 + projects;
    var s9 := s8 + "\n\nExperience:\n";
    var s10 := s9 + jobs;
    var tail := "\n\nWhen visitors ask about " + info.name + PromptClosing;
    var p := ContextPrompt(info);
    assert p == s10 + "\n\nWhen visitors ask about " + info.name + PromptClosing;
    OccursAtEnd(s1, owner);
    OccursExtend(owner, s2, "\n\nBio: ");
    OccursExtend(owner, s3, info.bio);
    OccursAtEnd(s3, info.bio);
    OccursExtend(owner, s4, "\n\n");
    OccursExtend(info.bio, s4, "\n\n");
    OccursExtend(owner, s5, skills);
    OccursExtend(info.bio, s5, skills);
    OccursAtEnd(s5, skills);
    PastLists(owner, s6, projects, jobs, info.name);
    PastLists(info.bio, s6, projects, jobs, info.name);
    PastLists(skills, s6, projects, jobs, info.name);
    forall i | 0 <= i < |info.projects|
      ensures Occurs(ProjectSummary(info.projects[i]), p)
    {
      var x := ProjectSummary(info.projects[i]);
      OccursInJoin(ProjectSummaries(info.projects), "\n", i);
      OccursPrepend(x, s7, projects);
      OccursExtend(x, s8, "\n\nExperience:\n");
      OccursExtend(x, s9, jobs);
      PastTail(x, s10, info.name);
    }
    forall j | 0 <= j < |info.experience|
      ensures Occurs(ExperienceSummary(info.experience[j]), p)
    {
      var x := ExperienceSummary(info.experience[j]);
      OccursInJoin(ExperienceSummaries(info.experience), "\n", j);
      OccursPrepend(x, s9, jobs);
      PastTail(x, s10, info.name);
    }
  }

  /** What occurs before the project list occurs in the whole prompt. */
  lemma PastLists(x: string, s: string, projects: string, jobs: string, name: string)
    requires Occurs(x, s)
    ensures Occurs(x, s + "\n\nProjects:\n" + projects + "\n\nExperience:\n" + jobs
      + "\n\nWhen visitors ask about " + name + PromptClosing)
  {
    OccursExtend(x, s, "\n\nProjects:\n");
    OccursExtend(x, s + "\n\nProjects:\n", projects);
    OccursExtend(x, s + "\n\nProjects:\n" + projects, "\n\nExperience:\n");
    OccursExtend(x, s + "\n\nProjects:\n" + projects + "\n\nExperience:\n", jobs);
    PastTail(x, s + "\n\nProjects:\n" + projects + "\n\nExperience:\n" + jobs, name);
  }

  /** What occurs before the closing paragraph occurs in the whole prompt. */
  lemma PastTail(x: string, s: string, name: string)
    requires Occurs(x, s)
    ensures Occurs(x, s + "\n\nWhen visitors ask about " + name + PromptClosing)
  {
    OccursExtend(x, s, "\n\nWhen visitors ask about ");
    OccursExtend(x, s + "\n\nWhen visitors ask about ", name);
    OccursExtend(x, s + "\n\nWhen visitors ask about " + name, PromptClosing);
  }

  /** The text sent to the model: the context prompt, then the visitor's query. */
  function Prompt(info: Info, query: string): string {
    ContextPrompt(info) + "\n\nUser Query: " + query
  }

  /** `personalInfo.projects[0]?.name` inside a template literal. */
  function FirstProjectName(info: Info): string {
    if |info.projects| > 0 then info.projects[0].name else "undefined"
  }

  /** The first five skills (fewer when there are fewer), `skills.slice(0, 5)`. */
  function LeadingSkills(info: Info): (r: seq<string>)
    ensures |r| <= 5 && |r| <= |info.skills| && r == info.skills[..|r|]
    ensures |r| == 5 || r == info.skills
  {
    if |info.skills| <= 5 then info.skills else info.skills[..5]
  }

  /** The opening of the demo answer, up to the quoted query. */
  const DemoIntro := "AI service not configured. Please set VITE_GEMINI_API_KEY environment variable.\n      \n"
    + "For demo purposes, here's what I would tell you about "

  /** The explanation returned instead of a remote call when no client is configured. */
  function DemoAnswer(info: Info, query: string): string {
    DemoIntro + ("\"" + query + "\"") + ":\n"
    + "This portfolio belongs to " + (info.name + ", " + info.title) + ". \n"
    + "They specialize in " + Join(LeadingSkills(info), ", ")
    + " and have worked on projects like " + FirstProjectName(info) + "."
  }

  /** `askQuestion(query)`: never fails; the oracle is consulted only when a
      client is configured, and then with exactly `Prompt(info, query)`. */
  function AskQuestion(s: Service, info: Info, query: string, oracle: string -> Reply): string {
    if s.ai.None? then DemoAnswer(info, query)
    else
      match oracle(Prompt(info, query))
      case Text(t) => if t != "" then t else NoResponse
      case NoText => NoResponse
      case Failure => Apology
  }

  /** The demo answer names the quoted query, the owner and title, the
      leading skills and the first project. */
  lemma DemoAnswerMentions(info: Info, query: string)
    ensures Occurs("\"" + query + "\"", DemoAnswer(info, query))
    ensures Occurs(info.name + ", " + info.title, DemoAnswer(info, query))
    ensures Occurs(Join(LeadingSkills(info), ", "), DemoAnswer(info, query))
    ensures Occurs(FirstProjectName(info), DemoAnswer(info, query))
  {
    var q := "\"" + query + "\"";
    var who := info.name + ", " + info.title;
    var skills := Join(LeadingSkills(info), ", ");
    var first := FirstProjectName(info);
    var s1 := DemoIntro + q;
    var s2 := s1 + ":\n";
    var s3 := s2 + "This portfolio belongs to ";
    var s4 := s3 + who;
    var s5 := s4 + ". \n";
    var s6 := s5 + "They specialize in ";
    var s7 := s6 + skills;
    var s8 := s7 + " and have worked on projects like ";
    var s9 := s8 + first;
    OccursAtEnd(DemoIntro, q);
    OccursExtend(q, s1, ":\n");
    OccursExtend(q, s2, "This portfolio belongs to ");
    OccursExtend(q, s3, who);
    OccursAtEnd(s3, who);
    OccursExtend(q, s4, ". \n");
    OccursExtend(who, s4, ". \n");
    OccursExtend(q, s5, "They specialize in ");
    OccursExtend(who, s5, "They specialize in ");
    OccursExtend(q, s6, skills);
    OccursExtend(who, s6, skills);
    OccursAtEnd(s6, skills);
    OccursExtend(q, s7, " and have worked on projects like ");
    OccursExtend(who, s7, " and have worked on projects like ");
    OccursExtend(skills, s7, " and have worked on projects like ");
    OccursExtend(q, s8, first);
    OccursExtend(who, s8, first);
    OccursExtend(skills, s8, first);
    OccursAtEnd(s8, first);
    OccursExtend(q, s9, ".");
    OccursExtend(who, s9, ".");
    OccursExtend(skills, s9, ".");
    OccursExtend(first, s9, ".");
  }

  /** Unconfigured, the answer is the demo text whatever the oracle would say,
      and it names the query, the owner and title, the leading skills and the
      first project. */
  lemma UnconfiguredAnswer(s: Service, info: Info, query: string, oracle: string -> Reply, other: string -> Reply)
    requires !Configured(s)
    ensures AskQuestion(s, info, query, oracle) == AskQuestion(s, info, query, other)
    ensures AskQuestion(s, info, query, oracle) == DemoAnswer(info, query)
    ensures Occurs("\"" + query + "\"", AskQuestion(s, info, query, oracle))
    ensures Occurs(info.name + ", " + info.title, AskQuestion(s, info, query, oracle))
    ensures Occurs(Join(LeadingSkills(info), ", "), AskQuestion(s, info, query, oracle))
    ensures Occurs(FirstProjectName(info), AskQuestion(s, info, query, oracle))
  {
    DemoAnswerMentions(info, query);
  }

  /** Configured, the answer is the model's non-empty text, the default when it
      gives none (or an empty one), or the apology when the call fails; a
      failure never escapes. */
  lemma ConfiguredAnswer(s: Service, info: Info, query: string, oracle: string -> Reply)
    requires Configured(s)
    ensures var r := AskQuestion(s, info, query, oracle);
      var reply := oracle(Prompt(info, query));
      (reply.Failure? ==> r == Apology)
      && (reply.NoText? ==> r == NoResponse)
      && (reply.Text? ==> r == (if reply.text == "" then NoResponse else reply.text))
    ensures AskQuestion(s, info, query, oracle) != ""
  {
  }

  const Jokes: seq<string> := [
    "Why do programmers prefer dark mode? Because light attracts bugs! 🐛",
    "How many programmers does it take to change a light bulb? None, that's a hardware problem! 💡",
    "Why don't programmers like nature? It has too many bugs! 🌿",
    "What's a programmer's favorite hangout place? Foo Bar! 🍺",
    "Why did the programmer quit their job? They didn't get arrays! 📊"
  ]

  const Quotes: seq<string> := [
    "\"The best way to predict the future is to invent it.\" - Alan Kay",
    "\"Code is like humor. When you have to explain it, it's bad.\" - Cory House",
    "\"First, solve the problem. Then, write the code.\" - John Johnson",
    "\"Experience is the name everyone gives to their mistakes.\" - Oscar Wilde",
    "\"The only way to learn a new programming language is by writing programs in it.\" - Dennis Ritchie"
  ]

  /** The lists of geminiService.ts. */
  const ShippedLists: Lists := Canned(Jokes, Quotes)

  /** `getJoke()`: one of the five canned jokes; no remote call. */
  function Joke(s: Service, pick: Pick): (r: string)
    ensures r in s.lists.jokes && r == s.lists.jokes[pick]
  {
    s.lists.jokes[pick]
  }

  /** `getInspiration()`: one of the five canned quotes; no remote call. */
  function Inspiration(s: Service, pick: Pick): (r: string)
    ensures r in s.lists.quotes && r == s.lists.quotes[pick]
  {
    s.lists.quotes[pick]
  }

  /** Each list entry is reachable by some pick, so the choice is over the
      whole list, and neither choice depends on the client. */
  lemma CannedListsCovered(s: Service, r: string)
    ensures r in s.lists.jokes <==> exists p: Pick :: Joke(s, p) == r
    ensures r in s.lists.quotes <==> exists p: Pick :: Inspiration(s, p) == r
    ensures forall p: Pick ::
      (Joke(s, p) == Joke(s.(ai := None), p) && Inspiration(s, p) == Inspiration(s.(ai := None), p))
  {
    if r in s.lists.jokes {
      var i :| 0 <= i < |s.lists.jokes| && s.lists.jokes[i] == r;
      assert Joke(s, i) == r;
    }
    if r in s.lists.quotes {
      var i :| 0 <= i < |s.lists.quotes| && s.lists.quotes[i] == r;
      assert Inspiration(s, i) == r;
    }
  }

  /** A service made by the constructor chooses from the shipped lists. */
  lemma ShippedChoices(apiKey: string, pick: Pick)
    ensures Joke(NewService(apiKey), pick) == Jokes[pick]
    ensures Inspiration(NewService(apiKey), pick) == Quotes[pick]
  {
  }
}
