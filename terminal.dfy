/** The terminal of src/components/Terminal.tsx: the transcript, the command
    history and its stored copy, the processing flag, and the input line it
    feeds. `handleCommand` awaits the command processor, so it is split at
    the `await`: `Begin` is the part before it and `Settle` the part after,
    including the render that follows, in which a sentinel line wipes the
    transcript. Clock readings are parameters. */
module Terminal {
  import opened Wrappers
  import opened Strings
  import opened Records
  import opened Commands
  import OutputView
  import Prompt

  // ----- the welcome transcript -----

  /** The eleven lines the mount effect shows: the block-letter banner, a
      blank line, the greeting, two hints and a blank line. */
  const WelcomeTexts: seq<string> := [
    "████████╗███████╗██████╗ ███╗   ███╗██╗███╗   ██╗ █████╗ ██╗",
    "╚══██╔══╝██╔════╝██╔══██╗████╗ ████║██║████╗  ██║██╔══██╗██║",
    "   ██║   █████╗  ██████╔╝██╔████╔██║██║██╔██╗ ██║███████║██║",
    "   ██║   ██╔══╝  ██╔══██╗██║╚██╔╝██║██║██║╚██╗██║██╔══██║██║",
    "   ██║   ███████╗██║  ██║██║ ╚═╝ ██║██║██║ ╚████║██║  ██║███████╗",
    "   ╚═╝   ╚══════╝╚═╝  ╚═╝╚═╝     ╚═╝╚═╝╚═╝  ╚═══╝╚═╝  ╚═╝╚══════╝",
    "",
    "Welcome to Sankalp's Terminal Portfolio v2.1.0",
    "Type \"help\" to see available commands or \"about\" to learn more about me.",
    "Try \"ask <question>\" to chat with my AI assistant!",
    ""]

  /** The welcome record k (counting from 0): id `welcome-<k+1>`, output kind. */
  function WelcomeLine(k: nat, now: nat): Line
    requires k < |WelcomeTexts|
  {
    Line("welcome-" + NatText(k + 1), WelcomeTexts[k], Output, now)
  }

  function Welcome(now: nat): seq<Line> {
    seq(|WelcomeTexts|, k requires 0 <= k < |WelcomeTexts| => WelcomeLine(k, now))
  }

  /** No line of the transcript is the clear sentinel. */
  predicate NoSentinel(lines: seq<Line>) {
    forall i :: 0 <= i < |lines| ==> lines[i].content != ClearSentinel
  }

  /** Appending a line that is not the sentinel keeps the transcript free of it. */
  lemma NoSentinelAppend(lines: seq<Line>, l: Line)
    requires NoSentinel(lines) && l.content != ClearSentinel
    ensures NoSentinel(lines + [l])
  {
    var s := lines + [l];
    forall i | 0 <= i < |s|
      ensures s[i].content != ClearSentinel
    {
      if i < |lines| {
        assert s[i] == lines[i];
      }
    }
  }

  /** Eleven output records stamped with the mount time, with distinct ids,
      none of them the sentinel. */
  lemma WelcomeShape(now: nat)
    ensures |Welcome(now)| == 11
    ensures forall i :: 0 <= i < 11 ==> Welcome(now)[i].kind == Output && Welcome(now)[i].timestamp == now
    ensures forall i, j :: 0 <= i < j < 11 ==> Welcome(now)[i].id != Welcome(now)[j].id
    ensures NoSentinel(Welcome(now))
  {
    var w := Welcome(now);
    forall i, j | 0 <= i < j < 11
      ensures w[i].id != w[j].id
    {
      var p := "welcome-";
      if w[i].id == w[j].id {
        assert NatText(i + 1) == w[i].id[|p|..];
        assert NatText(j + 1) == w[j].id[|p|..];
        NatTextInjective(i + 1, j + 1);
      }
    }
    forall i | 0 <= i < 11
      ensures w[i].content != ClearSentinel
    {
      assert |ClearSentinel| == 13;
      assert w[i].content == WelcomeTexts[i];
      assert |WelcomeTexts[i]| != 13;
    }
  }

  // ----- the stored history -----

  /** `history.slice(-50)`: the newest fifty entries, or all of them. */
  function Last50(history: seq<string>): (r: seq<string>)
    ensures |r| == if |history| < 50 then |history| else 50
    ensures r == history[|history| - |r|..]
  {
    if |history| <= 50 then history else history[|history| - 50..]
  }

  /** The stored copy keeps up without the whole history: the newest fifty
      after one more entry are the newest fifty of the stored copy and that
      entry. */
  lemma Last50Snoc(history: seq<string>, x: string)
    ensures Last50(history + [x]) == Last50(Last50(history) + [x])
  {
    var h := history + [x];
    var s := Last50(history) + [x];
    if |history| >= 50 {
      assert Last50(h) == h[|h| - 50..];
      assert Last50(s) == s[1..];
      assert h[|h| - 50..] == history[|history| - 49..] + [x];
      assert s[1..] == Last50(history)[1..] + [x];
      assert Last50(history)[1..] == history[|history| - 49..];
    }
  }

  /** A stored copy holds the newest entries of the history, and all of them
      unless there are at least fifty. */
  predicate Newest(stored: seq<string>, history: seq<string>) {
    |stored| <= |history| && stored == history[|history| - |stored|..]
    && (|stored| == |history| || |stored| >= 50)
  }

  /** Storing the newest fifty keeps that relation. */
  lemma Last50Newest(history: seq<string>)
    ensures Newest(Last50(history), history)
  {
  }

  // ----- the records of a command -----

  /** What opens an echoed command and an error record, and what an error
      record says when the thrown value is not an `Error`. */
  const EchoMark := "$ "
  const ErrorMark := "Error: "
  const UnknownError := "Unknown error occurred"

  /** The echo of a command: the mark and the text, command kind. */
  function Echo(text: string, now: nat): (l: Line)
    ensures l.kind == Command && l.timestamp == now
    ensures StartsWith(l.id, "cmd-")
    ensures StartsWith(l.content, EchoMark) && l.content[|EchoMark|..] == text
  {
    Line("cmd-" + NatText(now), EchoMark + text, Command, now)
  }

  /** How the awaited command processor finished: with a result, or by
      throwing, with the message of an `Error` or with some other value. */
  datatype Outcome = Returned(result: CommandResult) | Threw(message: Option<string>)

  /** The record that follows the echo: the result as it came, or an error
      record quoting the message. */
  function ResultLine(outcome: Outcome, now: nat): (l: Line)
    ensures l.timestamp == now
    ensures outcome.Returned? ==>
      StartsWith(l.id, "res-") && l.content == outcome.result.content && l.kind == outcome.result.kind
    ensures outcome.Threw? ==> (StartsWith(l.id, "err-") && l.kind == Error
      && StartsWith(l.content, ErrorMark)
      && l.content[|ErrorMark|..] == (if outcome.message.Some? then outcome.message.value else UnknownError))
  {
    match outcome
    case Returned(r) => Line("res-" + NatText(now), r.content, r.kind, now)
    case Threw(m) =>
      var text := if m.Some? then m.value else UnknownError;
      Line("err-" + NatText(now), ErrorMark + text, Error, now)
  }

  /** An echo is never the sentinel: it opens with the mark. */
  lemma EchoNotSentinel(text: string, now: nat)
    ensures Echo(text, now).content != ClearSentinel
  {
    assert Echo(text, now).content[0] == '$';
  }

  /** An echo never shares its id with the record that follows it, even
      within one millisecond, and neither an echo nor a thrown error is the
      sentinel. */
  lemma RecordsApart(text: string, outcome: Outcome, sent: nat, done: nat)
    ensures Echo(text, sent).id != ResultLine(outcome, done).id
    ensures Echo(text, sent).content != ClearSentinel
    ensures outcome.Threw? ==> ResultLine(outcome, done).content != ClearSentinel
  {
    assert Echo(text, sent).id[0] == 'c';
    assert ResultLine(outcome, done).id[0] != 'c';
    assert Echo(text, sent).content[0] == '$';
    if outcome.Threw? {
      assert ResultLine(outcome, done).content[0] == 'E';
    }
  }

  // ----- rendering -----

  /** What remains after the transcript renders: each line whose content is
      the sentinel calls the clear callback, which empties the transcript. */
  function Render(lines: seq<Line>): (r: seq<Line>)
    ensures NoSentinel(r)
    ensures r == [] || r == lines
  {
    if exists i :: 0 <= i < |lines| && OutputView.ClearsTranscript(lines[i].content, true) then []
    else lines
  }

  /** A transcript without the sentinel is shown as it is; appending a line
      to it wipes it exactly when that line is the sentinel. */
  lemma RenderAppend(lines: seq<Line>, l: Line)
    requires NoSentinel(lines)
    ensures Render(lines) == lines
    ensures Render(lines + [l]) == if l.content == ClearSentinel then [] else lines + [l]
  {
    var s := lines + [l];
    if l.content == ClearSentinel {
      assert OutputView.ClearsTranscript(s[|lines|].content, true);
    } else {
      forall i | 0 <= i < |s|
        ensures !OutputView.ClearsTranscript(s[i].content, true)
      {
        if i < |lines| {
          assert s[i] == lines[i];
        }
      }
    }
  }

  /** Appending an echo that is not the sentinel and then a record wipes a
      transcript without the sentinel exactly when the record is the sentinel. */
  lemma RenderPair(lines: seq<Line>, e: Line, r: Line)
    requires NoSentinel(lines) && e.content != ClearSentinel
    ensures Render(lines + [e, r]) == if r.content == ClearSentinel then [] else lines + [e, r]
  {
    RenderAppend(lines, e);
    RenderAppend(lines + [e], r);
    assert lines + [e, r] == lines + [e] + [r];
  }

  /** The transcript after a command: the echo and the result are appended,
      in that order; a `clear` or `cls` instead leaves it empty. This relies
      on the screens opening on a new line and on the clock's date text not
      being the sentinel, which holds for the shipped screens. */
  lemma CommandTranscript(lines: seq<Line>, text: string, env: Env, sent: nat, done: nat)
    requires NoSentinel(lines)
    requires ScreensOpenLines(env.screens) && env.clock.dateText != ClearSentinel
    ensures var after := Render(lines + [Echo(text, sent), ResultLine(Returned(ProcessCommand(text, env)), done)]);
      (CommandName(text) == "clear" || CommandName(text) == "cls" ==> after == [])
      && (CommandName(text) != "clear" && CommandName(text) != "cls" ==>
            after == lines + [Echo(text, sent), ResultLine(Returned(ProcessCommand(text, env)), done)])
  {
    var outcome := Returned(ProcessCommand(text, env));
    RecordsApart(text, outcome, sent, done);
    ClearInput(text, env);
    RenderPair(lines, Echo(text, sent), ResultLine(outcome, done));
  }

  // ----- the component -----

  /** The mounted terminal. `stored` is the `terminal-history` entry of the
      browser's local storage, as the list it encodes. */
  class Session {
    var output: seq<Line>
    var history: seq<string>
    var processing: bool
    var stored: Option<seq<string>>
    const line: Prompt.InputLine

    /** No sentinel line stays on screen, the input line's history position
        fits the history, and the stored copy holds the newest entries. */
    ghost predicate Valid()
      reads this, line
    {
      NoSentinel(output) && Prompt.Fits(line.historyIndex, history)
      && match stored
         case None => history == []
         case Some(h) => Newest(h, history)
    }

    /** Mounting: an empty history unless one is stored, and the welcome
        transcript. */
    constructor (saved: Option<seq<string>>, now: nat)
      ensures Valid() && fresh(line)
      ensures output == Welcome(now) && !processing && stored == saved
      ensures history == if saved.Some? then saved.value else []
      ensures line.State() == Prompt.Draft("", -1)
    {
      output := Welcome(now);
      history := if saved.Some? then saved.value else [];
      processing := false;
      stored := saved;
      line := new Prompt.InputLine();
      new;
      WelcomeShape(now);
    }

    /** `handleCommand` up to the `await`: a blank text is ignored; any
        other is echoed, appended to the history, and the newest fifty
        entries are stored. */
    method Begin(text: string, now: nat) returns (started: bool)
      requires Valid()
      modifies this
      ensures Valid()
      ensures started <==> !IsBlank(text)
      ensures !started ==> (output == old(output) && history == old(history)
        && stored == old(stored) && processing == old(processing))
      ensures started ==> (processing && output == old(output) + [Echo(text, now)]
        && history == old(history) + [text] && stored == Some(Last50(history)))
    {
      if IsBlank(text) {
        return false;
      }
      processing := true;
      EchoNotSentinel(text, now);
      NoSentinelAppend(output, Echo(text, now));
      output := output + [Echo(text, now)];
      history := history + [text];
      stored := Some(Last50(history));
      Last50Newest(history);
      return true;
    }

    /** `handleCommand` after the `await`: the result or the error record is
        appended, processing ends, and the render that follows wipes the
        transcript if that record is the sentinel. */
    method Settle(outcome: Outcome, now: nat)
      requires Valid()
      modifies this
      ensures Valid() && !processing
      ensures output == Render(old(output) + [ResultLine(outcome, now)])
      ensures history == old(history) && stored == old(stored)
    {
      var record := ResultLine(outcome, now);
      RenderAppend(output, record);
      if record.content == ClearSentinel {
        output := [];
      } else {
        output := output + [record];
      }
      processing := false;
    }

    /** A whole command, from the echo to the processor's result; `process`
        stands for `commandProcessor.processCommand` (`CommandTranscript`
        says what the transcript becomes with `ProcessCommand`). A thrown
        error cannot happen: the asynchronous branches catch their own
        errors and the other branches never throw. */
    method HandleCommand(text: string, process: string -> CommandResult, sent: nat, done: nat)
      requires Valid() && !processing
      modifies this
      ensures Valid() && !processing
      ensures IsBlank(text) ==>
        (output == old(output) && history == old(history) && stored == old(stored))
      ensures !IsBlank(text) ==>
        (output == Render(old(output) + [Echo(text, sent), ResultLine(Returned(process(text)), done)])
        && history == old(history) + [text] && stored == Some(Last50(history)))
    {
      var started := Begin(text, sent);
      if started {
        var result := process(text);
        ghost var echoed := output;
        Settle(Returned(result), done);
        assert echoed + [ResultLine(Returned(result), done)]
          == old(output) + [Echo(text, sent), ResultLine(Returned(result), done)];
      }
    }

    /** `handleClear`: empties the transcript and nothing else. */
    method Clear()
      requires Valid()
      modifies this
      ensures Valid() && output == []
      ensures history == old(history) && stored == old(stored) && processing == old(processing)
    {
      output := [];
    }

    /** Typing into the input line, which is disabled while processing. */
    method Type(text: string)
      requires Valid()
      modifies line
      ensures Valid()
      ensures old(processing) ==> line.State() == old(line.State())
      ensures !old(processing) ==> line.State() == Prompt.Draft(text, old(line.historyIndex))
    {
      if !processing {
        line.Change(text);
      }
    }

    /** A key on the input line: ignored while processing; otherwise the
        line steps, and a submitted text starts a command. */
    method Press(key: Prompt.Key, now: nat) returns (submitted: Option<string>)
      requires Valid()
      modifies this, line
      ensures Valid()
      ensures old(processing) ==> (submitted == None && line.State() == old(line.State())
        && output == old(output) && history == old(history) && stored == old(stored) && processing)
      ensures !old(processing) ==>
        (line.State(), submitted) == Prompt.KeyStep(old(line.State()), key, old(history))
      ensures !old(processing) && submitted.None? ==>
        (output == old(output) && history == old(history) && stored == old(stored) && !processing)
      ensures !old(processing) && submitted.Some? ==>
        (processing && output == old(output) + [Echo(submitted.value, now)]
        && history == old(history) + [submitted.value] && stored == Some(Last50(history)))
    {
      if processing {
        return None;
      }
      ghost var before := line.State();
      submitted := line.KeyDown(key, history);
      ghost var after := line.State();
      if submitted.Some? {
        Prompt.EnterKey(before, key, history);
        TrimEmptyIffBlank(submitted.value);
        var started := Begin(submitted.value, now);
        assert started;
      }
      assert line.State() == after;
    }
  }
}
