/** One transcript line as src/components/OutputLine.tsx shows it: its colour,
    the clear sentinel that makes it wipe the transcript instead of showing,
    and the typing effect that reveals an AI line one character per tick. The
    20 ms interval becomes a tick step. */
module OutputView {
  import opened Records

  /** `getLineColor()`: the Tailwind class of the line's text. */
  function LineColor(kind: LineKind): (r: string)
    ensures kind == Command <==> r == "text-cyan-300"
    ensures kind == Error <==> r == "text-red-400"
    ensures kind == Ai <==> r == "text-yellow-300"
    ensures kind == Output <==> r == "text-green-400"
  {
    match kind
    case Command => "text-cyan-300"
    case Error => "text-red-400"
    case Ai => "text-yellow-300"
    case _ => "text-green-400"
  }

  /** Different kinds are drawn in different colours. */
  lemma ColorsDistinct(a: LineKind, b: LineKind)
    ensures LineColor(a) == LineColor(b) <==> a == b
  {
  }

  /** The content `handleSpecialCommand` reacts to. */
  const ClearRequest := "CLEAR_COMMAND"

  /** `handleSpecialCommand(content)`: the line asks for the transcript to be
      cleared exactly when its content is the sentinel and a clear callback
      was handed in. */
  function ClearsTranscript(content: string, hasOnClear: bool): (r: bool)
    ensures r ==> content == ClearRequest
    ensures !hasOnClear ==> !r
  {
    content == ClearRequest && hasOnClear
  }

  /** The state of the typing effect of one line: the effect's counter `i`,
      the `displayText` and `showCursor` states, and whether the interval
      timer is still running. */
  datatype Typing = Typing(i: nat, displayText: string, showCursor: bool, running: bool)

  /** The state right after the effect runs for a line: an AI line starts
      typing from nothing with the cursor on; any other line shows its whole
      content at once, without a cursor and without a timer. */
  function Start(line: Line): (t: Typing)
    ensures line.kind == Ai ==> t == Typing(0, "", true, true)
    ensures line.kind != Ai ==> t == Typing(0, line.content, false, false)
  {
    if line.kind == Ai then Typing(0, "", true, true)
    else Typing(0, line.content, false, false)
  }

  /** One interval tick: reveal one more character while some are left,
      otherwise hide the cursor and clear the interval. A cleared interval
      does not tick again. */
  function TickStep(text: string, t: Typing): Typing {
    if !t.running then t
    else if t.i < |text| then Typing(t.i + 1, text[..t.i + 1], t.showCursor, true)
    else Typing(t.i, t.displayText, false, false)
  }

  /** The state after `k` ticks. */
  function AfterTicks(text: string, t: Typing, k: nat): Typing
    decreases k
  {
    if k == 0 then t else TickStep(text, AfterTicks(text, t, k - 1))
  }

  /** Typing an AI line of n characters: after k ticks with k at most n the
      first k characters are shown with the cursor; from tick n + 1 on the
      whole text is shown, the cursor is hidden and the timer is stopped. */
  lemma {:induction false} TypingAfter(text: string, k: nat)
    ensures k <= |text| ==> AfterTicks(text, Typing(0, "", true, true), k) == Typing(k, text[..k], true, true)
    ensures k > |text| ==> AfterTicks(text, Typing(0, "", true, true), k) == Typing(|text|, text, false, false)
    decreases k
  {
    if k > 0 {
      TypingAfter(text, k - 1);
      if k - 1 == |text| {
        if |text| == 0 {
          assert text[..0] == "";
        } else {
          assert text[..|text|] == text;
        }
      }
    }
  }

  /** What is shown is always a prefix of the content and grows by exactly
      one character per tick until the whole content is shown. */
  lemma TypingGrows(text: string, k: nat)
    ensures var t := AfterTicks(text, Typing(0, "", true, true), k);
      |t.displayText| <= |text| && t.displayText == text[..|t.displayText|]
    ensures k < |text| ==>
      |AfterTicks(text, Typing(0, "", true, true), k + 1).displayText|
      == |AfterTicks(text, Typing(0, "", true, true), k).displayText| + 1
  {
    TypingAfter(text, k);
    TypingAfter(text, k + 1);
  }

  /** A line that is not an AI line is never typed: whatever the number of
      ticks, it shows its whole content and no cursor. */
  lemma {:induction false} StaticLine(line: Line, k: nat)
    requires line.kind != Ai
    ensures AfterTicks(line.content, Start(line), k) == Typing(0, line.content, false, false)
    decreases k
  {
    if k > 0 {
      StaticLine(line, k - 1);
    }
  }

  /** What the line renders: nothing for a sentinel line with a clear
      callback, otherwise the typed text for an AI line and the content for
      any other. */
  function Shown(line: Line, hasOnClear: bool, t: Typing): (r: string)
    ensures ClearsTranscript(line.content, hasOnClear) ==> r == ""
    ensures !ClearsTranscript(line.content, hasOnClear) && line.kind != Ai ==> r == line.content
  {
    if ClearsTranscript(line.content, hasOnClear) then ""
    else if line.kind == Ai then t.displayText
    else line.content
  }

  /** The mounted `OutputLine` component of one transcript line. */
  class LineView {
    const line: Line
    const hasOnClear: bool
    var i: nat
    var displayText: string
    var showCursor: bool
    var running: bool

    function State(): Typing
      reads this
    {
      Typing(i, displayText, showCursor, running)
    }

    /** Mounting the component runs the effect once. */
    constructor (line: Line, hasOnClear: bool)
      ensures this.line == line && this.hasOnClear == hasOnClear
      ensures State() == Start(line)
    {
      this.line := line;
      this.hasOnClear := hasOnClear;
      if line.kind == Ai {
        i, displayText, showCursor, running := 0, "", true, true;
      } else {
        i, displayText, showCursor, running := 0, line.content, false, false;
      }
    }

    /** The interval callback. */
    method Tick()
      modifies this
      ensures State() == TickStep(line.content, old(State()))
    {
      if running {
        if i < |line.content| {
          displayText := line.content[..i + 1];
          i := i + 1;
        } else {
          showCursor := false;
          running := false;
        }
      }
    }

    /** Lets `k` ticks of the interval pass. */
    method Play(k: nat)
      modifies this
      ensures State() == AfterTicks(line.content, old(State()), k)
    {
      var n := 0;
      while n < k
        invariant n <= k
        invariant State() == AfterTicks(line.content, old(State()), n)
      {
        Tick();
        n := n + 1;
      }
    }

    function Rendered(): string
      reads this
    {
      Shown(line, hasOnClear, State())
    }
  }
}
