/** The input line of src/components/CommandLine.tsx: a draft and a position
    in the command history (-1 for none), changed by four keys. Enter submits
    the trimmed draft, the arrow keys walk through the history and Tab
    completes a unique command name. */
module Prompt {
  import opened Wrappers
  import opened Strings

  /** The keys `handleKeyDown` tells apart. */
  datatype Key = Enter | ArrowUp | ArrowDown | Tab | Other

  /** The component's `input` and `historyIndex` states. */
  datatype Draft = Draft(input: string, index: int)

  /** The history position is none or a valid index. */
  predicate Fits(index: int, history: seq<string>) {
    index == -1 || 0 <= index < |history|
  }

  /** The names Tab completes. */
  const TabNames: seq<string> := ["help", "about", "skills", "projects", "experience",
    "resume", "socials", "ask", "joke", "inspire", "clear"]

  /** `names.filter(n => n.startsWith(prefix))` */
  function Filter(names: seq<string>, prefix: string): (r: seq<string>)
    ensures forall n :: n in r <==> n in names && StartsWith(n, prefix)
    ensures |r| <= |names|
  {
    if names == [] then []
    else (if StartsWith(names[0], prefix) then [names[0]] else []) + Filter(names[1..], prefix)
  }

  /** The completion candidates for a draft. */
  function Matching(draft: string): (r: seq<string>)
    ensures forall n :: n in r <==> n in TabNames && StartsWith(n, Lower(draft))
  {
    Filter(TabNames, Lower(draft))
  }

  /** Moving up: the newest entry from no position, otherwise one older,
      stopping at the oldest. */
  function UpIndex(index: int, history: seq<string>): (k: int)
    requires |history| > 0 && Fits(index, history)
    ensures 0 <= k < |history|
  {
    if index == -1 then |history| - 1 else if index - 1 > 0 then index - 1 else 0
  }

  /** `handleKeyDown(key)`: the next draft and the text handed to `onCommand`, if any. */
  function KeyStep(d: Draft, key: Key, history: seq<string>): (r: (Draft, Option<string>))
    requires Fits(d.index, history)
  {
    match key
    case Enter =>
      if !IsBlank(d.input) then (Draft("", -1), Some(Trim(d.input))) else (d, None)
    case ArrowUp =>
      if |history| > 0 then
        var k := UpIndex(d.index, history);
        (Draft(history[k], k), None)
      else (d, None)
    case ArrowDown =>
      if d.index != -1 then
        if d.index + 1 >= |history| then (Draft("", -1), None)
        else (Draft(history[d.index + 1], d.index + 1), None)
      else (d, None)
    case Tab =>
      var m := Matching(d.input);
      if |m| == 1 then (Draft(m[0] + " ", d.index), None) else (d, None)
    case Other => (d, None)
  }

  /** After any key the position still fits the history, so every
      `commandHistory[newIndex]` read is in bounds; a longer history is fitted
      as well. */
  lemma StepFits(d: Draft, key: Key, history: seq<string>, more: seq<string>)
    requires Fits(d.index, history)
    ensures Fits(KeyStep(d, key, history).0.index, history)
    ensures Fits(KeyStep(d, key, history).0.index, history + more)
  {
  }

  /** Only Enter submits. Non-blank, it submits the trimmed draft, which is
      not blank, and empties the draft and the position; blank, it changes
      nothing. */
  lemma EnterKey(d: Draft, key: Key, history: seq<string>)
    requires Fits(d.index, history)
    ensures KeyStep(d, key, history).1.Some? <==> key == Enter && !IsBlank(d.input)
    ensures key == Enter && !IsBlank(d.input) ==>
      KeyStep(d, key, history) == (Draft("", -1), Some(Trim(d.input)))
      && Trim(d.input) != "" && Trim(Trim(d.input)) == Trim(d.input)
    ensures key == Enter && IsBlank(d.input) ==> KeyStep(d, key, history) == (d, None)
  {
    if key == Enter && !IsBlank(d.input) {
      TrimEmptyIffBlank(d.input);
      TrimIdempotent(d.input);
    }
  }

  /** ArrowUp does nothing on an empty history; otherwise from no position it
      recalls the newest entry and from position i it recalls entry
      max(0, i - 1). */
  lemma UpKey(d: Draft, history: seq<string>)
    requires Fits(d.index, history)
    ensures |history| == 0 ==> KeyStep(d, ArrowUp, history) == (d, None)
    ensures |history| > 0 && d.index == -1 ==>
      KeyStep(d, ArrowUp, history).0 == Draft(history[|history| - 1], |history| - 1)
    ensures |history| > 0 && d.index >= 0 ==>
      var k := if d.index - 1 > 0 then d.index - 1 else 0;
      KeyStep(d, ArrowUp, history).0 == Draft(history[k], k)
  {
  }

  /** ArrowDown does nothing from no position; otherwise it moves one newer,
      and stepping past the newest entry goes back to an empty draft with no
      position. */
  lemma DownKey(d: Draft, history: seq<string>)
    requires Fits(d.index, history)
    ensures d.index == -1 ==> KeyStep(d, ArrowDown, history) == (d, None)
    ensures d.index >= 0 && d.index + 1 < |history| ==>
      KeyStep(d, ArrowDown, history).0 == Draft(history[d.index + 1], d.index + 1)
    ensures d.index >= 0 && d.index + 1 >= |history| ==>
      KeyStep(d, ArrowDown, history).0 == Draft("", -1)
  {
  }

  /** The draft after a run of keys. */
  function Keys(d: Draft, keys: seq<Key>, history: seq<string>): (r: Draft)
    requires Fits(d.index, history)
    ensures Fits(r.index, history)
    decreases |keys|
  {
    if keys == [] then d
    else
      StepFits(d, keys[0], history, []);
      Keys(KeyStep(d, keys[0], history).0, keys[1..], history)
  }

  /** With history [a, b, c] and no position, ArrowUp four times recalls c,
      b, a and a again; ArrowDown then recalls b. */
  lemma RecallWalk(a: string, b: string, c: string, draft: string)
    ensures var h := [a, b, c];
      var d0 := Draft(draft, -1);
      Keys(d0, [ArrowUp], h).input == c
      && Keys(d0, [ArrowUp, ArrowUp], h).input == b
      && Keys(d0, [ArrowUp, ArrowUp, ArrowUp], h).input == a
      && Keys(d0, [ArrowUp, ArrowUp, ArrowUp, ArrowUp], h) == Draft(a, 0)
      && Keys(d0, [ArrowUp, ArrowUp, ArrowUp, ArrowUp, ArrowDown], h) == Draft(b, 1)
  {
    var h := [a, b, c];
    var d0 := Draft(draft, -1);
    var d1 := Draft(c, 2);
    var d2 := Draft(b, 1);
    var d3 := Draft(a, 0);
    assert KeyStep(d0, ArrowUp, h).0 == d1;
    assert KeyStep(d1, ArrowUp, h).0 == d2;
    assert KeyStep(d2, ArrowUp, h).0 == d3;
    assert KeyStep(d3, ArrowUp, h).0 == d3;
    assert KeyStep(d3, ArrowDown, h).0 == d2;
    assert [ArrowUp, ArrowUp][1..] == [ArrowUp];
    assert [ArrowUp, ArrowUp, ArrowUp][1..] == [ArrowUp, ArrowUp];
    assert [ArrowUp, ArrowUp, ArrowUp, ArrowUp][1..] == [ArrowUp, ArrowUp, ArrowUp];
    assert [ArrowUp, ArrowUp, ArrowUp, ArrowUp, ArrowDown][1..] == [ArrowUp, ArrowUp, ArrowUp, ArrowDown];
    assert [ArrowUp, ArrowUp, ArrowUp, ArrowDown][1..] == [ArrowUp, ArrowUp, ArrowDown];
    assert [ArrowUp, ArrowUp, ArrowDown][1..] == [ArrowUp, ArrowDown];
    assert [ArrowUp, ArrowDown][1..] == [ArrowDown];
  }

  /** A filter with one result holds the one name that starts with the prefix. */
  lemma UniqueMatch(names: seq<string>, prefix: string)
    requires |Filter(names, prefix)| == 1
    ensures var n := Filter(names, prefix)[0];
      n in names && StartsWith(n, prefix)
      && forall m :: m in names && StartsWith(m, prefix) ==> m == n
  {
    var r := Filter(names, prefix);
    assert r[0] in r;
    forall m | m in names && StartsWith(m, prefix)
      ensures m == r[0]
    {
      assert m in r;
    }
  }

  /** Tab completes to a name and a space exactly when one listed name starts
      with the lower-cased draft, and that name is the one; otherwise it
      changes nothing. The position is kept either way. */
  lemma TabKey(d: Draft, history: seq<string>)
    requires Fits(d.index, history)
    ensures var r := KeyStep(d, Tab, history).0;
      (|Matching(d.input)| == 1 ==>
        exists n :: (n in TabNames && StartsWith(n, Lower(d.input)) && r == Draft(n + " ", d.index)
          && forall m :: m in TabNames && StartsWith(m, Lower(d.input)) ==> m == n))
      && (|Matching(d.input)| != 1 ==> r == d)
  {
    if |Matching(d.input)| == 1 {
      UniqueMatch(TabNames, Lower(d.input));
    }
  }

  /** Tab completes only to listed names, never to `cls`, `sudo`, `ls`,
      `pwd`, `whoami`, `date` or `uname`. */
  lemma TabOnlyListed(d: Draft, history: seq<string>)
    requires Fits(d.index, history)
    ensures var r := KeyStep(d, Tab, history).0;
      r != d ==> exists n :: n in TabNames && r.input == n + " "
    ensures forall n :: n in ["cls", "sudo", "ls", "pwd", "whoami", "date", "uname"] ==> n !in TabNames
  {
    var m := Matching(d.input);
    if |m| == 1 {
      assert m[0] in m;
    }
  }

  /** Two different listed names that both start with the prefix leave Tab
      without a unique completion. */
  lemma NotUnique(names: seq<string>, prefix: string, x: string, y: string)
    requires x != y && x in names && y in names
    requires StartsWith(x, prefix) && StartsWith(y, prefix)
    ensures x in Filter(names, prefix) && y in Filter(names, prefix)
    ensures |Filter(names, prefix)| != 1
  {
  }

  /** "s" matches both `skills` and `socials`, so Tab keeps it. */
  lemma TabAmbiguous(index: int, history: seq<string>)
    requires Fits(index, history)
    ensures "skills" in Matching("s") && "socials" in Matching("s")
    ensures KeyStep(Draft("s", index), Tab, history).0 == Draft("s", index)
  {
    assert Lower("s")[0] == LowerChar('s');
    assert Lower("s") == "s";
    NotUnique(TabNames, "s", "skills", "socials");
  }

  /** A filter keeps nothing when no name starts with the prefix. */
  lemma {:induction false} FilterNone(names: seq<string>, prefix: string)
    requires forall i :: 0 <= i < |names| ==> !StartsWith(names[i], prefix)
    ensures Filter(names, prefix) == []
  {
    if names != [] {
      FilterNone(names[1..], prefix);
    }
  }

  /** A filter keeps exactly the one name that starts with the prefix. */
  lemma {:induction false} FilterSingle(names: seq<string>, prefix: string, k: nat)
    requires k < |names| && StartsWith(names[k], prefix)
    requires forall i :: 0 <= i < |names| && i != k ==> !StartsWith(names[i], prefix)
    ensures Filter(names, prefix) == [names[k]]
  {
    if k == 0 {
      FilterNone(names[1..], prefix);
    } else {
      FilterSingle(names[1..], prefix, k - 1);
    }
  }

  /** "pro" matches `projects` alone, so Tab completes it to "projects ". */
  lemma TabCompletes(draft: string, index: int, history: seq<string>)
    requires Fits(index, history)
    requires draft == "pro"
    ensures Matching(draft) == ["projects"]
    ensures KeyStep(Draft(draft, index), Tab, history).0 == Draft("projects ", index)
  {
    assert Lower(draft) == draft;
    forall i | 0 <= i < |TabNames| && i != 3
      ensures !StartsWith(TabNames[i], draft)
    {
      assert TabNames[i][0] != 'p';
    }
    FilterSingle(TabNames, draft, 3);
  }

  /** The empty draft matches every listed name, so Tab keeps it. */
  lemma TabEmpty(draft: string, index: int, history: seq<string>)
    requires Fits(index, history)
    requires |draft| == 0
    ensures forall n :: n in TabNames ==> n in Matching(draft)
    ensures KeyStep(Draft(draft, index), Tab, history).0 == Draft(draft, index)
  {
    assert Lower(draft) == draft;
    NotUnique(TabNames, draft, "help", "about");
  }

  /** A prefix with a space at position k matches no name without one there. */
  lemma NoneMatch(names: seq<string>, prefix: string, k: nat)
    requires k < |prefix| && prefix[k] == ' '
    requires forall n :: n in names ==> ' ' !in n
    ensures Filter(names, prefix) == []
  {
  }

  /** A draft holding a space matches no name (no name has a space), so a
      completed draft such as "projects " stays as it is. */
  lemma TabAfterCompletion(draft: string, index: int, history: seq<string>)
    requires Fits(index, history)
    requires ' ' in draft
    ensures Matching(draft) == []
    ensures KeyStep(Draft(draft, index), Tab, history).0 == Draft(draft, index)
  {
    LowerKeepsSpace(draft);
    var k :| 0 <= k < |draft| && Lower(draft)[k] == ' ';
    NoneMatch(TabNames, Lower(draft), k);
  }

  /** The mounted input line. */
  class InputLine {
    var input: string
    var historyIndex: int

    function State(): Draft
      reads this
    {
      Draft(input, historyIndex)
    }

    /** The initial states: no draft, no position. */
    constructor ()
      ensures State() == Draft("", -1)
    {
      input, historyIndex := "", -1;
    }

    /** `onChange`: typing replaces the draft and keeps the position. */
    method Change(text: string)
      modifies this
      ensures State() == Draft(text, old(historyIndex))
    {
      input := text;
    }

    /** `handleKeyDown`: the submitted text, if any, and the new states. */
    method KeyDown(key: Key, history: seq<string>) returns (submitted: Option<string>)
      requires Fits(historyIndex, history)
      modifies this
      ensures (State(), submitted) == KeyStep(old(State()), key, history)
      ensures Fits(historyIndex, history)
    {
      submitted := None;
      match key
      case Enter =>
        if !IsBlank(input) {
          submitted := Some(Trim(input));
          input := "";
          historyIndex := -1;
        }
      case ArrowUp =>
        if |history| > 0 {
          var newIndex := if historyIndex == -1 then |history| - 1
            else if historyIndex - 1 > 0 then historyIndex - 1 else 0;
          historyIndex := newIndex;
          input := history[newIndex];
        }
      case ArrowDown =>
        if historyIndex != -1 {
          var newIndex := historyIndex + 1;
          if newIndex >= |history| {
            historyIndex := -1;
            input := "";
          } else {
            historyIndex := newIndex;
            input := history[newIndex];
          }
        }
      case Tab =>
        var matches := Filter(TabNames, Lower(input));
        if |matches| == 1 {
          input := matches[0] + " ";
        }
      case Other =>
    }
  }
}
