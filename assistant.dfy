/**
 * The interactive control loop of `run_assistant` (utils.py) and the line
 * normalisation of `get_user_input`.
 *
 * Standard input is a finite sequence of keys, each a typed line or a
 * Ctrl+C while `input()` waits, followed either by end of input
 * (`inputClosed`) or by nothing yet typed, where `input()` blocks.  The
 * joiner is reduced to two facts: whether `join_meeting()` raised, and how
 * often `leave_meeting()` is called (it is taken not to raise).
 */
module Assistant {
  import opened Wrappers
  import opened Text

  /** `get_user_input`: the line stripped and lower-cased; `None` at end of
      input, where `input()` raises EOFError and the function swallows it. */
  function GetUserInput(line: Option<string>): (r: Option<string>)
    ensures r.Some? <==> line.Some?
    ensures r.Some? ==> |r.value| <= |line.value|
  {
    if line.Some? then Some(Lower(Strip(line.value))) else None
  }

  /** Normalising an already normalised line changes nothing. */
  lemma GetUserInputIdempotent(line: string)
    ensures GetUserInput(GetUserInput(Some(line))) == GetUserInput(Some(line))
  {
    var s := Strip(line);
    StripLowerCommute(s);
    StripIsStripped(line);
    LowerIdempotent(s);
  }

  datatype AppResult = Restart | Quit

  /** What one pass of the `while True` body does with `user_input`. */
  datatype Reaction =
    | Leave(result: AppResult)    // call `leave_meeting()`, then return
    | KeepRunning(help: bool)     // loop again; `help`: the help text is printed

  /** The `if` chain on `user_input`: 'r' restarts, 'q' and 'quit' quit,
      and any other non-empty line prints the help text. */
  function React(userInput: Option<string>): (r: Reaction)
    ensures r == Leave(Restart) <==> userInput == Some("r")
    ensures r == Leave(Quit) <==> userInput in {Some("q"), Some("quit")}
    ensures r == KeepRunning(true) <==> userInput.Some? && userInput.value !in {"", "r", "q", "quit"}
    ensures r == KeepRunning(false) <==> userInput in {None, Some("")}
  {
    if userInput == Some("r") then Leave(Restart)
    else if userInput == Some("q") || userInput == Some("quit") then Leave(Quit)
    else KeepRunning(userInput.Some? && userInput.value != [])
  }

  /** One event on standard input. */
  datatype Key = Line(text: string) | Interrupt

  /** How far `run_assistant` gets. */
  datatype Progress =
    | Returned(result: AppResult)   // returned 'restart' or 'quit'
    | WaitingForInput               // blocked in `input()`
    | SpinningAtEof                 // looping forever: every read gives None

  datatype Report = Report(progress: Progress, leaveCalls: nat, helpShown: nat)

  function AddHelp(r: Report, n: nat): Report {
    r.(helpShown := r.helpShown + n)
  }

  /** What one pass of the loop does with one key: Ctrl+C (a
      KeyboardInterrupt) quits, a line is normalised and handed to `React`. */
  function Step(k: Key): Reaction {
    match k
    case Interrupt => Leave(Quit)
    case Line(text) => React(GetUserInput(Some(text)))
  }

  /**
   * The loop after a successful join, over the keys still to come.
   * `leave_meeting()` is called exactly once when the loop returns and not
   * at all otherwise; help is printed at most once per key.
   */
  function Session(keys: seq<Key>, inputClosed: bool): (r: Report)
    ensures r.leaveCalls == (if r.progress.Returned? then 1 else 0)
    ensures r.helpShown <= |keys|
  {
    if keys == [] then
      // at end of input every further read gives None, which React ignores
      Report(if inputClosed then SpinningAtEof else WaitingForInput, 0, 0)
    else
      match Step(keys[0])
      case Leave(result) => Report(Returned(result), 1, 0)
      case KeepRunning(help) => AddHelp(Session(keys[1..], inputClosed), if help then 1 else 0)
  }

  /** `run_assistant` as a whole: a join that raises (an error or Ctrl+C)
      is answered by `leave_meeting()` and 'quit'. */
  function Run(joinRaised: bool, keys: seq<Key>, inputClosed: bool): Report {
    if joinRaised then Report(Returned(Quit), 1, 0) else Session(keys, inputClosed)
  }

  /** The `while True` loop of `run_assistant`. */
  method RunAssistant(joinRaised: bool, keys: seq<Key>, inputClosed: bool) returns (report: Report)
    ensures report == Run(joinRaised, keys, inputClosed)
  {
    var leaveCalls := 0;
    if joinRaised {
      leaveCalls := leaveCalls + 1;
      return Report(Returned(Quit), leaveCalls, 0);
    }
    var helpShown := 0;
    var i := 0;
    while i < |keys|
      invariant 0 <= i <= |keys| && leaveCalls == 0
      invariant Session(keys, inputClosed) == AddHelp(Session(keys[i..], inputClosed), helpShown)
    {
      match keys[i]
      case Interrupt =>
        // KeyboardInterrupt escapes the inner `except EOFError`
        SessionStep(keys, i, inputClosed);
        assert Session(keys, inputClosed) == Report(Returned(Quit), 1, helpShown);
        leaveCalls := leaveCalls + 1;
        return Report(Returned(Quit), leaveCalls, helpShown);
      case Line(text) =>
        // the `if` chain on `user_input`, as `React` states it
        SessionStep(keys, i, inputClosed);
        match React(GetUserInput(Some(text)))
        case Leave(result) =>
          assert Session(keys, inputClosed) == Report(Returned(result), 1, helpShown);
          leaveCalls := leaveCalls + 1;
          return Report(Returned(result), leaveCalls, helpShown);
        case KeepRunning(help) =>
          if help {
            helpShown := helpShown + 1;
          }
      i := i + 1;
    }
    report := Report(if inputClosed then SpinningAtEof else WaitingForInput, leaveCalls, helpShown);
  }

  /** One unfolding of `Session` at position `i`, spelled out for the loop above. */
  lemma SessionStep(keys: seq<Key>, i: nat, inputClosed: bool)
    requires i < |keys|
    ensures Session(keys[i..], inputClosed) ==
      match Step(keys[i])
      case Leave(result) => Report(Returned(result), 1, 0)
      case KeepRunning(help) => AddHelp(Session(keys[i + 1..], inputClosed), if help then 1 else 0)
  {
    assert keys[i..][0] == keys[i] && keys[i..][1..] == keys[i + 1..];
  }

  /** A line that neither restarts nor quits. */
  predicate Undecisive(k: Key) {
    Step(k).KeepRunning?
  }

  /** Number of keys that make the loop print its help text. */
  function HelpCount(keys: seq<Key>): nat {
    if keys == [] then 0
    else (if keys[0].Line? && GetUserInput(Some(keys[0].text)) != Some([]) then 1 else 0)
         + HelpCount(keys[1..])
  }

  /** Lines that are neither 'r', 'q' nor 'quit' (after normalisation)
      keep the loop running without a `leave_meeting()` call; exactly the
      non-empty ones print the help text. */
  lemma {:induction false} UndecisiveKeepsRunning(keys: seq<Key>, inputClosed: bool)
    requires forall j :: 0 <= j < |keys| ==> Undecisive(keys[j])
    ensures !Session(keys, inputClosed).progress.Returned?
    ensures Session(keys, inputClosed).leaveCalls == 0
    ensures Session(keys, inputClosed).helpShown == HelpCount(keys)
  {
    if keys != [] {
      UndecisiveKeepsRunning(keys[1..], inputClosed);
    }
  }

  /** The first key that is not an ignored line decides: 'r' restarts,
      'q', 'quit' and Ctrl+C quit, and later keys are never read. */
  lemma {:induction false} FirstDecisiveKeyDecides(before: seq<Key>, k: Key, after: seq<Key>, inputClosed: bool)
    requires forall j :: 0 <= j < |before| ==> Undecisive(before[j])
    requires !Undecisive(k)
    ensures Session(before + [k] + after, inputClosed).progress ==
      Returned(if k.Line? && GetUserInput(Some(k.text)) == Some("r") then Restart else Quit)
  {
    var keys := before + [k] + after;
    if before == [] {
      assert keys[0] == k;
    } else {
      assert keys[1..] == before[1..] + [k] + after;
      FirstDecisiveKeyDecides(before[1..], k, after, inputClosed);
    }
  }

  /** As written: with standard input closed, and no decisive key before
      the end, the loop never returns and never leaves the meeting,
      because `get_user_input` turns EOFError into None and the handler at
      utils.py:77-79 is never reached. */
  lemma {:induction false} EofSpinsForever(keys: seq<Key>)
    requires forall j :: 0 <= j < |keys| ==> Undecisive(keys[j])
    ensures React(GetUserInput(None)) == KeepRunning(false)
    ensures Session(keys, true).progress == SpinningAtEof
    ensures Session(keys, true).leaveCalls == 0
  {
    if keys != [] {
      EofSpinsForever(keys[1..]);
    }
  }

  /** What the EOFError handler intends: end of input leaves the meeting
      and quits. */
  function IntendedSession(keys: seq<Key>): Report {
    var r := Session(keys, true);
    if r.progress == SpinningAtEof then Report(Returned(Quit), 1, r.helpShown) else r
  }

  lemma {:induction false} ClosedInputNeverWaits(keys: seq<Key>)
    ensures Session(keys, true).progress != WaitingForInput
  {
    if keys != [] {
      ClosedInputNeverWaits(keys[1..]);
    }
  }

  /** Corrected: once standard input is closed the loop always returns,
      with exactly one `leave_meeting()` call. */
  lemma IntendedSessionAlwaysReturns(keys: seq<Key>)
    ensures IntendedSession(keys).progress.Returned?
    ensures IntendedSession(keys).leaveCalls == 1
    ensures Session(keys, true).progress.Returned? ==> IntendedSession(keys) == Session(keys, true)
  {
    ClosedInputNeverWaits(keys);
  }
}
