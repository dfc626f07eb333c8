/**
 * Meeting codes and meeting links: the check `parse_meeting_code` makes
 * (utils.py) and the identical check at the top of the stand-alone script
 * (meet_joiner.py), and the link both build from an accepted code.
 */
module MeetingCode {
  import opened Wrappers
  import opened Text

  const MeetPrefix := "https://meet.google.com/"

  /** `code.split('-')` gives exactly three parts, of lengths 3, 4 and 3.
      The characters inside the parts are not looked at. */
  predicate ValidCode(code: string) {
    var parts := Split(code, '-');
    |parts| == 3 && |parts[0]| == 3 && |parts[1]| == 4 && |parts[2]| == 3
  }

  /** The split-and-count rule is the same as a positional one: twelve
      characters, a hyphen at indices 3 and 8 and nowhere else. */
  lemma ValidCodeShape(code: string)
    ensures ValidCode(code) <==>
      && |code| == 12 && code[3] == '-' && code[8] == '-'
      && forall i :: 0 <= i < 12 && i != 3 && i != 8 ==> code[i] != '-'
  {
    var parts := Split(code, '-');
    if ValidCode(code) {
      var a, b, c := parts[0], parts[1], parts[2];
      assert parts[1..][1..] == [c];
      assert Join(parts[1..], '-') == b + ['-'] + Join([c], '-');
      assert code == a + ['-'] + (b + ['-'] + c);
      forall i | 0 <= i < 12 && i != 3 && i != 8 ensures code[i] != '-' {
        if i < 3 {
          assert code[i] == a[i];
        } else if i < 8 {
          assert code[i] == b[i - 4];
        } else {
          assert code[i] == c[i - 9];
        }
      }
    }
    if |code| == 12 && code[3] == '-' && code[8] == '-'
       && forall i :: 0 <= i < 12 && i != 3 && i != 8 ==> code[i] != '-'
    {
      var a, b, c := code[..3], code[4..8], code[9..];
      assert '-' !in a by {
        forall i | 0 <= i < 3 ensures a[i] != '-' { assert a[i] == code[i]; }
      }
      assert '-' !in b by {
        forall i | 0 <= i < 4 ensures b[i] != '-' { assert b[i] == code[4 + i]; }
      }
      assert '-' !in c by {
        forall i | 0 <= i < 3 ensures c[i] != '-' { assert c[i] == code[9 + i]; }
      }
      assert code == a + ['-'] + (b + ['-'] + c);
      SplitAfter(a, b + ['-'] + c, '-');
      SplitAfter(b, c, '-');
      SplitNoSep(c, '-');
    }
  }

  /** `f"https://meet.google.com/{code}"`: the code can be read back from
      the link, so distinct codes give distinct links. */
  function MeetUrl(code: string): (url: string)
    ensures |url| == |MeetPrefix| + |code|
    ensures url[..|MeetPrefix|] == MeetPrefix && url[|MeetPrefix|..] == code
  {
    MeetPrefix + code
  }

  /** How `parse_meeting_code` ends. */
  datatype CodeOutcome =
    | Accepted(code: string)      // the code is returned
    | Exited(status: int)         // `sys.exit(status)` after a message
    | InputClosed                 // `input()` raised EOFError, which nothing catches

  /**
   * `parse_meeting_code`: the positional argument if one was given and is
   * non-empty, otherwise the stripped answer to a prompt (`None` when
   * standard input is closed).  The argument is not stripped.
   */
  function ParseMeetingCode(argument: Option<string>, typed: Option<string>): (r: CodeOutcome)
    ensures argument.Some? && argument.value != [] ==>
      r == (if ValidCode(argument.value) then Accepted(argument.value) else Exited(1))
    ensures (argument.None? || argument.value == []) && typed.None? ==> r == InputClosed
    ensures r.Accepted? ==> ValidCode(r.code)
    ensures r.Exited? ==> r.status == 1
    ensures (argument.None? || argument.value == []) && typed.Some? ==>
      r == (if ValidCode(Strip(typed.value)) then Accepted(Strip(typed.value)) else Exited(1))
  {
    if argument.Some? && argument.value != [] then
      if ValidCode(argument.value) then Accepted(argument.value) else Exited(1)
    else if typed.None? then
      InputClosed
    else
      var code := Strip(typed.value);
      if ValidCode(code) then Accepted(code) else Exited(1)
  }

  /** How the stand-alone script's argument check ends. */
  datatype ScriptStart =
    | Launch(meetLink: string)    // goes on to create the browser
    | Exit(status: int)           // prints a message and exits before any browser exists

  /** The `__main__` check of meet_joiner.py on `sys.argv`. */
  function ScriptArguments(argv: seq<string>): (r: ScriptStart)
    ensures r.Launch? <==> |argv| > 1 && ValidCode(argv[1])
    ensures r.Launch? ==> r.meetLink == MeetUrl(argv[1])
    ensures r.Exit? ==> r.status == 1
  {
    if |argv| > 1 then
      if ValidCode(argv[1]) then Launch(MeetUrl(argv[1])) else Exit(1)
    else
      Exit(1)
  }

  /** The script and `parse_meeting_code` accept exactly the same codes
      given on the command line (an empty argument aside, which the latter
      replaces by a prompt), and build the same link from them. */
  lemma ScriptAgreesWithParser(argv: seq<string>, typed: Option<string>)
    requires |argv| > 1 && argv[1] != []
    ensures ScriptArguments(argv).Launch? <==> ParseMeetingCode(Some(argv[1]), typed).Accepted?
    ensures ScriptArguments(argv).Launch? ==>
      ScriptArguments(argv).meetLink == MeetUrl(ParseMeetingCode(Some(argv[1]), typed).code)
  {
  }
}
