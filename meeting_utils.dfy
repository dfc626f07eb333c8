/**
 * Helpers of src/meeting/utils.py: the speaker-menu scan, the launch of
 * the voice agent, and the teardown at the end of a meeting.
 */
module MeetingUtils {
  import opened Wrappers
  import opened Text
  import opened Host

  /** The text both the speaker label and a menu entry are searched for
      (case-sensitive, unlike the device search of the audio layer). */
  const BlackHoleTag := "BlackHole"

  /** The first menu entry from `i` on whose text contains "BlackHole". */
  function FirstBlackholeItem(menu: seq<string>, i: nat): (r: Option<nat>)
    requires i <= |menu|
    ensures r.Some? ==>
      && i <= r.value < |menu| && Contains(menu[r.value], BlackHoleTag)
      && forall j :: i <= j < r.value ==> !Contains(menu[j], BlackHoleTag)
    ensures r.None? ==> forall j :: i <= j < |menu| ==> !Contains(menu[j], BlackHoleTag)
    decreases |menu| - i
  {
    if i == |menu| then None
    else if Contains(menu[i], BlackHoleTag) then Some(i)
    else FirstBlackholeItem(menu, i + 1)
  }

  /**
   * `set_speaker_to_blackhole`, given the current `aria-label` of the
   * speaker button (`None` when it has none, where the `in` test raises)
   * and the texts of the menu entries once the menu is open.  Every
   * failure ends the function without effect beyond the log.
   */
  function SpeakerEvents(page: set<Control>, current: Option<string>, menu: seq<string>): seq<Event> {
    if SpeakerDropdown !in page then [Missed(SpeakerDropdown)]
    else if current.None? || Contains(current.value, BlackHoleTag) then [LabelRead(SpeakerDropdown)]
    else
      [LabelRead(SpeakerDropdown), Clicked(SpeakerDropdown)] +
      match FirstBlackholeItem(menu, 0)
      case Some(k) => [Clicked(SpeakerItem(k)), LabelRead(SpeakerDropdown)]
      case None => [Attempt(page, PageBody)]
  }

  /** `set_speaker_to_blackhole`: never raises. */
  method SetSpeakerToBlackhole(host: Host, page: set<Control>, current: Option<string>, menu: seq<string>)
    modifies host
    ensures host.events == old(host.events) + SpeakerEvents(page, current, menu)
  {
    var found := host.ReadLabel(page, SpeakerDropdown);
    if !found || current.None? || Contains(current.value, BlackHoleTag) {
      return;
    }
    var menuOpen := host.FindAndClick(page, SpeakerDropdown);
    ghost var opening := host.events;
    var blackholeFound := false;
    var idx := 0;
    while idx < |menu|
      invariant 0 <= idx <= |menu| && !blackholeFound
      invariant forall j :: 0 <= j < idx ==> !Contains(menu[j], BlackHoleTag)
      invariant host.events == opening
    {
      if Contains(menu[idx], BlackHoleTag) {
        host.ScriptClick(SpeakerItem(idx));
        blackholeFound := true;
        break;
      }
      idx := idx + 1;
    }
    if !blackholeFound {
      // close the menu
      var closed := host.FindAndClick(page, PageBody);
      return;
    }
    assert FirstBlackholeItem(menu, 0) == Some(idx);
    // read the label again to report whether the change took
    var verified := host.ReadLabel(page, SpeakerDropdown);
  }

  /** A label that already names BlackHole leaves the menu closed. */
  lemma SpeakerAlreadySet(page: set<Control>, l: string, menu: seq<string>)
    requires SpeakerDropdown in page && Contains(l, BlackHoleTag)
    ensures SpeakerEvents(page, Some(l), menu) == [LabelRead(SpeakerDropdown)]
  {
  }

  /** Only the first matching entry is clicked, and the label is read
      back after it; without a match the menu is closed by a click on the
      page and the label is not read again. */
  lemma SpeakerFirstMatchOnly(page: set<Control>, l: string, menu: seq<string>)
    requires SpeakerDropdown in page && !Contains(l, BlackHoleTag)
    ensures var r := SpeakerEvents(page, Some(l), menu);
      && r[..2] == [LabelRead(SpeakerDropdown), Clicked(SpeakerDropdown)]
      && (forall k :: 0 <= k < |menu| && Clicked(SpeakerItem(k)) in r ==>
            Contains(menu[k], BlackHoleTag) && forall j :: 0 <= j < k ==> !Contains(menu[j], BlackHoleTag))
      && ((forall j :: 0 <= j < |menu| ==> !Contains(menu[j], BlackHoleTag)) ==>
            r == [LabelRead(SpeakerDropdown), Clicked(SpeakerDropdown), Attempt(page, PageBody)])
  {
    var r := SpeakerEvents(page, Some(l), menu);
    var first := FirstBlackholeItem(menu, 0);
    forall k | 0 <= k < |menu| && Clicked(SpeakerItem(k)) in r
      ensures Contains(menu[k], BlackHoleTag) && forall j :: 0 <= j < k ==> !Contains(menu[j], BlackHoleTag)
    {
      assert first.Some? && first.value == k;
    }
  }

  /** Components that `os.path.abspath` leaves alone. */
  predicate IsPlain(p: Path) {
    forall i :: 0 <= i < |p| ==> p[i] != "" && p[i] != "." && p[i] != ".."
  }

  /** The absolute path `acc` extended by the relative components `rest`,
      with "." and empty components dropped and ".." taking one component
      off (none at the root). */
  function NormalizeOnto(acc: Path, rest: Path): Path
    decreases |rest|
  {
    if rest == [] then acc
    else
      var c := rest[0];
      var next :=
        if c == "" || c == "." then acc
        else if c == ".." then (if acc == [] then [] else acc[..|acc| - 1])
        else acc + [c];
      NormalizeOnto(next, rest[1..])
  }

  /** `os.path.abspath` of an absolute path. */
  function Normalize(p: Path): Path {
    NormalizeOnto([], p)
  }

  /** `os.path.dirname` of an absolute path. */
  function Dirname(p: Path): Path {
    if p == [] then [] else p[..|p| - 1]
  }

  /** What `start_voice_agent_process` launches when this module lives at
      `moduleFile`: the interpreter on `<dir>/../ai/voice_agent.py` (joined
      but not normalised) in console mode, with the project root as working
      directory. */
  function AgentLaunch(interpreter: string, moduleFile: Path): Launch {
    var dir := Dirname(Normalize(moduleFile));
    Launch(interpreter, dir + ["..", "ai", "voice_agent.py"], "console", Normalize(dir + ["..", ".."]))
  }

  /** `start_voice_agent_process`: the process started, or `None` where
      starting it raises. */
  method StartVoiceAgentProcess(host: Host, interpreter: string, moduleFile: Path, spawned: Option<Agent>)
    returns (agent: Option<Agent>)
    modifies host
    ensures agent == spawned
    ensures host.events == old(host.events) +
      [if spawned.Some? then Spawned(AgentLaunch(interpreter, moduleFile), spawned.value)
       else SpawnFailed(AgentLaunch(interpreter, moduleFile))]
  {
    var dir := Dirname(Normalize(moduleFile));
    var script := dir + ["..", "ai", "voice_agent.py"];
    var root := Normalize(dir + ["..", ".."]);
    agent := host.Spawn(Launch(interpreter, script, "console", root), spawned);
  }

  lemma {:induction false} NormalizeOntoAppend(acc: Path, a: Path, b: Path)
    ensures NormalizeOnto(acc, a + b) == NormalizeOnto(NormalizeOnto(acc, a), b)
    decreases |a|
  {
    if a != [] {
      assert (a + b)[0] == a[0];
      assert (a + b)[1..] == a[1..] + b;
      var c := a[0];
      var next :=
        if c == "" || c == "." then acc
        else if c == ".." then (if acc == [] then [] else acc[..|acc| - 1])
        else acc + [c];
      NormalizeOntoAppend(next, a[1..], b);
    } else {
      assert a + b == b;
    }
  }

  lemma {:induction false} NormalizeOntoPlain(acc: Path, p: Path)
    requires IsPlain(p)
    ensures NormalizeOnto(acc, p) == acc + p
    decreases |p|
  {
    if p != [] {
      assert IsPlain(p[1..]) by {
        forall i | 0 <= i < |p[1..]| ensures p[1..][i] != "" && p[1..][i] != "." && p[1..][i] != ".." {
          assert p[1..][i] == p[i + 1];
        }
      }
      NormalizeOntoPlain(acc + [p[0]], p[1..]);
      assert acc + [p[0]] + p[1..] == acc + p;
    }
  }

  /** For this module at `<root>/<pkg>/<sub>/<file>`, the agent runs in
      `<root>`, and the script path resolves to `<root>/<pkg>/ai/voice_agent.py`,
      a sibling package of this one. */
  lemma AgentLaunchLayout(interpreter: string, moduleFile: Path)
    requires IsPlain(moduleFile) && |moduleFile| >= 3
    ensures var n := |moduleFile|;
      var launch := AgentLaunch(interpreter, moduleFile);
      && launch.program == interpreter && launch.mode == "console"
      && launch.cwd == moduleFile[..n - 3]
      && Normalize(launch.script) == moduleFile[..n - 3] + [moduleFile[n - 3], "ai", "voice_agent.py"]
  {
    var n := |moduleFile|;
    NormalizeOntoPlain([], moduleFile);
    assert Normalize(moduleFile) == moduleFile;
    var dir := moduleFile[..n - 1];
    assert IsPlain(dir) by {
      forall i | 0 <= i < |dir| ensures dir[i] != "" && dir[i] != "." && dir[i] != ".." {
        assert dir[i] == moduleFile[i];
      }
    }
    assert Dirname(Normalize(moduleFile)) == dir;
    NormalizeOntoPlain([], dir);
    var up := dir[..n - 2];
    // the working directory: two components off
    NormalizeOntoAppend([], dir, ["..", ".."]);
    assert NormalizeOnto(dir, ["..", ".."]) == NormalizeOnto(up, [".."]);
    assert NormalizeOnto(up, [".."]) == up[..n - 3];
    assert up[..n - 3] == moduleFile[..n - 3];
    // the script: one component off, then two added
    NormalizeOntoAppend([], dir, ["..", "ai", "voice_agent.py"]);
    assert NormalizeOnto(dir, ["..", "ai", "voice_agent.py"]) == NormalizeOnto(up, ["ai", "voice_agent.py"]);
    assert NormalizeOnto(up, ["ai", "voice_agent.py"]) == NormalizeOnto(up + ["ai"], ["voice_agent.py"]);
    assert NormalizeOnto(up + ["ai"], ["voice_agent.py"]) == up + ["ai", "voice_agent.py"];
    assert up == moduleFile[..n - 3] + [moduleFile[n - 3]];
  }

  /** What stopping the agent leaves in the log: a signal, then a wait of
      at most 2 seconds; an error in either is reported and nothing more
      is done about the process. */
  function StopEvents(agent: Option<Agent>): seq<Event> {
    match agent
    case None => []
    case Some(a) =>
      match a.onStop
      case ExitsOnTerm => [TermSent(a.pid), Reaped(a.pid)]
      case IgnoresTerm => [TermSent(a.pid), WaitTimedOut(a.pid)]
      case TerminateRaises => [TermFailed(a.pid)]
  }

  /** `leave_meeting_cleanup`: the agent is stopped first, then, with a
      driver, the leave click (failure swallowed) and `quit`. */
  method LeaveMeetingCleanup(host: Host, hasDriver: bool, agent: Option<Agent>, page: set<Control>)
    modifies host
    ensures host.events == old(host.events) + StopEvents(agent) +
      (if hasDriver then [Attempt(page, LeaveButton), DriverQuit] else [])
  {
    if agent.Some? {
      var signalled := host.Terminate(agent.value);
      if signalled {
        var exited := host.WaitTwoSeconds(agent.value);
      }
    }
    if hasDriver {
      var clicked := host.FindAndClick(page, LeaveButton);
      host.Quit();
    }
  }

  /** Events that concern the browser rather than the agent. */
  predicate BrowserStep(e: Event) {
    e.Visited? || e.Clicked? || e.Missed? || e.LabelRead? || e.DriverQuit?
  }

  /** Every stop step precedes every browser step; however the agent
      responds, the browser is closed exactly when there is a driver; and
      an agent that outlives its 2-second wait is left running: nothing
      after the timeout concerns it. */
  lemma CleanupOrder(hasDriver: bool, agent: Option<Agent>, page: set<Control>)
    ensures var r := StopEvents(agent) + (if hasDriver then [Attempt(page, LeaveButton), DriverQuit] else []);
      && (forall i, j :: 0 <= i < j < |r| && BrowserStep(r[i]) ==> BrowserStep(r[j]))
      && (DriverQuit in r <==> hasDriver)
      && (agent.Some? && agent.value.onStop == IgnoresTerm ==>
            WaitTimedOut(agent.value.pid) in r && Reaped(agent.value.pid) !in r)
  {
    var r := StopEvents(agent) + (if hasDriver then [Attempt(page, LeaveButton), DriverQuit] else []);
    assert forall e | e in StopEvents(agent) :: !BrowserStep(e) && e != DriverQuit;
    forall i, j | 0 <= i < j < |r| && BrowserStep(r[i]) ensures BrowserStep(r[j]) {
      assert i >= |StopEvents(agent)|;
    }
    if hasDriver {
      assert r[|r| - 1] == DriverQuit;
    }
  }
}
