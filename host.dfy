/**
 * The outside world of the controller process: the Chrome window reached
 * through the Selenium driver, and the companion voice-agent process.
 *
 * Every `find_element(...).click()` is an oracle: a `page` is the set of
 * controls that can be found and clicked; for any other control the call
 * raises.  `Host.events` records, in order, every call the controller
 * makes on this world.
 */
module Host {
  import opened Wrappers

  /** Controls of the login and meeting pages.  The selectors themselves are
      not modelled; each control stands for the element one of them finds. */
  datatype Control =
    | LoginForm                   // the e-mail and password fields and their Next buttons
    | MicrophoneToggle            // the "Turn off microphone" button
    | AudioSettings(selector: nat) // the element the given audio-settings selector finds
    | BlackholeMicrophone         // the "BlackHole 2ch (Virtual)" menu entry
    | CameraToggle
    | JoinButton
    | LeaveButton                 // the "Leave call" button
    | SpeakerDropdown
    | SpeakerItem(index: nat)     // an entry of the open speaker menu
    | PageBody

  /** An absolute file-system path as its components: "/a/b" is ["a", "b"]. */
  type Path = seq<string>

  /** The argument vector and working directory of a process launch. */
  datatype Launch = Launch(program: string, script: Path, mode: string, cwd: Path)

  /** How a companion process answers `terminate()` followed by a 2-second
      `wait`. */
  datatype StopBehaviour =
    | ExitsOnTerm        // exits within the grace period
    | IgnoresTerm        // still running when the wait times out
    | TerminateRaises    // `terminate()` itself raises

  /** A running companion process (`subprocess.Popen`). */
  datatype Agent = Agent(pid: nat, onStop: StopBehaviour)

  datatype Event =
    | Visited(url: string)          // `driver.get(url)`
    | Clicked(control: Control)     // the control was found and clicked
    | Missed(control: Control)      // finding or clicking it raised
    | LabelRead(control: Control)   // found, and its aria-label read
    | DriverQuit                    // `driver.quit()`
    | Spawned(launch: Launch, agent: Agent)
    | SpawnFailed(launch: Launch)
    | TermSent(pid: nat)            // `terminate()` returned
    | TermFailed(pid: nat)          // `terminate()` raised
    | Reaped(pid: nat)              // `wait(timeout=2)` returned
    | WaitTimedOut(pid: nat)        // `wait(timeout=2)` raised TimeoutExpired

  /** What trying to click `c` on `page` leaves in the log. */
  function Attempt(page: set<Control>, c: Control): Event {
    if c in page then Clicked(c) else Missed(c)
  }

  class Host {
    var events: seq<Event>

    constructor ()
      ensures events == []
    {
      events := [];
    }

    /** `driver.find_element(...).click()`; `ok` is false where it raises. */
    method FindAndClick(page: set<Control>, c: Control) returns (ok: bool)
      modifies this
      ensures ok == (c in page)
      ensures events == old(events) + [Attempt(page, c)]
    {
      ok := c in page;
      events := events + [Attempt(page, c)];
    }

    /** `driver.get(url)` */
    method Visit(url: string)
      modifies this
      ensures events == old(events) + [Visited(url)]
    {
      events := events + [Visited(url)];
    }

    /** `driver.find_element(...).get_attribute("aria-label")`; `found` is
        false where the lookup raises. */
    method ReadLabel(page: set<Control>, c: Control) returns (found: bool)
      modifies this
      ensures found == (c in page)
      ensures events == old(events) + [if c in page then LabelRead(c) else Missed(c)]
    {
      found := c in page;
      events := events + [if c in page then LabelRead(c) else Missed(c)];
    }

    /** `driver.execute_script("arguments[0].click();", element)` on an
        element already found. */
    method ScriptClick(c: Control)
      modifies this
      ensures events == old(events) + [Clicked(c)]
    {
      events := events + [Clicked(c)];
    }

    /** `driver.quit()` */
    method Quit()
      modifies this
      ensures events == old(events) + [DriverQuit]
    {
      events := events + [DriverQuit];
    }

    /** `subprocess.Popen(...)`: `spawned` is the process the system starts,
        `None` where the call raises. */
    method Spawn(launch: Launch, spawned: Option<Agent>) returns (agent: Option<Agent>)
      modifies this
      ensures agent == spawned
      ensures events == old(events) + [if spawned.Some? then Spawned(launch, spawned.value) else SpawnFailed(launch)]
    {
      agent := spawned;
      events := events + [if spawned.Some? then Spawned(launch, spawned.value) else SpawnFailed(launch)];
    }

    /** `process.terminate()`; `ok` is false where it raises. */
    method Terminate(a: Agent) returns (ok: bool)
      modifies this
      ensures ok == (a.onStop != TerminateRaises)
      ensures events == old(events) + [if ok then TermSent(a.pid) else TermFailed(a.pid)]
    {
      ok := a.onStop != TerminateRaises;
      events := events + [if ok then TermSent(a.pid) else TermFailed(a.pid)];
    }

    /** `process.wait(timeout=2)` after a signal; `exited` is false where the
        timeout expires (the process keeps running). */
    method WaitTwoSeconds(a: Agent) returns (exited: bool)
      modifies this
      ensures exited == (a.onStop == ExitsOnTerm)
      ensures events == old(events) + [if exited then Reaped(a.pid) else WaitTimedOut(a.pid)]
    {
      exited := a.onStop == ExitsOnTerm;
      events := events + [if exited then Reaped(a.pid) else WaitTimedOut(a.pid)];
    }
  }
}
