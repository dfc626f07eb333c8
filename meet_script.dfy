/**
 * The stand-alone script meet_joiner.py: its join click and its leave
 * routine, acting on the module-global `driver`.  Its argument check is
 * `MeetingCode.ScriptArguments`.
 */
module MeetScript {
  import opened Host
  import MeetJoiner

  /** `joinNow`: a failed join click is reported and swallowed. */
  method JoinNow(driver: Host, page: set<Control>)
    modifies driver
    ensures driver.events == old(driver.events) + [Attempt(page, JoinButton)]
  {
    var clicked := driver.FindAndClick(page, JoinButton);
  }

  /** What `leave_call` does: nothing catches the leave click, so when it
      fails `driver.quit()` is never reached. */
  function LeaveCallEvents(page: set<Control>): seq<Event> {
    if LeaveButton in page then [Clicked(LeaveButton), DriverQuit] else [Missed(LeaveButton)]
  }

  /** `leave_call`; `raised` is true where it raises. */
  method LeaveCall(driver: Host, page: set<Control>) returns (raised: bool)
    modifies driver
    ensures raised == (LeaveButton !in page)
    ensures driver.events == old(driver.events) + LeaveCallEvents(page)
  {
    var clicked := driver.FindAndClick(page, LeaveButton);
    if !clicked {
      return true;
    }
    driver.Quit();
    raised := false;
  }

  /** The script's leave routine closes the browser exactly when the leave
      click works, while `MeetJoiner.leave_meeting` always closes it; the
      two agree when the button is there. */
  lemma LeaveCallQuitsOnlyAfterClick(page: set<Control>)
    ensures DriverQuit in LeaveCallEvents(page) <==> LeaveButton in page
    ensures DriverQuit in MeetJoiner.LeaveEvents(true, page)
    ensures LeaveButton in page ==> LeaveCallEvents(page) == MeetJoiner.LeaveEvents(true, page)
  {
    if LeaveButton !in page {
      assert LeaveCallEvents(page) == [Missed(LeaveButton)];
    }
  }
}
