/**
 * `MeetJoiner` (src/meeting/meet_joiner.py): logging in, opening the
 * meeting, routing the microphone to BlackHole, turning the camera off,
 * joining, and leaving.  Every element lookup is an oracle over `page`
 * (see module Host); the methods record what they do in `host.events`.
 */
module MeetJoiner {
  import opened Host

  const LoginUrl := "https://accounts.google.com/ServiceLogin?hl=en&passive=true&continue=https://www.google.com/&ec=GAZAAQ"

  /** `_click_audio_settings` knows five selectors for the audio-settings
      button and tries them in list order. */
  const AudioSelectorCount: nat := 5

  /** The failed attempts with selectors `i` .. `k - 1`. */
  function Misses(i: nat, k: nat): (r: seq<Event>)
    requires i <= k
    ensures |r| == k - i
    ensures forall j :: 0 <= j < |r| ==> r[j] == Missed(AudioSettings(i + j))
    decreases k - i
  {
    if i == k then [] else [Missed(AudioSettings(i))] + Misses(i + 1, k)
  }

  /** What `_click_audio_settings` does from selector `i` on: try each
      selector and stop at the first one that can be found and clicked. */
  function AudioSettingsEvents(page: set<Control>, i: nat): seq<Event>
    requires i <= AudioSelectorCount
    decreases AudioSelectorCount - i
  {
    if i == AudioSelectorCount then []
    else if AudioSettings(i) in page then [Clicked(AudioSettings(i))]
    else [Missed(AudioSettings(i))] + AudioSettingsEvents(page, i + 1)
  }

  /** `_set_microphone_to_blackhole`: without the microphone button,
      neither the audio settings nor the BlackHole entry is looked for. */
  function MicrophoneEvents(page: set<Control>): seq<Event> {
    if MicrophoneToggle in page then
      [Clicked(MicrophoneToggle)] + AudioSettingsEvents(page, 0) + [Attempt(page, BlackholeMicrophone)]
    else
      [Missed(MicrophoneToggle)]
  }

  /** `_setup_meeting_preferences`: the microphone, then the camera. */
  function PreferenceEvents(page: set<Control>): seq<Event> {
    MicrophoneEvents(page) + [Attempt(page, CameraToggle)]
  }

  /** `join_meeting` on a meeting link: login, navigation, preferences,
      join button.  A failed login ends the sequence (the exception
      propagates); everything after it runs in full. */
  function JoinEvents(meetUrl: string, page: set<Control>): seq<Event> {
    [Visited(LoginUrl), Attempt(page, LoginForm)] +
    (if LoginForm in page then [Visited(meetUrl)] + PreferenceEvents(page) + [Attempt(page, JoinButton)]
     else [])
  }

  /** `leave_meeting`: the leave click, then `quit` whatever the click did. */
  function LeaveEvents(hasDriver: bool, page: set<Control>): seq<Event> {
    if hasDriver then [Attempt(page, LeaveButton), DriverQuit] else []
  }

  /** True when `e` is a step of the microphone configuration after the
      microphone button itself. */
  predicate AudioStep(e: Event) {
    (e.Clicked? || e.Missed?) && (e.control.AudioSettings? || e.control == BlackholeMicrophone)
  }

  class MeetJoiner {
    const meetUrl: string
    /** The browser behind `self.driver`. */
    const host: Host
    /** `self.driver` is set: `_setup_driver` either returns a session or
        raises out of the constructor, so a joiner always has one. */
    const hasDriver: bool

    constructor (meetUrl: string, browser: Host)
      ensures this.meetUrl == meetUrl && host == browser && hasDriver
    {
      this.meetUrl := meetUrl;
      host := browser;
      hasDriver := true;
    }

    /** `join_meeting`; `raised` is true where it raises. */
    method JoinMeeting(page: set<Control>) returns (raised: bool)
      modifies host
      ensures host.events == old(host.events) + JoinEvents(meetUrl, page)
      ensures raised <==> LoginForm !in page || JoinButton !in page
    {
      var loggedIn := LoginToGoogle(page);
      if !loggedIn {
        assert JoinEvents(meetUrl, page) == [Visited(LoginUrl), Missed(LoginForm)];
        return true;
      }
      ghost var prefs := PreferenceEvents(page);
      NavigateToMeeting();
      SetupMeetingPreferences(page);
      raised := ClickJoinButton(page);
      ghost var login, nav, join := [Visited(LoginUrl), Clicked(LoginForm)], [Visited(meetUrl)], [Attempt(page, JoinButton)];
      Regroup(old(host.events), login, nav, prefs, join);
      assert JoinEvents(meetUrl, page) == login + (nav + prefs + join);
    }

    /** `_login_to_google`: the login page, then the form; `ok` is false
        where filling or submitting the form raises. */
    method LoginToGoogle(page: set<Control>) returns (ok: bool)
      modifies host
      ensures ok == (LoginForm in page)
      ensures host.events == old(host.events) + [Visited(LoginUrl), Attempt(page, LoginForm)]
    {
      host.Visit(LoginUrl);
      ok := host.FindAndClick(page, LoginForm);
    }

    /** `_navigate_to_meeting` */
    method NavigateToMeeting()
      modifies host
      ensures host.events == old(host.events) + [Visited(meetUrl)]
    {
      host.Visit(meetUrl);
    }

    /** `_setup_meeting_preferences`: never raises. */
    method SetupMeetingPreferences(page: set<Control>)
      modifies host
      ensures host.events == old(host.events) + PreferenceEvents(page)
    {
      SetMicrophoneToBlackhole(page);
      TurnOffCamera(page);
    }

    /** `_set_microphone_to_blackhole`: never raises. */
    method SetMicrophoneToBlackhole(page: set<Control>)
      modifies host
      ensures host.events == old(host.events) + MicrophoneEvents(page)
    {
      var found := ClickMicrophoneButton(page);
      if !found {
        return;
      }
      ghost var audio := AudioSettingsEvents(page, 0);
      ClickAudioSettings(page);
      SelectBlackholeMicrophone(page);
      ghost var button, entry := [Clicked(MicrophoneToggle)], [Attempt(page, BlackholeMicrophone)];
      RegroupThree(old(host.events), button, audio, entry);
      assert MicrophoneEvents(page) == button + audio + entry;
    }

    /** `_click_microphone_button`: `found` stands for the element it returns
        (a found element is always truthy), false for its `None`. */
    method ClickMicrophoneButton(page: set<Control>) returns (found: bool)
      modifies host
      ensures found == (MicrophoneToggle in page)
      ensures host.events == old(host.events) + [Attempt(page, MicrophoneToggle)]
    {
      found := host.FindAndClick(page, MicrophoneToggle);
    }

    /** `_click_audio_settings`: the first selector whose element can be
        found and clicked is the only one clicked; if none can, nothing is
        clicked and nothing is raised. */
    method ClickAudioSettings(page: set<Control>)
      modifies host
      ensures host.events == old(host.events) + AudioSettingsEvents(page, 0)
    {
      for i := 0 to AudioSelectorCount
        invariant old(host.events) + AudioSettingsEvents(page, 0) == host.events + AudioSettingsEvents(page, i)
      {
        var clicked := host.FindAndClick(page, AudioSettings(i));
        if clicked {
          return;
        }
      }
    }

    /** `_select_blackhole_microphone`: never raises. */
    method SelectBlackholeMicrophone(page: set<Control>)
      modifies host
      ensures host.events == old(host.events) + [Attempt(page, BlackholeMicrophone)]
    {
      var selected := host.FindAndClick(page, BlackholeMicrophone);
    }

    /** `_turn_off_camera`: never raises. */
    method TurnOffCamera(page: set<Control>)
      modifies host
      ensures host.events == old(host.events) + [Attempt(page, CameraToggle)]
    {
      var clicked := host.FindAndClick(page, CameraToggle);
    }

    /** `_join_meeting`: the one failure that is re-raised. */
    method ClickJoinButton(page: set<Control>) returns (raised: bool)
      modifies host
      ensures raised == (JoinButton !in page)
      ensures host.events == old(host.events) + [Attempt(page, JoinButton)]
    {
      var clicked := host.FindAndClick(page, JoinButton);
      raised := !clicked;
    }

    /** `leave_meeting`: a failed leave click is swallowed and the browser
        is closed in the `finally` block. */
    method LeaveMeeting(page: set<Control>)
      modifies host
      ensures host.events == old(host.events) + LeaveEvents(hasDriver, page)
    {
      if hasDriver {
        var clicked := host.FindAndClick(page, LeaveButton);
        host.Quit();
      }
    }
  }

  /** Regrouping a log built from four pieces. */
  lemma RegroupThree(start: seq<Event>, a: seq<Event>, b: seq<Event>, c: seq<Event>)
    ensures start + a + b + c == start + (a + b + c)
  {
  }

  /** Regrouping a log built from five pieces. */
  lemma Regroup(start: seq<Event>, login: seq<Event>, nav: seq<Event>, prefs: seq<Event>, join: seq<Event>)
    ensures start + login + nav + prefs + join == start + (login + (nav + prefs + join))
  {
    assert start + login + nav + prefs + join == start + (login + nav + prefs + join);
  }

  /** The selectors are tried in order: when selectors `i` .. `k - 1` fail
      and selector `k` works, `k` is clicked after exactly those failures;
      when all fail, nothing is clicked. */
  lemma {:induction false} AudioSettingsFirstMatch(page: set<Control>, i: nat, k: nat)
    requires i <= k <= AudioSelectorCount
    requires forall j :: i <= j < k ==> AudioSettings(j) !in page
    requires k < AudioSelectorCount ==> AudioSettings(k) in page
    ensures AudioSettingsEvents(page, i) ==
      Misses(i, k) + (if k < AudioSelectorCount then [Clicked(AudioSettings(k))] else [])
    decreases k - i
  {
    if i < k {
      AudioSettingsFirstMatch(page, i + 1, k);
    }
  }

  /** At most one audio-settings selector is ever clicked, and it is the
      last step of the loop. */
  lemma {:induction false} AudioSettingsClickedLast(page: set<Control>, i: nat)
    requires i <= AudioSelectorCount
    ensures var r := AudioSettingsEvents(page, i);
      |r| <= AudioSelectorCount - i &&
      forall j :: 0 <= j < |r| - 1 ==> r[j].Missed?
    decreases AudioSelectorCount - i
  {
    if i < AudioSelectorCount && AudioSettings(i) !in page {
      AudioSettingsClickedLast(page, i + 1);
    }
  }

  /** After a successful login the steps run in order: the meeting link,
      the microphone button, the camera, and last the join button. */
  lemma JoinStepOrder(meetUrl: string, page: set<Control>)
    requires LoginForm in page
    ensures var r := JoinEvents(meetUrl, page);
      && |r| >= 6
      && r[0] == Visited(LoginUrl) && r[1] == Clicked(LoginForm)
      && r[2] == Visited(meetUrl)
      && r[3] == Attempt(page, MicrophoneToggle)
      && r[|r| - 2] == Attempt(page, CameraToggle)
      && r[|r| - 1] == Attempt(page, JoinButton)
  {
    var r := JoinEvents(meetUrl, page);
    var mic := MicrophoneEvents(page);
    assert r == [Visited(LoginUrl), Attempt(page, LoginForm), Visited(meetUrl)] + mic
                + [Attempt(page, CameraToggle), Attempt(page, JoinButton)];
  }

  /** A missing microphone button means no audio-settings selector and no
      BlackHole entry is tried. */
  lemma MicrophoneMissingSkipsAudio(meetUrl: string, page: set<Control>)
    requires MicrophoneToggle !in page
    ensures forall e | e in JoinEvents(meetUrl, page) :: !AudioStep(e)
  {
  }

  /** A failed login stops `join_meeting` right after the login form. */
  lemma LoginFailureStopsJoin(meetUrl: string, page: set<Control>)
    requires LoginForm !in page
    ensures JoinEvents(meetUrl, page) == [Visited(LoginUrl), Missed(LoginForm)]
  {
  }

  /** `leave_meeting` closes the browser whether or not the leave button
      could be clicked. */
  lemma LeaveAlwaysQuits(page: set<Control>)
    ensures LeaveEvents(true, page)[1] == DriverQuit
    ensures LeaveEvents(true, page)[0] == (if LeaveButton in page then Clicked(LeaveButton) else Missed(LeaveButton))
  {
  }
}
