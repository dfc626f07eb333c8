# Groquette controller, modelled in Dafny

Groquette joins a Google Meet call with a Chrome browser driven by Selenium. It routes the call's audio through the BlackHole virtual device, and runs a voice agent beside the browser. This project models the controller's sequential logic and proves properties about it:

- the meeting-code check and meeting link;
- the interactive `run_assistant` loop;
- the join and leave sequences of `MeetJoiner` and of the stand-alone script;
- the meeting helpers (speaker menu, agent launch, teardown);
- the BlackHole device searches;
- the file-based command channel between the agent and the browser process;
- the message normalisation in front of the Groq model.

Modules, one per source file or concern:

| module | models |
|---|---|
| `Wrappers` | `Option` |
| `Text` | Python's `str.isspace`, `strip`, `lower`, `in` and `split` |
| `JsonDoc` | JSON documents and the serialise/parse pair of the `json` library |
| `IpcCommands` | src/meeting/ipc_commands.py |
| `MeetingCode` | the code check and link of utils.py and of the `__main__` block of meet_joiner.py |
| `Assistant` | `get_user_input` and `run_assistant` of utils.py |
| `Host` | the browser and the operating system, as oracles with an event log |
| `MeetJoiner` | src/meeting/meet_joiner.py |
| `MeetScript` | `joinNow` and `leave_call` of meet_joiner.py |
| `MeetingUtils` | src/meeting/utils.py |
| `Blackhole` | src/audio/blackhole.py |
| `AudioManager` | src/audio/audio_manager.py |
| `Llm` | src/ai/llm.py |

How the outside world is represented:

- **Browser.** A `page: set<Control>` lists the controls that can be found and clicked. Looking up any other control raises.
- **Effects.** Every browser action and every process action is appended to `Host.events`. The ordering and teardown properties are therefore statements about that log.
- **Command channel timing.** Time is counted in 100 ms polls up to the 5-second deadline. The other process is an oracle `replies`: `replies[t]` is what it writes into the response file before poll `t`.
- **Standard input.** It is a finite sequence of keys, each a typed line or a Ctrl+C. It ends either in end of input or in a read that blocks.
- **Device lists, process handles and the model's reply.** These are parameters.

## Model

| member | source | states |
|---|---|---|
| Text.TrimStartSpec | utils.py:14 | the result is a suffix of the input, starts with a non-space, and everything removed is white space |
| Text.TrimEndSpec | utils.py:14 | the result is a prefix of the input, ends with a non-space, and everything removed is white space |
| Text.StripIsStripped | utils.py:27 | a stripped string begins and ends with a non-space, and stripping it again changes nothing |
| Text.StripEmptyIffBlank | src/ai/llm.py:61 | `not s.strip()` holds exactly when every character of `s` is white space |
| Text.Lower | utils.py:14 | lower-casing keeps the length |
| Text.LowerIdempotent | utils.py:14 | lower-casing twice is lower-casing once |
| Text.StripLowerCommute | utils.py:14 | `strip` and `lower` commute |
| Text.Split | utils.py:32 | `split` yields at least one piece, no piece holds the separator, and joining the pieces with the separator gives back the input |
| Text.SplitNoSep | utils.py:32 | a string without the separator splits into itself alone |
| Text.SplitAfter | utils.py:32 | splitting `a + sep + b`, with `a` free of `sep`, gives `a` followed by the pieces of `b` |
| JsonDoc.Serialize | src/meeting/ipc_commands.py:35-36 | what `json.dump` writes, `json.load` reads back unchanged |
| IpcCommands.Await | src/meeting/ipc_commands.py:40-55 | when a result is returned, the response file is gone; after any poll, what is left in the file is only bytes that do not parse |
| IpcCommands.NoReplyTimesOut | src/meeting/ipc_commands.py:40-55 | if no parseable object appears in the response file before the deadline, no result is consumed and the deadline passes; a reply written after the deadline is never seen |
| IpcCommands.UnparseableStays | src/meeting/ipc_commands.py:41-51 | a response file that does not parse stays in place through every poll, and no result is taken |
| IpcCommands.ReplyReturned | src/meeting/ipc_commands.py:40-49 | the first object written into the response file before the deadline is consumed, whatever non-object content was there before (no file, a half-written file, other JSON); its `result`, or "Command executed" without one, is returned |
| IpcCommands.ResponseRoundTrip | src/meeting/ipc_commands.py:73-78 | what `send_response(result)` writes before the deadline is exactly what the waiting `send_command` returns, and the file is then gone, even when a truncated or non-object file was seen first |
| IpcCommands.TruncatedThenResponse | src/meeting/ipc_commands.py:40-51 | a response file found empty at the first poll (still being written) is left alone, and the complete response is returned at a later poll |
| IpcCommands.StaleResponseTaken | src/meeting/ipc_commands.py:40-49 | a response left from an earlier exchange is taken by the next `send_command` at its first poll |
| IpcCommands.CommandRoundTrip | src/meeting/ipc_commands.py:28-36 | the command file read back holds exactly the name, the parameters (the empty map for `None`) and the timestamp, and `check_for_command` hands that object back |
| IpcCommands.IpcChannel.constructor | src/meeting/ipc_commands.py:13-17 | whatever an earlier run left behind, both files are absent afterwards |
| IpcCommands.IpcChannel.ClearFiles | src/meeting/ipc_commands.py:19-24 | both files are absent afterwards |
| IpcCommands.IpcChannel.SendCommand | src/meeting/ipc_commands.py:26-55 | the command file is overwritten with the new record, so an unread earlier command is lost and the file is never deleted; the result and the response file are those of the polling loop, and "Command sent but no response received" is returned when nothing arrives |
| IpcCommands.IpcChannel.CheckForCommand | src/meeting/ipc_commands.py:57-71 | an absent file gives `None` and changes nothing; a parseable command is returned and its file deleted, so an immediate second call gives `None`; a file holding JSON `null` is deleted and gives `None` like no command at all; a file that does not parse gives `None` and stays; the response file is untouched |
| IpcCommands.IpcChannel.SendResponse | src/meeting/ipc_commands.py:73-78 | the response file holds `{result, timestamp}` afterwards and the command file is untouched |
| MeetingCode.ValidCode | utils.py:32-33 | the code check: `split('-')` gives three parts of lengths 3, 4 and 3 (characterised positionally by `ValidCodeShape`) |
| MeetingCode.ValidCodeShape | utils.py:32-33 | the three-parts-of-3-4-3 rule holds exactly for twelve characters with a hyphen at indices 3 and 8 and nowhere else |
| MeetingCode.MeetUrl | utils.py:42 | the link is "https://meet.google.com/" followed by the code, so the code can be read back from it |
| MeetingCode.ParseMeetingCode | utils.py:18-37 | a non-empty argument is accepted, unstripped, when it is valid and otherwise exits with status 1; without one, the stripped typed line is accepted when valid and otherwise exits with status 1; closed standard input at the prompt ends in the uncaught EOFError; an accepted code is always valid |
| MeetingCode.ScriptArguments | meet_joiner.py:62-74 | the script goes on exactly when `argv[1]` exists and is valid, with the link built from it; in every other case it exits with status 1 before a browser exists |
| MeetingCode.ScriptAgreesWithParser | meet_joiner.py:66-68 | the script and `parse_meeting_code` accept the same non-empty command-line codes and build the same link from them |
| Assistant.GetUserInput | utils.py:11-16 | a line gives a normalised line no longer than the input; end of input gives `None` |
| Assistant.GetUserInputIdempotent | utils.py:14 | normalising a normalised line changes nothing |
| Assistant.React | utils.py:63-75 | 'r' restarts; 'q' and 'quit' quit; any other non-empty line keeps the loop running and prints the help text; an empty line or `None` keeps it running silently |
| Assistant.Session | utils.py:59-79 | `leave_meeting` is called exactly once when the loop returns and never otherwise; help is printed at most once per key |
| Assistant.RunAssistant | utils.py:49-88 | the loop's outcome is the one `Run` describes: a failed join leaves and quits, otherwise `Session` |
| Assistant.UndecisiveKeepsRunning | utils.py:73-75 | lines other than 'r', 'q' and 'quit' keep the loop running without a `leave_meeting` call; exactly the non-empty ones print the help text |
| Assistant.FirstDecisiveKeyDecides | utils.py:63-71 | the first key that is not ignored decides: 'r' restarts; 'q', 'quit' and Ctrl+C quit |
| Assistant.ClosedInputNeverWaits | utils.py:59-61 | once standard input is closed, the loop never blocks in `input()` |
| Assistant.EofSpinsForever | utils.py:77-79 | as written, at end of input the loop neither returns nor leaves the meeting |
| Assistant.IntendedSessionAlwaysReturns | utils.py:77-79 | with the intended end-of-input handling, the loop always returns after exactly one `leave_meeting` call, and agrees with the written loop wherever that one returns |
| MeetJoiner.MeetJoiner.constructor | src/meeting/meet_joiner.py:11-15 | a joiner keeps its meeting link and always has a driver |
| MeetJoiner.MeetJoiner.JoinMeeting | src/meeting/meet_joiner.py:29-36 | login, navigation, preferences and the join click happen in that order; it raises exactly when the login form or the join button fails |
| MeetJoiner.MeetJoiner.LoginToGoogle | src/meeting/meet_joiner.py:38-47 | the login page is opened, then the form is filled; a failure there propagates |
| MeetJoiner.MeetJoiner.NavigateToMeeting | src/meeting/meet_joiner.py:49-52 | the meeting link is opened |
| MeetJoiner.MeetJoiner.SetupMeetingPreferences | src/meeting/meet_joiner.py:54-57 | the microphone is configured before the camera, and nothing raises |
| MeetJoiner.MeetJoiner.SetMicrophoneToBlackhole | src/meeting/meet_joiner.py:59-70 | the microphone button comes first; without it nothing else is tried |
| MeetJoiner.MeetJoiner.ClickMicrophoneButton | src/meeting/meet_joiner.py:72-81 | a button is returned exactly when it can be found and clicked; a failure is swallowed |
| MeetJoiner.MeetJoiner.ClickAudioSettings | src/meeting/meet_joiner.py:83-108 | the selectors are tried in list order up to the first one that works; nothing raises |
| MeetJoiner.MeetJoiner.SelectBlackholeMicrophone | src/meeting/meet_joiner.py:110-134 | one attempt at the BlackHole entry; a failure is swallowed |
| MeetJoiner.MeetJoiner.TurnOffCamera | src/meeting/meet_joiner.py:136-141 | one attempt at the camera toggle; a failure is swallowed |
| MeetJoiner.MeetJoiner.ClickJoinButton | src/meeting/meet_joiner.py:143-151 | it raises exactly when the join button fails |
| MeetJoiner.MeetJoiner.LeaveMeeting | src/meeting/meet_joiner.py:161-171 | with a driver, the leave click is tried (a failure is swallowed) and then `quit` always follows |
| MeetJoiner.AudioSettingsFirstMatch | src/meeting/meet_joiner.py:95-106 | the first working selector is clicked after failed attempts at exactly the earlier ones; when none works, all five fail and nothing is clicked |
| MeetJoiner.AudioSettingsClickedLast | src/meeting/meet_joiner.py:95-104 | at most five attempts, and every attempt except possibly the last one failed |
| MeetJoiner.JoinStepOrder | src/meeting/meet_joiner.py:33-36 | after a successful login the meeting link comes first, then the microphone button, and after the microphone steps the camera and last the join button |
| MeetJoiner.MicrophoneMissingSkipsAudio | src/meeting/meet_joiner.py:62-67 | without the microphone button, no audio-settings selector and no BlackHole entry is tried |
| MeetJoiner.LoginFailureStopsJoin | src/meeting/meet_joiner.py:33-34 | a failed login ends `join_meeting` before the meeting link is opened |
| MeetJoiner.LeaveAlwaysQuits | src/meeting/meet_joiner.py:163-171 | `quit` follows the leave attempt whether or not the click worked |
| MeetScript.JoinNow | meet_joiner.py:43-54 | one attempt at the join button; a failure is swallowed |
| MeetScript.LeaveCall | meet_joiner.py:56-59 | it raises exactly when the leave button fails, and then `quit` is never reached |
| MeetScript.LeaveCallQuitsOnlyAfterClick | meet_joiner.py:56-59 | the script closes the browser exactly when the leave click works; `MeetJoiner.leave_meeting` always does; the two agree when the button is there |
| MeetingUtils.FirstBlackholeItem | src/meeting/utils.py:143-150 | the entry found is the first whose text contains "BlackHole"; `None` means that no entry does |
| MeetingUtils.SetSpeakerToBlackhole | src/meeting/utils.py:118-176 | the browser actions are those of `SpeakerEvents`, and nothing raises |
| MeetingUtils.SpeakerAlreadySet | src/meeting/utils.py:131-134 | a label that already names BlackHole leaves the menu closed |
| MeetingUtils.SpeakerFirstMatchOnly | src/meeting/utils.py:140-156 | the menu is opened, and only the first matching entry can be clicked; without a match the menu is closed by a click on the page and the label is not read again |
| MeetingUtils.StartVoiceAgentProcess | src/meeting/utils.py:179-195 | the launch is the interpreter on `<dir>/../ai/voice_agent.py` in console mode, run in the normalised `<dir>/../..`; the handle is returned, or `None` when starting fails |
| MeetingUtils.NormalizeOntoAppend | src/meeting/utils.py:186 | normalising a path in two pieces is normalising it at once |
| MeetingUtils.NormalizeOntoPlain | src/meeting/utils.py:184 | a path without ".", ".." or empty components normalises to itself |
| MeetingUtils.AgentLaunchLayout | src/meeting/utils.py:184-188 | for this module at `<root>/<pkg>/<sub>/<file>`, the agent runs in `<root>`, and its script resolves to `<root>/<pkg>/ai/voice_agent.py` |
| MeetingUtils.LeaveMeetingCleanup | src/meeting/utils.py:198-219 | the agent is stopped (signal, then a 2-second wait) before any browser action; with a driver, a leave attempt and `quit` follow |
| MeetingUtils.CleanupOrder | src/meeting/utils.py:203-219 | every stop step comes before every browser step; `quit` happens exactly when there is a driver; an agent that outlives its wait is left running, with no kill |
| Blackhole.FirstServing | src/audio/blackhole.py:46-67 | a found device qualifies and no earlier device does; `None` only when no qualifying device comes before the first entry without a string name (with string names only: exactly when no device qualifies) |
| Blackhole.FindBlackholeDevice | src/audio/blackhole.py:37-67 | the loop returns what `FindSpec` describes, including `None` when the query raises |
| Blackhole.FoundIsFirstQualifying | src/audio/blackhole.py:47-62 | a found id indexes the device list, names a BlackHole device with channels of the requested kind, and is the smallest such index |
| Blackhole.UnknownTypeFindsNothing | src/audio/blackhole.py:53-62 | a device type other than "input" and "output" finds nothing |
| Blackhole.MatchIgnoresCase | src/audio/blackhole.py:49-52 | names that lower-case alike match alike, and a name matches as its lower-cased form does |
| Blackhole.SetMicToBlackhole | src/audio/blackhole.py:70-99 | on success only the input slot of the default pair changes, to the returned id; otherwise `None` and the pair is unchanged |
| Blackhole.SetSpeakerToBlackhole | src/audio/blackhole.py:102-131 | on success only the output slot of the default pair changes, to the returned id; otherwise `None` and the pair is unchanged |
| Blackhole.ConfirmedIsFound | src/audio/blackhole.py:76-99 | an id that is set is a valid index of a qualifying device; with no BlackHole-named device, nothing is set |
| AudioManager.FirstNamed | src/audio/audio_manager.py:21-30 | the first device with a string name containing "blackhole" in any case; `None` exactly when there is none |
| AudioManager.AudioManager.constructor | src/audio/audio_manager.py:13-17 | after construction the id is the result of the scan |
| AudioManager.AudioManager.FindBlackholeDevice | src/audio/audio_manager.py:19-32 | the first match is recorded and the scan stops; without a match the id is left as it was |
| AudioManager.AudioManager.IsBlackholeAvailable | src/audio/audio_manager.py:34-36 | available exactly when a device id has been recorded (after the scan: `AvailableIffSomeDeviceNamed`) |
| AudioManager.NamedIsNameMatches | src/audio/audio_manager.py:24-27 | the manager's test is the same case-insensitive "blackhole" test as the device search's |
| AudioManager.AvailableIffSomeDeviceNamed | src/audio/audio_manager.py:34-36 | after the scan, BlackHole is reported available exactly when some device has a matching string name |
| AudioManager.ScansAgreeOnInputs | src/audio/audio_manager.py:21-30 | with string names and input channels everywhere, the manager and `find_blackhole_device("input")` pick the same device |
| Llm.ExtractContent | src/ai/llm.py:78-91 | a string is its own text; an object with `text` gives that text; a list gives its parts' texts (or renderings) joined with nothing between; `None` gives ""; anything else its rendering (list behaviour: `ExtractListConcat`, `ExtractPlainStrings`) |
| Llm.ExtractListConcat | src/ai/llm.py:84-88 | the text of a concatenated part list is the concatenation of the parts' texts |
| Llm.ExtractPlainStrings | src/ai/llm.py:84-88 | a list of plain strings gives the strings joined with nothing in between |
| Llm.Kept | src/ai/llm.py:56-64 | no kept message is blank, and there are no more kept messages than input items |
| Llm.ConvertMessages | src/ai/llm.py:52-76 | the output is the kept messages, plus the greeting when it is needed |
| Llm.KeptAppend | src/ai/llm.py:56-64 | filtering distributes over concatenation, so input order is kept |
| Llm.KeptSingle | src/ai/llm.py:57-64 | an item is kept, with its content unstripped, exactly when it has a role, has content, and its text is not blank |
| Llm.ConvertShape | src/ai/llm.py:66-76 | the greeting is appended exactly for "compound-beta" with a single system message left, as the last message; the output is at most one longer than the input |
| Llm.CompleteHits | src/ai/llm.py:178-188 | every result comes from a hit that has a title, a URL and a score, and there are no more results than hits |
| Llm.ExtractSearchResults | src/ai/llm.py:166-192 | the nested loops return exactly `Collect`: the complete hits of search tools, in order, up to the first listing whose iteration raises |
| Llm.CompleteHitsAppend | src/ai/llm.py:178-188 | the results of concatenated hit lists are the concatenated results |
| Llm.CollectAppend | src/ai/llm.py:170-188 | with readable listings, tools contribute independently and in order |
| Llm.ErrorKeepsResultsSoFar | src/ai/llm.py:189-192 | an error keeps everything found before it, including the failing tool's earlier hits, and drops every later tool |
| Llm.NonSearchIgnored | src/ai/llm.py:171-177 | a tool whose type is not "search" adds nothing |
| Llm.GroqStream.constructor | src/ai/llm.py:215-219 | a new stream keeps its request id and content and has sent nothing |
| Llm.GroqStream.Next | src/ai/llm.py:225-235 | the first call yields the whole answer as one assistant chunk with the request id; every later call ends the iteration |

## Left out

- Where the project's documentation says otherwise, the model follows the source code: `leave_meeting_cleanup` does not kill an agent that outlives its 2-second wait; it only reports the error. Nothing in the modelled files reads commands through `check_for_command` or answers them with `send_response`; the channel is modelled on its own.
- Text.Lower: lower-cases ASCII letters only, not the full Unicode case mapping of Python's `str.lower`.
- IpcCommands.IpcChannel.SendCommand: parameters are typed JSON values, so `json.dump` cannot fail here. In the source a non-serialisable parameter makes it raise a TypeError after the command file has already been truncated, leaving an empty command file behind; that failure is not modelled.
- IpcCommands.IpcChannel.SendCommand: counts time by the 0.1 s sleeps alone. Time spent reading files and wall-clock jumps are not modelled. Timestamps are opaque integers.
- JsonDoc: JSON encoding and decoding belong to the library and are abstracted as a serialise/parse pair. A file is a whole document or unparseable bytes. The non-string `result` values a response may carry are returned as they are.
- The two processes interleave only through the `replies` oracle. There is no locking in the source and none here.
- Assistant.Run: the joiner is built (utils.py:47) outside the `try`, so a browser that fails to start makes `run_assistant` raise with neither 'restart' nor 'quit' and without `leave_meeting()`. `Run` starts after a successful construction and has no such outcome.
- Assistant: `leave_meeting()` is taken not to raise. The joiner itself is reduced to whether `join_meeting()` raised. The printed text is not modelled.
- MeetJoiner: `driver.get` is taken not to raise (navigation failures are not modelled). The login form's four lookups are one control. The selectors and XPaths are not modelled. `_setup_driver`, `keep_alive` and `__del__` are not modelled.
- MeetingCode.ParseMeetingCode: argparse's own exits (status 2 for a second positional or an unknown option, status 0 for `-h`, utils.py:20-23) happen before the code check and are not modelled; the model starts from an argument list argparse accepted.
- MeetScript: `Glogin` and `turnOffMicCam` are not modelled (browser login and selector details), nor the keep-alive loop of the `__main__` block.
- MeetingUtils: `focus_chrome_window`, `setup_chrome_driver`, `login_to_google`, `toggle_camera`, `turn_on_microphone`, `turn_off_microphone` and `set_microphone_to_blackhole` of src/meeting/utils.py are not modelled (browser calls outside this model). The 0.5 s sleeps are not modelled either.
- MeetingUtils.SetSpeakerToBlackhole: the clicks on the open dropdown and on a menu entry are taken to work once the element is found. The second label read is recorded, but its printed verdict is not.
- MeetingUtils.StartVoiceAgentProcess: the module's own path is a parameter, and symbolic links are not resolved (as `os.path.abspath` does not resolve them).
- Blackhole: `list_audio_devices`, `create_blackhole_input_stream`, `create_blackhole_output_stream` and the `_test_*` functions are left out. They print, wrap sounddevice or generate floating-point audio.
- AudioManager: PyAudio initialisation and `cleanup` are foreign library calls and are left out.
- Llm: the Groq client, `CustomGroqLLM.__init__`, `chat`, and `ChatContextManager.__aenter__`/`__aexit__` are left out (environment lookup, network call, async context). Search scores are carried as opaque reals.
- src/ai/voice_agent.py, main.py and `restart_application` are not part of this model. They are the LiveKit runtime and process re-execution.

## Findings

| source | as written | input that shows it | evidently intended | confidence | as-written member | corrected member |
|---|---|---|---|---|---|---|
| utils.py:77-79 | `get_user_input` (utils.py:13-16) turns EOFError into `None`, which the loop ignores, so the `except EOFError` branch that leaves and quits is never reached | standard input closed with no line typed (for example when run with `< /dev/null`): the loop spins forever and never leaves the meeting | end of input leaves the meeting once and returns 'quit' | high (not executed) | Assistant.EofSpinsForever | Assistant.IntendedSessionAlwaysReturns |
