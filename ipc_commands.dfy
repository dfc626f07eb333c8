/**
 * The single-slot file channel between the voice agent and the browser
 * process (`IPCCommands`).  Two well-known files carry one command and one
 * response; each is a slot that is empty (no file), holds a serialised
 * document, or holds bytes that do not parse.
 *
 * Time is a counter of milliseconds advanced by the 100 ms sleep between
 * polls; the time spent reading files is not counted.  The other process is
 * an oracle `replies`: `replies[t]`, when present, is what it writes into
 * the response file just before poll number `t`.
 */
module IpcCommands {
  import opened Wrappers
  import opened JsonDoc

  /** `send_command` waits at most 5 seconds for a response ... */
  const ResponseTimeoutMs: nat := 5000
  /** ... sleeping 0.1 s between two looks at the response file. */
  const PollIntervalMs: nat := 100
  /** Number of looks at the response file before the deadline. */
  const Polls: nat := ResponseTimeoutMs / PollIntervalMs

  const CommandExecuted := JString("Command executed")
  const NoResponse := JString("Command sent but no response received")

  /** The document `send_command` writes: `params or {}` turns a missing
      parameter map into the empty one. */
  function CommandRecord(name: string, params: Option<map<string, Json>>, now: int): Json {
    JObject(map[
      "command" := JString(name),
      "params" := JObject(params.GetOr(map[])),
      "timestamp" := JNumber(now)])
  }

  /** The document `send_response` writes. */
  function ResponseRecord(result: string, now: int): Json {
    JObject(map["result" := JString(result), "timestamp" := JNumber(now)])
  }

  /** `response.get("result", "Command executed")` */
  function ResultOf(fields: map<string, Json>): Json {
    if "result" in fields then fields["result"] else CommandExecuted
  }

  /** The command a slot holds, if the file exists and parses. */
  function Pending(slot: Option<FileContent>): Option<Json> {
    if slot.Some? then Parse(slot.value) else None
  }

  /** What `check_for_command` hands back for a command slot: the parsed
      document, with JSON `null` becoming Python's `None`. */
  function Received(slot: Option<FileContent>): Option<Json> {
    var doc := Pending(slot);
    if doc == Some(JNull) then None else doc
  }

  /** The response file as poll `t` finds it. */
  function Arrived(slot: Option<FileContent>, replies: seq<Option<FileContent>>, t: nat): Option<FileContent> {
    if t < |replies| && replies[t].Some? then replies[t] else slot
  }

  /** True when a slot holds a parseable JSON object. */
  predicate IsObjectReply(slot: Option<FileContent>) {
    slot.Some? && slot.value.Serialized? && slot.value.doc.JObject?
  }

  /**
   * Polls `t` .. `Polls - 1` of `send_command`, starting from response file
   * `slot`: the result consumed (`None` when the deadline passes) and the
   * response file afterwards.  A file that does not parse is left alone; a
   * file that parses is deleted, and if it is not an object the `.get`
   * that follows fails and polling goes on.  Whenever a result is
   * returned, the response file has been consumed; after at least one
   * poll the file is gone or holds only bytes that do not parse.
   */
  function Await(slot: Option<FileContent>, replies: seq<Option<FileContent>>, t: nat)
    : (r: (Option<Json>, Option<FileContent>))
    ensures r.0.Some? ==> r.1 == None
    ensures t < Polls && r.1.Some? ==> r.1.value.Unparseable?
    decreases Polls - t
  {
    if t >= Polls then (None, slot)
    else
      var seen := Arrived(slot, replies, t);
      if seen.Some? && Parse(seen.value).Some? then
        var doc := Parse(seen.value).value;
        if doc.JObject? then (Some(ResultOf(doc.fields)), None)
        else Await(None, replies, t + 1)
      else Await(seen, replies, t + 1)
  }

  /** If no parseable object is in the response file before the deadline,
      the deadline passes without a result; a reply written later is
      never seen. */
  lemma {:induction false} NoReplyTimesOut(slot: Option<FileContent>, replies: seq<Option<FileContent>>, t: nat)
    requires !IsObjectReply(slot)
    requires forall k :: t <= k < Polls && k < |replies| ==> !IsObjectReply(replies[k])
    ensures Await(slot, replies, t).0 == None
    decreases Polls - t
  {
    if t < Polls {
      var seen := Arrived(slot, replies, t);
      if seen.Some? && Parse(seen.value).Some? {
        NoReplyTimesOut(None, replies, t + 1);
      } else {
        NoReplyTimesOut(seen, replies, t + 1);
      }
    }
  }

  /** A response file that does not parse stays in place through every
      poll, and the deadline passes. */
  lemma {:induction false} UnparseableStays(raw: string, replies: seq<Option<FileContent>>, t: nat)
    requires forall k :: t <= k < |replies| ==> replies[k].None?
    ensures Await(Some(Unparseable(raw)), replies, t) == (None, Some(Unparseable(raw)))
    decreases Polls - t
  {
    if t < Polls {
      UnparseableStays(raw, replies, t + 1);
    }
  }

  /** An object written into the response file before poll `k` is what
      `send_command` returns (its `result` field, or "Command executed"
      without one), whatever came before it that was not an object: no
      file, a half-written file, or JSON of another kind. */
  lemma {:induction false} ReplyReturned(fields: map<string, Json>, slot: Option<FileContent>,
                                         replies: seq<Option<FileContent>>, t: nat, k: nat)
    requires t <= k < Polls && k < |replies|
    requires replies[k] == Some(Serialized(JObject(fields)))
    requires !IsObjectReply(slot)
    requires forall j :: t <= j < k ==> !IsObjectReply(replies[j])
    ensures Await(slot, replies, t) == (Some(ResultOf(fields)), None)
    decreases k - t
  {
    if t < k {
      var seen := Arrived(slot, replies, t);
      assert !IsObjectReply(seen);
      if seen.Some? && Parse(seen.value).Some? {
        ReplyReturned(fields, None, replies, t + 1, k);
      } else {
        ReplyReturned(fields, seen, replies, t + 1, k);
      }
    }
  }

  /** Round trip through both files: what `send_response(result)` writes
      before poll `k` is exactly what the waiting `send_command` returns,
      and the file is then gone, even when a truncated or otherwise
      non-object file was seen first. */
  lemma ResponseRoundTrip(result: string, now: int, slot: Option<FileContent>,
                          replies: seq<Option<FileContent>>, k: nat)
    requires k < Polls && k < |replies|
    requires replies[k] == Some(Serialize(ResponseRecord(result, now)))
    requires !IsObjectReply(slot)
    requires forall j :: 0 <= j < k ==> !IsObjectReply(replies[j])
    ensures Await(slot, replies, 0) == (Some(JString(result)), None)
  {
    ReplyReturned(ResponseRecord(result, now).fields, slot, replies, 0, k);
  }

  /** The file `send_response` is still writing is empty at the first
      poll; the complete document is taken at a later one. */
  lemma TruncatedThenResponse(result: string, now: int)
    ensures Await(None, [Some(Unparseable("")), None, Some(Serialize(ResponseRecord(result, now)))], 0)
      == (Some(JString(result)), None)
  {
    ResponseRoundTrip(result, now, None,
      [Some(Unparseable("")), None, Some(Serialize(ResponseRecord(result, now)))], 2);
  }

  /** Correlation is implicit: a response left over from an earlier
      exchange is taken by the next `send_command` at its first poll. */
  lemma StaleResponseTaken(fields: map<string, Json>, replies: seq<Option<FileContent>>)
    requires |replies| == 0 || replies[0].None?
    ensures Await(Some(Serialized(JObject(fields))), replies, 0) == (Some(ResultOf(fields)), None)
  {
  }

  /** What `check_for_command` reads back from the file `send_command`
      wrote, an object and so never taken for "no command": the command
      name, the parameters (the empty map when none were given) and the
      timestamp. */
  lemma CommandRoundTrip(name: string, params: Option<map<string, Json>>, now: int)
    ensures var doc := Pending(Some(Serialize(CommandRecord(name, params, now))));
      && doc.Some? && doc.value.JObject?
      && Received(Some(Serialize(CommandRecord(name, params, now)))) == doc
      && doc.value.fields.Keys == {"command", "params", "timestamp"}
      && doc.value.fields["command"] == JString(name)
      && doc.value.fields["params"] == JObject(if params.Some? then params.value else map[])
      && doc.value.fields["timestamp"] == JNumber(now)
  {
  }

  /** The two files of `IPCCommands`, shared by both processes. */
  class IpcChannel {
    /** `/tmp/groquette_commands.json` */
    var command: Option<FileContent>
    /** `/tmp/groquette_responses.json` */
    var response: Option<FileContent>

    /** `__init__`: whatever an earlier run left behind is deleted. */
    constructor (leftCommand: Option<FileContent>, leftResponse: Option<FileContent>)
      ensures command == None && response == None
    {
      command := leftCommand;
      response := leftResponse;
      new;
      ClearFiles();
    }

    /** `_clear_files` */
    method ClearFiles()
      modifies this
      ensures command == None && response == None
    {
      if command.Some? {
        command := None;
      }
      if response.Some? {
        response := None;
      }
    }

    /**
     * `send_command`: overwrite the command file (an unconsumed earlier
     * command is lost), then poll the response file until 5 seconds have
     * passed.  The command file is never deleted here.
     */
    method SendCommand(name: string, params: Option<map<string, Json>>, now: int,
                       replies: seq<Option<FileContent>>) returns (result: Json)
      modifies this`command, this`response
      ensures command == Some(Serialize(CommandRecord(name, params, now)))
      ensures var outcome := Await(old(response), replies, 0);
              response == outcome.1 && result == outcome.0.GetOr(NoResponse)
    {
      command := Some(Serialize(CommandRecord(name, params, now)));
      var elapsed: nat := 0;
      while elapsed < ResponseTimeoutMs
        invariant elapsed <= ResponseTimeoutMs && elapsed % PollIntervalMs == 0
        invariant command == Some(Serialize(CommandRecord(name, params, now)))
        invariant Await(response, replies, elapsed / PollIntervalMs) == Await(old(response), replies, 0)
      {
        // the other process may have written the response since the last poll
        response := Arrived(response, replies, elapsed / PollIntervalMs);
        if response.Some? {
          var doc := Parse(response.value);
          if doc.Some? {
            response := None;
            if doc.value.JObject? {
              return ResultOf(doc.value.fields);
            }
          }
        }
        elapsed := elapsed + PollIntervalMs;
      }
      result := NoResponse;
    }

    /** `check_for_command`: a command that parses is returned and its
        file deleted, so a second call finds nothing; a file that does not
        parse is left where it is.  A file holding JSON `null` is deleted
        and read as Python's `None`, so the caller cannot tell it from "no
        command". */
    method CheckForCommand() returns (cmd: Option<Json>)
      modifies this`command
      ensures cmd == Received(old(command))
      ensures command == if Pending(old(command)).Some? then None else old(command)
      ensures Pending(command) == None
      ensures response == old(response)
    {
      if command.None? {
        return None;
      }
      var doc := Parse(command.value);
      if doc.Some? {
        command := None;
        cmd := if doc.value.JNull? then None else doc;
      } else {
        cmd := None;
      }
    }

    /** `send_response`: overwrite the response file. */
    method SendResponse(result: string, now: int)
      modifies this`response
      ensures response == Some(Serialize(ResponseRecord(result, now)))
      ensures command == old(command)
    {
      response := Some(Serialize(ResponseRecord(result, now)));
    }
  }
}
