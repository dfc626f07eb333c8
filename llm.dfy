/**
 * Message normalisation around the Groq chat model (src/ai/llm.py): the
 * text of a content object, the chat history as the model receives it,
 * the search hits pulled out of the executed tools, and the one-chunk
 * stream handed back to the agent runtime.
 */
module Llm {
  import opened Wrappers
  import opened Text

  /** The shapes `_extract_content` tells apart, in the order it tests
      them.  Text carried by an object is given as its `str()` rendering. */
  datatype Content =
    | Str(s: string)              // a `str`
    | WithText(text: string)      // any other object with a `text` attribute
    | ListOf(parts: seq<Part>)    // a list (it has no `text` attribute)
    | NoneValue                   // `None`
    | Other(rendered: string)     // anything else, by `str()`

  datatype Part =
    | TextPart(text: string)      // a part with a `text` attribute
    | PlainPart(rendered: string) // any other part, by `str()`

  function PartText(p: Part): string {
    match p
    case TextPart(t) => t
    case PlainPart(r) => r
  }

  /** The parts' texts joined with nothing in between. */
  function JoinParts(parts: seq<Part>): string {
    if parts == [] then [] else PartText(parts[0]) + JoinParts(parts[1..])
  }

  /** `_extract_content` */
  function ExtractContent(c: Content): string {
    match c
    case Str(s) => s
    case WithText(t) => t
    case ListOf(parts) => JoinParts(parts)
    case NoneValue => ""
    case Other(r) => r
  }

  /** A list's text is the concatenation of its pieces' texts, so splitting
      a list anywhere splits its text at the same place. */
  lemma {:induction false} ExtractListConcat(a: seq<Part>, b: seq<Part>)
    ensures ExtractContent(ListOf(a + b)) == ExtractContent(ListOf(a)) + ExtractContent(ListOf(b))
    decreases |a|
  {
    if a == [] {
      assert a + b == b;
    } else {
      assert (a + b)[1..] == a[1..] + b;
      ExtractListConcat(a[1..], b);
    }
  }

  /** A list of plain strings (each rendered as itself) has the text the
      strings spell when joined. */
  lemma {:induction false} ExtractPlainStrings(strs: seq<string>, parts: seq<Part>)
    requires |parts| == |strs|
    requires forall i :: 0 <= i < |parts| ==> parts[i] == PlainPart(strs[i])
    ensures ExtractContent(ListOf(parts)) == Flatten(strs)
    decreases |strs|
  {
    if strs != [] {
      ExtractPlainStrings(strs[1..], parts[1..]);
    }
  }

  function Flatten(strs: seq<string>): string {
    if strs == [] then [] else strs[0] + Flatten(strs[1..])
  }

  /** One item of the chat context; `None` for a missing attribute.  The
      role is given as its `str()` rendering. */
  datatype ChatItem = ChatItem(role: Option<string>, content: Option<Content>)

  /** One message as sent to the model. */
  datatype Message = Message(role: string, content: string)

  const CompoundModel := "compound-beta"
  const Greeting := Message("user", "Briefly greet semi-formally like you are entering a weekly standup with colleagues")

  /** White space only, which is when `not s.strip()` holds
      (`Text.StripEmptyIffBlank`). */
  predicate Blank(s: string) {
    forall i :: 0 <= i < |s| ==> IsSpace(s[i])
  }

  /** An item survives when it has both attributes and its text is not
      blank. */
  predicate Survives(item: ChatItem) {
    item.role.Some? && item.content.Some? && !Blank(ExtractContent(item.content.value))
  }

  function MessageOf(item: ChatItem): Message
    requires item.role.Some? && item.content.Some?
  {
    Message(item.role.value, ExtractContent(item.content.value))
  }

  /** The surviving items as messages, in order; none of them is blank. */
  function Kept(items: seq<ChatItem>): (r: seq<Message>)
    ensures |r| <= |items|
    ensures forall i :: 0 <= i < |r| ==> !Blank(r[i].content)
  {
    if items == [] then []
    else (if Survives(items[0]) then [MessageOf(items[0])] else []) + Kept(items[1..])
  }

  /** One unfolding of `Kept`, spelled out for the loop below. */
  lemma KeptStep(items: seq<ChatItem>)
    requires items != []
    ensures Kept(items) == (if Survives(items[0]) then [MessageOf(items[0])] else []) + Kept(items[1..])
  {
  }

  /** The greeting is added for "compound-beta" when the only message left
      is a system message, so that the last message comes from the user. */
  predicate NeedsGreeting(model: string, kept: seq<Message>) {
    model == CompoundModel && |kept| == 1 && kept[0].role == "system"
  }

  function ConvertSpec(model: string, items: seq<ChatItem>): seq<Message> {
    var kept := Kept(items);
    if NeedsGreeting(model, kept) then kept + [Greeting] else kept
  }

  /** `_convert_messages` */
  method ConvertMessages(model: string, items: seq<ChatItem>) returns (messages: seq<Message>)
    ensures messages == ConvertSpec(model, items)
  {
    messages := [];
    for i := 0 to |items|
      invariant Kept(items) == messages + Kept(items[i..])
    {
      var item := items[i];
      KeptStep(items[i..]);
      assert items[i..][0] == item && items[i..][1..] == items[i + 1..];
      ghost var tail := Kept(items[i + 1..]);
      if !(item.role.Some? && item.content.Some?) {
        assert Kept(items[i..]) == tail;
        continue;
      }
      var content := ExtractContent(item.content.value);
      StripEmptyIffBlank(content);
      if Strip(content) == [] {
        assert Kept(items[i..]) == tail;
        continue;
      }
      assert Kept(items[i..]) == [Message(item.role.value, content)] + tail;
      messages := messages + [Message(item.role.value, content)];
    }
    assert items[|items|..] == [];
    assert messages == Kept(items);
    if model == CompoundModel && messages != [] {
      if |messages| == 1 && messages[0].role == "system" {
        messages := messages + [Greeting];
      }
    }
  }

  /** Filtering distributes over concatenation: the kept messages of a
      history are those of its parts, in the same order. */
  lemma {:induction false} KeptAppend(a: seq<ChatItem>, b: seq<ChatItem>)
    ensures Kept(a + b) == Kept(a) + Kept(b)
    decreases |a|
  {
    if a == [] {
      assert a + b == b;
    } else {
      assert (a + b)[0] == a[0];
      assert (a + b)[1..] == a[1..] + b;
      KeptAppend(a[1..], b);
    }
  }

  /** An item is kept, unstripped, exactly when it survives. */
  lemma KeptSingle(item: ChatItem)
    ensures Kept([item]) == if Survives(item) then [Message(item.role.value, ExtractContent(item.content.value))] else []
  {
    assert [item][1..] == [];
  }

  /** The converted history is the kept messages, followed by the greeting
      exactly when it is needed; so it is at most one longer than the
      input and the greeting is the only message not taken from it. */
  lemma ConvertShape(model: string, items: seq<ChatItem>)
    ensures var out := ConvertSpec(model, items);
      && out[..|Kept(items)|] == Kept(items)
      && (|out| == |Kept(items)| + 1 <==> NeedsGreeting(model, Kept(items)))
      && (|out| > |Kept(items)| ==> out[|out| - 1] == Greeting)
      && |out| <= |items| + 1
  {
  }

  /** A search hit; `None` for a missing attribute.  Scores are carried
      through unchanged. */
  datatype Hit = Hit(title: Option<string>, url: Option<string>, score: Option<real>)

  datatype SearchResult = SearchResult(title: string, url: string, score: real)

  /** What a tool's `search_results.results` gives when iterated. */
  datatype Listing =
    | Absent                        // no (or a falsy) `search_results`, or no `results`
    | Results(hits: seq<Hit>)       // iterated to the end
    | Unreadable(before: seq<Hit>)  // iteration raised after yielding `before`

  /** An executed tool; `kind` is its `type`, `None` when it has none. */
  datatype Tool = Tool(kind: Option<string>, listing: Listing)

  predicate Complete(h: Hit) {
    h.title.Some? && h.url.Some? && h.score.Some?
  }

  function ResultOf(h: Hit): SearchResult
    requires Complete(h)
  {
    SearchResult(h.title.value, h.url.value, h.score.value)
  }

  /** The complete hits, in order. */
  function CompleteHits(hits: seq<Hit>): (r: seq<SearchResult>)
    ensures |r| <= |hits|
    ensures forall x :: x in r ==> exists i :: 0 <= i < |hits| && Complete(hits[i]) && x == ResultOf(hits[i])
  {
    if hits == [] then []
    else
      var init := hits[..|hits| - 1];
      var last := hits[|hits| - 1];
      var rest := CompleteHits(init);
      assert forall x :: x in rest ==> exists i :: 0 <= i < |hits| && Complete(hits[i]) && x == ResultOf(hits[i]) by {
        forall x | x in rest
          ensures exists i :: 0 <= i < |hits| && Complete(hits[i]) && x == ResultOf(hits[i])
        {
          var i :| 0 <= i < |init| && Complete(init[i]) && x == ResultOf(init[i]);
          assert hits[i] == init[i];
        }
      }
      rest + (if Complete(last) then [ResultOf(last)] else [])
  }

  predicate IsSearch(t: Tool) {
    t.kind == Some("search")
  }

  /** `_extract_search_results` as a function: the complete hits of the
      search tools, in order, up to the first listing whose iteration
      raises. */
  function Collect(tools: seq<Tool>): seq<SearchResult> {
    if tools == [] then []
    else if !IsSearch(tools[0]) then Collect(tools[1..])
    else
      match tools[0].listing
      case Absent => Collect(tools[1..])
      case Results(hits) => CompleteHits(hits) + Collect(tools[1..])
      case Unreadable(before) => CompleteHits(before)
  }

  /** `_extract_search_results` */
  method ExtractSearchResults(tools: seq<Tool>) returns (results: seq<SearchResult>)
    ensures results == Collect(tools)
  {
    results := [];
    for i := 0 to |tools|
      invariant Collect(tools) == results + Collect(tools[i..])
    {
      assert tools[i..][1..] == tools[i + 1..];
      var tool := tools[i];
      if IsSearch(tool) && !tool.listing.Absent? {
        var hits := if tool.listing.Results? then tool.listing.hits else tool.listing.before;
        ghost var start := results;
        for j := 0 to |hits|
          invariant results == start + CompleteHits(hits[..j])
        {
          assert hits[..j + 1][..j] == hits[..j];
          var hit := hits[j];
          if hit.title.Some? && hit.url.Some? && hit.score.Some? {
            results := results + [SearchResult(hit.title.value, hit.url.value, hit.score.value)];
          }
        }
        assert hits[..|hits|] == hits;
        if tool.listing.Unreadable? {
          // the exception handler returns what was built so far
          return;
        }
      }
    }
  }

  /** Appending to the hit list appends to the results. */
  lemma {:induction false} CompleteHitsAppend(a: seq<Hit>, b: seq<Hit>)
    ensures CompleteHits(a + b) == CompleteHits(a) + CompleteHits(b)
    decreases |b|
  {
    if b == [] {
      assert a + b == a;
    } else {
      var n := |b| - 1;
      assert (a + b)[..|a + b| - 1] == a + b[..n];
      assert (a + b)[|a + b| - 1] == b[n];
      CompleteHitsAppend(a, b[..n]);
    }
  }

  predicate Readable(t: Tool) {
    !(IsSearch(t) && t.listing.Unreadable?)
  }

  /** With readable listings, the tools before and after a split point
      contribute independently and in order. */
  lemma {:induction false} CollectAppend(a: seq<Tool>, b: seq<Tool>)
    requires forall i :: 0 <= i < |a| ==> Readable(a[i])
    ensures Collect(a + b) == Collect(a) + Collect(b)
    decreases |a|
  {
    if a == [] {
      assert a + b == b;
    } else {
      assert (a + b)[0] == a[0];
      assert (a + b)[1..] == a[1..] + b;
      CollectAppend(a[1..], b);
    }
  }

  /** An error while reading a search tool's hits keeps everything found
      so far, including that tool's earlier hits, and drops every later
      tool. */
  lemma ErrorKeepsResultsSoFar(a: seq<Tool>, before: seq<Hit>, b: seq<Tool>)
    requires forall i :: 0 <= i < |a| ==> Readable(a[i])
    ensures Collect(a + [Tool(Some("search"), Unreadable(before))] + b) == Collect(a) + CompleteHits(before)
  {
    var t := Tool(Some("search"), Unreadable(before));
    CollectAppend(a, [t] + b);
    assert a + [t] + b == a + ([t] + b);
  }

  /** Only search tools count: any other tool adds nothing. */
  lemma NonSearchIgnored(t: Tool, rest: seq<Tool>)
    requires !IsSearch(t)
    ensures Collect([t] + rest) == Collect(rest)
  {
    assert ([t] + rest)[1..] == rest;
  }

  /** The one chunk the stream yields. */
  datatype Chunk = Chunk(id: string, role: string, content: string)

  /** `CustomGroqLLMStream`: a finished answer handed out as one chunk. */
  class GroqStream {
    const requestId: string
    const content: string
    var sent: bool

    constructor (requestId: string, content: string)
      ensures this.requestId == requestId && this.content == content && !sent
    {
      this.requestId := requestId;
      this.content := content;
      sent := false;
    }

    /** `__anext__`: the whole answer the first time, then end of
        iteration (`None`) on every later call. */
    method Next() returns (chunk: Option<Chunk>)
      modifies this
      ensures chunk == if old(sent) then None else Some(Chunk(requestId, "assistant", content))
      ensures sent
    {
      if sent {
        return None;
      }
      sent := true;
      chunk := Some(Chunk(requestId, "assistant", content));
    }
  }
}
