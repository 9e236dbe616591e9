/** The conversation kept in the browser session: the thread id, the list of
    turns, and how one submission appends a user turn and an assistant turn
    (streamlit_app.py:33-37, 46-48, 88-95, 101-119). */
module Conversation {
  import opened Text
  import opened BackendUrl

  datatype Role = User | Assistant

  /** The agent's JSON reply object, reduced to the keys this client reads. A field is
      `None` when its key is absent or null. `otherKeys` names every key present whose value
      no field carries: keys of other names, and any of these five whose value is null. */
  datatype Meta = Meta(
    platform: Option<string>,
    slug: Option<string>,
    finalText: Option<string>,
    response: Option<string>,
    files: Option<map<string, string>>,
    otherKeys: set<string>)
  {
    /** The reply is `{}`, which Python treats as false: no key at all, not even a null one. */
    predicate IsEmpty() {
      && platform.None? && slug.None? && finalText.None? && response.None?
      && files.None? && otherKeys == {}
    }
  }

  /** One entry of the history: `{role, content}` for a user turn or a failed call,
      `{role, content, meta}` for an answered call. */
  datatype Turn = Turn(role: Role, content: string, meta: Option<Meta>)

  /** What the blocking call to `/run_agent` came to: a JSON object, or the description of
      the exception raised on the way (transport error, timeout, non-2xx status, a body that
      is not a JSON object). */
  datatype Outcome = Replied(data: Meta) | Failed(description: string)

  /** The POST the client sends for one submission. */
  datatype AgentRequest = AgentRequest(url: string, threadId: string, userInput: string)

  const ErrorPrefix: string := "Error calling backend: "

  /** `data.get("final_text") or data.get("response") or ""`. */
  function AssistantText(data: Meta): (text: string)
    ensures Truthy(data.finalText) ==> text == data.finalText.value
    ensures !Truthy(data.finalText) && Truthy(data.response) ==> text == data.response.value
    ensures text == "" <==> !Truthy(data.finalText) && !Truthy(data.response)
  {
    var candidates := [data.finalText, data.response];
    assert Truthy(data.finalText) ==> FirstTruthyAt(candidates, 0);
    assert !Truthy(data.finalText) && Truthy(data.response) ==> FirstTruthyAt(candidates, 1);
    FirstTruthy(candidates, "")
  }

  /** The assistant turn recorded for the outcome of one call. */
  function ReplyTurn(outcome: Outcome): Turn {
    match outcome
    case Replied(data) => Turn(Assistant, AssistantText(data), Some(data))
    case Failed(description) => Turn(Assistant, ErrorPrefix + description, None)
  }

  /** The history after one submission of `task` whose call came to `outcome`. */
  function AfterSubmit(history: seq<Turn>, task: string, outcome: Outcome): (h: seq<Turn>)
    ensures |h| == |history| + 2
    ensures h[..|history|] == history
    ensures h[|history|] == Turn(User, task, None)
    ensures h[|history| + 1].role == Assistant
    ensures outcome.Replied? ==>
      h[|history| + 1].meta == Some(outcome.data) && h[|history| + 1].content == AssistantText(outcome.data)
    ensures outcome.Failed? ==>
      h[|history| + 1].meta == None && h[|history| + 1].content == ErrorPrefix + outcome.description
  {
    history + [Turn(User, task, None), ReplyTurn(outcome)]
  }

  /** The keys of `st.session_state` this client owns. `None` is a key not yet set. */
  class Session {
    var threadId: Option<string>
    var history: Option<seq<Turn>>

    predicate Initialized()
      reads this
    {
      threadId.Some? && history.Some?
    }

    /** A new browser session starts with no keys set. */
    constructor ()
      ensures threadId == None && history == None
    {
      threadId := None;
      history := None;
    }

    /** The start of every script run: each key is set only if absent, the thread id to the
        freshly generated `freshId`, the history to the empty list. */
    method Initialize(freshId: string)
      modifies this
      ensures Initialized()
      ensures threadId == if old(threadId).Some? then old(threadId) else Some(freshId)
      ensures history == if old(history).Some? then old(history) else Some([])
      ensures old(Initialized()) ==> threadId == old(threadId) && history == old(history)
    {
      if threadId.None? {
        threadId := Some(freshId);
      }
      if history.None? {
        history := Some([]);
      }
    }

    /** "New conversation": a new thread id and an empty history. */
    method NewConversation(freshId: string)
      modifies this
      ensures Initialized()
      ensures threadId == Some(freshId) && history == Some([])
    {
      threadId := Some(freshId);
      history := Some([]);
    }

    /** "Run agent": record the user turn, send `task` with the current thread id, and record
        the assistant turn for the call's `outcome`. Returns the request that was sent. */
    method Submit(cfg: Config, task: string, outcome: Outcome) returns (request: AgentRequest)
      requires Initialized()
      modifies this
      ensures Initialized() && threadId == old(threadId)
      ensures history == Some(AfterSubmit(old(history).value, task, outcome))
      ensures request == AgentRequest(cfg.apiUrl + cfg.serviceRootPath + "/run_agent", threadId.value, task)
    {
      ghost var before := history.value;
      history := Some(history.value + [Turn(User, task, None)]);
      request := AgentRequest(Api(cfg, "/run_agent"), threadId.value, task);
      match outcome {
        case Replied(data) =>
          history := Some(history.value + [Turn(Assistant, AssistantText(data), Some(data))]);
        case Failed(description) =>
          history := Some(history.value + [Turn(Assistant, ErrorPrefix + description, None)]);
      }
      assert history.value == before + [Turn(User, task, None), ReplyTurn(outcome)];
    }
  }

  /** The earlier turns are never changed by a submission. */
  lemma SubmitKeepsEarlierTurns(history: seq<Turn>, task: string, outcome: Outcome, i: int)
    requires 0 <= i < |history|
    ensures AfterSubmit(history, task, outcome)[i] == history[i]
  {
  }

  /** The scenario of one LinkedIn post: the reply's text becomes the assistant turn. */
  lemma LinkedInTranscript()
    ensures var data := Meta(Some("linkedin"), Some("ai-agents"), Some("Done"), None, Some(map[]), {});
      AfterSubmit([], "Create a LinkedIn post about AI agents", Replied(data))
        == [Turn(User, "Create a LinkedIn post about AI agents", None), Turn(Assistant, "Done", Some(data))]
  {
  }
}
