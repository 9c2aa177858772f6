/**
  The per-session state of the web control panel: the agent handle and the
  chat transcript kept in `st.session_state`, how a script run initialises
  them, how a submitted prompt is appended, and how the clear button
  empties the transcript.
 */
module ChatSession {
  import opened Wrappers

  datatype Role = User | Assistant

  /** One `{"role": ..., "content": ...}` entry of `chat_history`. */
  datatype Entry = Entry(role: Role, content: string)

  /** The Manus agent. It is constructed and run outside this model; here it
      is only told apart from other handles. */
  datatype AgentHandle = AgentHandle(id: nat)

  /** What the chat area reports for one run of the script. */
  datatype Banner = NoBanner | TaskDone | ErrorShown

  /** Python truthiness of what `st.chat_input` returns: None and "" are
      false, every other string (whitespace included) is true. */
  predicate Truthy(prompt: Option<string>)
  {
    prompt.Some? && prompt.value != ""
  }

  /** The two session keys; None where the key is absent. */
  datatype State = State(agent: Option<AgentHandle>, chatHistory: Option<seq<Entry>>)

  /** The session initialisation at the top of every script run: each key is
      set only when it is absent. */
  function Initialized(s: State, made: AgentHandle): (r: State)
    ensures r.agent.Some? && r.chatHistory.Some?
    ensures s.agent.Some? ==> r.agent == s.agent
    ensures s.chatHistory.Some? ==> r.chatHistory == s.chatHistory
    ensures s == State(None, None) ==> r == State(Some(made), Some([]))
  {
    State(if s.agent.None? then Some(made) else s.agent,
          if s.chatHistory.None? then Some([]) else s.chatHistory)
  }

  /** The transcript after a chat input: a truthy prompt adds exactly one
      user entry at the end; anything else leaves the transcript alone. */
  function Appended(history: seq<Entry>, prompt: Option<string>): (r: seq<Entry>)
    ensures |r| == |history| + (if Truthy(prompt) then 1 else 0)
    ensures r[..|history|] == history
    ensures Truthy(prompt) ==> r[|history|] == Entry(User, prompt.value)
  {
    if Truthy(prompt) then history + [Entry(User, prompt.value)] else history
  }

  // ---------------------------------------------------------------------
  // Initialisation
  // ---------------------------------------------------------------------

  /** Re-running the script does not create a second agent or lose the
      transcript: initialisation is idempotent. */
  lemma InitIsIdempotent(s: State, first: AgentHandle, second: AgentHandle)
    ensures Initialized(Initialized(s, first), second) == Initialized(s, first)
  {
  }

  // ---------------------------------------------------------------------
  // A session as a sequence of user actions
  // ---------------------------------------------------------------------

  /** A user action that touches the transcript. */
  datatype Event = Submit(prompt: Option<string>, agentRaises: bool) | Clear

  function Step(history: seq<Entry>, e: Event): seq<Entry>
  {
    match e
    case Submit(prompt, _) => Appended(history, prompt)
    case Clear => []
  }

  /** The transcript after a session's actions, starting from `[]`. */
  function Replay(events: seq<Event>): seq<Entry>
  {
    if events == [] then [] else Step(Replay(events[..|events| - 1]), events[|events| - 1])
  }

  /** The actions after the last clear. */
  function SinceLastClear(events: seq<Event>): seq<Event>
  {
    if events == [] then []
    else if events[|events| - 1].Clear? then []
    else SinceLastClear(events[..|events| - 1]) + [events[|events| - 1]]
  }

  /** One user entry per truthy prompt, in order. */
  function Prompts(events: seq<Event>): (r: seq<Entry>)
    ensures forall i :: 0 <= i < |r| ==> r[i].role == User && r[i].content != ""
  {
    if events == [] then []
    else (if events[0].Submit? && Truthy(events[0].prompt) then [Entry(User, events[0].prompt.value)] else [])
         + Prompts(events[1..])
  }

  lemma {:induction false} PromptsSnoc(events: seq<Event>, e: Event)
    ensures Prompts(events + [e]) == Prompts(events) + Prompts([e])
  {
    if events != [] {
      assert (events + [e])[1..] == events[1..] + [e];
      PromptsSnoc(events[1..], e);
    } else {
      assert events + [e] == [e];
    }
  }

  /** The transcript holds exactly the truthy prompts submitted since the
      last clear, as user entries, in order; the agent's outcome plays no
      part and no assistant entry ever appears. */
  lemma {:induction false} ReplayIsPromptsSinceClear(events: seq<Event>)
    ensures Replay(events) == Prompts(SinceLastClear(events))
    ensures forall i :: 0 <= i < |Replay(events)| ==> Replay(events)[i].role == User
  {
    if events != [] {
      var front, last := events[..|events| - 1], events[|events| - 1];
      ReplayIsPromptsSinceClear(front);
      if !last.Clear? {
        PromptsSnoc(SinceLastClear(front), last);
      }
    }
  }

  // ---------------------------------------------------------------------
  // The session state object
  // ---------------------------------------------------------------------

  /** `st.session_state`, as far as this script uses it. */
  class Session {
    var agent: Option<AgentHandle>
    var chatHistory: Option<seq<Entry>>

    /** A new browser session: neither key is present. */
    constructor ()
      ensures agent == None && chatHistory == None
    {
      agent := None;
      chatHistory := None;
    }

    function Snapshot(): State
      reads this
    {
      State(agent, chatHistory)
    }

    /** Set `agent` and `chat_history` if absent; `constructed` tells whether
        a new agent was made. */
    method Init(made: AgentHandle) returns (constructed: bool)
      modifies this
      ensures Snapshot() == Initialized(old(Snapshot()), made)
      ensures constructed <==> old(agent).None?
    {
      constructed := agent.None?;
      if constructed {
        agent := Some(made);
      }
      if chatHistory.None? {
        chatHistory := Some([]);
      }
    }

    /** A chat input. A truthy prompt is appended as a user entry and the
        agent is run on it (`invoked`); whether the run raises decides only
        the banner, not the transcript. */
    method Submit(prompt: Option<string>, agentRaises: bool) returns (invoked: Option<string>, banner: Banner)
      requires Truthy(prompt) ==> agent.Some? && chatHistory.Some?
      modifies this
      ensures agent == old(agent)
      ensures Truthy(prompt) ==> chatHistory == Some(Appended(old(chatHistory).value, prompt))
      ensures !Truthy(prompt) ==> chatHistory == old(chatHistory)
      ensures invoked == if Truthy(prompt) then prompt else None
      ensures banner == if !Truthy(prompt) then NoBanner else if agentRaises then ErrorShown else TaskDone
    {
      invoked, banner := None, NoBanner;
      if Truthy(prompt) {
        chatHistory := Some(chatHistory.value + [Entry(User, prompt.value)]);
        invoked := prompt;
        banner := if agentRaises then ErrorShown else TaskDone;
      }
    }

    /** The clear button: the transcript becomes `[]`; the agent is kept. */
    method ClearHistory()
      modifies this
      ensures chatHistory == Some([])
      ensures agent == old(agent)
    {
      chatHistory := Some([]);
    }
  }
}
