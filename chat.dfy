/**
 * The assistant chat: the session's `chat_history` list of (speaker, text)
 * pairs, the message list sent to the chat-completion service, and the reply
 * recorded after each submission. The completion call itself is network I/O;
 * the model takes what it ended in as a value.
 */
module Chat {
  import opened Wrappers
  import PyText

  datatype Entry = Entry(speaker: string, text: string)

  datatype Role = System | User | Assistant

  datatype Message = Message(role: Role, content: string)

  const UserSpeaker := "You"
  const AiSpeaker := "AI"
  const Placeholder := "Loading..."
  const SystemPrompt := "You are a helpful medical AI assistant."
  const ErrorPrefix := "\U{274C} OpenAI error: "

  /** The "in progress" entry the comprehension leaves out. */
  predicate IsPlaceholder(e: Entry) {
    e.speaker == AiSpeaker && e.text == Placeholder
  }

  /** One comprehension element: "You" speaks as the user, every other speaker as the assistant. */
  function ToMessage(e: Entry): (m: Message)
    ensures m.role != System
    ensures m.role == User <==> e.speaker == UserSpeaker
    ensures m.content == e.text
  {
    if e.speaker == UserSpeaker then Message(User, e.text) else Message(Assistant, e.text)
  }

  /** The comprehension over the history: placeholders dropped, the rest converted in order. */
  function Replay(history: seq<Entry>): seq<Message>
    decreases |history|
  {
    if |history| == 0 then []
    else
      var n := |history| - 1;
      Replay(history[..n]) + (if IsPlaceholder(history[n]) then [] else [ToMessage(history[n])])
  }

  /** The ascending positions of the entries that are not placeholders. */
  function Kept(history: seq<Entry>): seq<nat>
    decreases |history|
  {
    if |history| == 0 then []
    else
      var n := |history| - 1;
      Kept(history[..n]) + (if IsPlaceholder(history[n]) then [] else [n])
  }

  /** The `messages` argument: the system instruction, then the replayed history. */
  function BuildRequest(history: seq<Entry>): (ms: seq<Message>)
    ensures |ms| == 1 + |Replay(history)|
    ensures ms[0] == Message(System, SystemPrompt) && ms[1..] == Replay(history)
  {
    [Message(System, SystemPrompt)] + Replay(history)
  }

  /** Every kept position is in range, holds no placeholder, and the positions increase. */
  lemma {:induction false} KeptSound(history: seq<Entry>)
    ensures forall k :: 0 <= k < |Kept(history)| ==>
      Kept(history)[k] < |history| && !IsPlaceholder(history[Kept(history)[k]])
    ensures forall k, l :: 0 <= k < l < |Kept(history)| ==> Kept(history)[k] < Kept(history)[l]
    decreases |history|
  {
    if |history| > 0 {
      KeptSound(history[..|history| - 1]);
    }
  }

  /** Every entry that is not a placeholder is kept. */
  lemma {:induction false} KeptComplete(history: seq<Entry>)
    ensures forall i :: 0 <= i < |history| && !IsPlaceholder(history[i]) ==> i in Kept(history)
    decreases |history|
  {
    if |history| > 0 {
      var n := |history| - 1;
      KeptComplete(history[..n]);
      forall i | 0 <= i < n && !IsPlaceholder(history[i])
        ensures i in Kept(history)
      {
        assert history[..n][i] == history[i];
      }
    }
  }

  /**
   * Message k + 1 of the request is the k-th kept entry, with role user
   * exactly when its speaker is "You" and its text unchanged.
   */
  lemma {:induction false} ReplayAt(history: seq<Entry>)
    ensures |Replay(history)| == |Kept(history)|
    ensures forall k :: 0 <= k < |Replay(history)| ==>
      Kept(history)[k] < |history| &&
      Replay(history)[k] == ToMessage(history[Kept(history)[k]])
    decreases |history|
  {
    KeptSound(history);
    if |history| > 0 {
      ReplayAt(history[..|history| - 1]);
    }
  }

  /** Replaying a history in two parts gives the two replays one after the other. */
  lemma {:induction false} ReplayAppend(h1: seq<Entry>, h2: seq<Entry>)
    ensures Replay(h1 + h2) == Replay(h1) + Replay(h2)
    decreases |h2|
  {
    if |h2| > 0 {
      var n := |h2| - 1;
      ReplayAppend(h1, h2[..n]);
      assert (h1 + h2)[..|h1| + n] == h1 + h2[..n];
    } else {
      assert h1 + h2 == h1;
    }
  }

  /** No message of the request is a system message apart from the first. */
  lemma NoSystemAfterFirst(history: seq<Entry>)
    ensures forall k :: 1 <= k < |BuildRequest(history)| ==> BuildRequest(history)[k].role != System
  {
    ReplayAt(history);
  }

  /** The user's new entry reaches the service as the last message, with role user. */
  lemma UserTurnIsLast(history: seq<Entry>, input: string)
    ensures BuildRequest(history + [Entry(UserSpeaker, input)])
      == BuildRequest(history) + [Message(User, input)]
  {
    var e := Entry(UserSpeaker, input);
    ReplayAppend(history, [e]);
    assert [e][..0] == [];
    assert Replay([e]) == [Message(User, input)];
  }

  /** What the completion call ended in. */
  datatype ChatOutcome =
    | Completed(content: string)  // `choices[0].message.content` of the answer
    | Failed(message: string)     // the call or the reading of its answer raised; `str(e)`

  /** The `reply` appended as the assistant's entry. */
  function ReplyText(outcome: ChatOutcome): (r: string)
    ensures outcome.Completed? ==> r == PyText.Strip(outcome.content)
    ensures outcome.Failed? ==> |ErrorPrefix| <= |r| && r[..|ErrorPrefix|] == ErrorPrefix
    ensures outcome.Failed? ==> r[|ErrorPrefix|..] == outcome.message
  {
    match outcome
    case Completed(content) => PyText.Strip(content)
    case Failed(message) => ErrorPrefix + message
  }

  /** A completed reply neither begins nor ends with white space. */
  lemma CompletedReplyTrimmed(content: string)
    ensures var r := ReplyText(Completed(content));
      r == [] || (!PyText.IsSpace(r[0]) && !PyText.IsSpace(r[|r| - 1]))
  {
    var i, j := PyText.StripSlice(content);
    var r := ReplyText(Completed(content));
    if r != [] {
      assert r[0] == content[i] && r[|r| - 1] == content[j - 1];
    }
  }

  /** The chat state of one session. */
  class ChatSession {
    var history: seq<Entry>

    /** A new session starts with an empty history. */
    constructor ()
      ensures history == []
    {
      history := [];
    }

    /**
     * One run of the chat handler with the text box holding `input`. An empty
     * input does nothing. Otherwise the user's entry is appended, the request
     * built from the history so far is sent (returned here), and the
     * assistant's reply is appended.
     */
    method Submit(input: string, outcome: ChatOutcome) returns (request: Option<seq<Message>>)
      modifies this
      ensures input == [] ==> request == None && history == old(history)
      ensures input != [] ==>
        && request == Some(BuildRequest(old(history) + [Entry(UserSpeaker, input)]))
        && history == old(history) + [Entry(UserSpeaker, input), Entry(AiSpeaker, ReplyText(outcome))]
    {
      if input == [] {
        return None;
      }
      var asked := history + [Entry(UserSpeaker, input)];
      history := asked;
      request := Some(BuildRequest(asked));
      var reply := ReplyText(outcome);
      history := asked + [Entry(AiSpeaker, reply)];
    }
  }
}
