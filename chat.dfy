/**
 * The chat history kept in Streamlit's session state and what one run of the
 * script does to it (app.py:43-44, 52-60, 77-105).
 */
module Chat {
  import opened Wrappers
  import opened Prompt
  import opened Reply

  datatype Role = User | Assistant

  /** One entry of `st.session_state.messages`: `{"role": ..., "content": ...}`. */
  datatype Message = Message(role: Role, content: string)

  /**
   * How a turn ended. `Completed` carries the request the turn posted and the
   * reply it recorded. `Raised` is the turn that stopped with an exception
   * at app.py:60 because no feature-importance table was loaded.
   */
  datatype TurnResult = Completed(request: Request, reply: string) | Raised

  /**
   * The history after one turn: the question is appended; when the table is
   * loaded the reply follows it, otherwise the turn stops after the question.
   */
  function HistoryAfterTurn(h: seq<Message>, input: string, facts: Option<Table>, outcome: Outcome): (r: seq<Message>)
    ensures |r| == |h| + (if facts.Some? then 2 else 1)
    ensures r[..|h|] == h
    ensures r[|h|] == Message(User, input)
    ensures facts.Some? ==> r[|h| + 1] == Message(Assistant, ReplyOf(outcome))
  {
    var asked := h + [Message(User, input)];
    if facts.Some? then asked + [Message(Assistant, ReplyOf(outcome))] else asked
  }

  /** A history made of question/reply pairs: user, assistant, user, assistant, ... */
  predicate Alternating(h: seq<Message>)
    decreases |h|
  {
    h == [] || (|h| >= 2 && h[0].role == User && h[1].role == Assistant && Alternating(h[2..]))
  }

  lemma {:induction false} AlternatingIsEven(h: seq<Message>)
    requires Alternating(h)
    ensures |h| % 2 == 0
    decreases |h|
  {
    if h != [] {
      AlternatingIsEven(h[2..]);
    }
  }

  lemma {:induction false} AlternatingAppendPair(h: seq<Message>, question: Message, answer: Message)
    requires Alternating(h)
    requires question.role == User && answer.role == Assistant
    ensures Alternating(h + [question, answer])
    decreases |h|
  {
    if h == [] {
      assert (h + [question, answer])[2..] == [];
    } else {
      assert (h + [question, answer])[2..] == h[2..] + [question, answer];
      AlternatingAppendPair(h[2..], question, answer);
    }
  }

  /**
   * With the table loaded, every turn adds one question and its reply, so a
   * history of question/reply pairs stays one, whatever the backend did.
   */
  lemma {:induction false} CompletedTurnKeepsPairs(h: seq<Message>, input: string, t: Table, outcome: Outcome)
    requires Alternating(h)
    ensures Alternating(HistoryAfterTurn(h, input, Some(t), outcome))
  {
    var r := HistoryAfterTurn(h, input, Some(t), outcome);
    assert r == h + [Message(User, input), Message(Assistant, ReplyOf(outcome))];
    AlternatingAppendPair(h, Message(User, input), Message(Assistant, ReplyOf(outcome)));
  }

  /** Without the table the question is left unanswered: the history is no longer made of pairs. */
  lemma {:induction false} RaisedTurnLeavesQuestionOpen(h: seq<Message>, input: string, outcome: Outcome)
    requires Alternating(h)
    ensures !Alternating(HistoryAfterTurn(h, input, None, outcome))
  {
    AlternatingIsEven(h);
    var r := HistoryAfterTurn(h, input, None, outcome);
    if Alternating(r) {
      AlternatingIsEven(r);
    }
  }

  /** `st.chat_input` gives a question only when the user submitted a non-empty text. */
  predicate Submitted(input: Option<string>) {
    input.Some? && input.value != ""
  }

  /** One browser session's `st.session_state`, of which the model keeps the `messages` entry. */
  class Session {
    /** `None` until app.py:44 has created the entry. */
    var messages: Option<seq<Message>>

    /** A new session: its state has no `messages` entry yet. */
    constructor ()
      ensures messages == None
    {
      messages := None;
    }

    /** Creates an empty history when there is none; an existing history is left as it is. */
    method InitHistory()
      modifies this
      ensures messages.Some?
      ensures old(messages).Some? ==> messages == old(messages)
      ensures old(messages).None? ==> messages == Some([])
    {
      if messages.None? {
        messages := Some([]);
      }
    }

    /**
     * One chat turn: append the question, build the request, turn the outcome
     * of posting it into the reply and append that. Without a loaded table the
     * turn raises at the context step, after the question was appended.
     */
    method Turn(input: string, facts: Option<Table>, outcome: Outcome) returns (result: TurnResult)
      requires messages.Some?
      modifies this
      ensures messages == Some(HistoryAfterTurn(old(messages).value, input, facts, outcome))
      ensures facts.None? ==> result == Raised
      ensures facts.Some? ==> result == Completed(RequestOf(facts.value, input), ReplyOf(outcome))
    {
      messages := Some(messages.value + [Message(User, input)]);
      if facts.None? {
        return Raised;
      }
      var request := RequestOf(facts.value, input);
      var fullResponse := ReplyOf(outcome);
      messages := Some(messages.value + [Message(Assistant, fullResponse)]);
      result := Completed(request, fullResponse);
    }

    /**
     * One run of the script: make sure the history exists, then take a turn
     * if the user submitted a question. `outcome` is how the POST of that
     * turn's request ends.
     */
    method Run(input: Option<string>, facts: Option<Table>, outcome: Outcome) returns (result: Option<TurnResult>)
      modifies this
      ensures var before := if old(messages).Some? then old(messages).value else [];
        messages == Some(if Submitted(input) then HistoryAfterTurn(before, input.value, facts, outcome) else before)
      ensures Submitted(input) <==> result.Some?
      ensures Submitted(input) && facts.Some? ==>
        result == Some(Completed(RequestOf(facts.value, input.value), ReplyOf(outcome)))
      ensures Submitted(input) && facts.None? ==> result == Some(Raised)
    {
      InitHistory();
      if Submitted(input) {
        var turn := Turn(input.value, facts, outcome);
        result := Some(turn);
      } else {
        result := None;
      }
    }
  }

  /** A fresh session whose first question is answered, then one whose backend is down. */
  method FreshSessionScenarios(answer: string)
  {
    var t := Table("feature  importance", ["smart_5_raw  0.31"]);
    var s := new Session();
    var r := s.Run(Some("Zakaj je smart_5 tako pomemben?"), Some(t), Http(200, Some(answer)));
    assert |s.messages.value| == 2;
    assert s.messages.value[0] == Message(User, "Zakaj je smart_5 tako pomemben?");
    assert s.messages.value[1] == Message(Assistant, answer);

    var down := new Session();
    r := down.Run(Some("Zakaj je smart_5 tako pomemben?"), Some(t), ConnectionError);
    assert down.messages.value[1] == Message(Assistant, ConnectionMessage);

    r := down.Run(None, Some(t), ConnectionError);
    assert |down.messages.value| == 2;
  }
}
