/** One conversation turn of the assistant (backend/core/utils/chatgpt.py):
    the history window is fetched, the user's turn is stored, a preamble of
    system instructions is built, and preamble, window and new turn go to
    the language model, whose reply is stored and returned. The model is a
    parameter: a function from the prompt to a reply or a raised error. */
module Chat {
  import opened Wrappers
  import opened Messages

  /** `Sana.MAX_MESSAGES`. */
  const MAX_MESSAGES: nat := 6

  // The longer texts are written in two pieces, which lets the verifier
  // look at their characters.
  const DOCTOR_ROLE := "You are a doctor and a patient " + "asks for your opinion."
  const BREVITY := "Answer in less than 150 characters. " + "You can ask questions."
  const HISTORY_PREFIX := "The patient medical history is "
  const FINAL_RESPONSE := "This is your final response. " + "Give a diagnosis."

  /** A medical-history dictionary as its entries, each key and value
      already in the form Python's `repr` gives them. */
  type MedicalHistory = seq<(string, string)>

  /** `str` of the dictionary: `{k1: v1, k2: v2}`. */
  function RenderHistory(h: MedicalHistory): string {
    "{" + RenderEntries(h) + "}"
  }

  function RenderEntries(h: MedicalHistory): string {
    if h == [] then ""
    else if |h| == 1 then h[0].0 + ": " + h[0].1
    else h[0].0 + ": " + h[0].1 + ", " + RenderEntries(h[1..])
  }

  /** Python truthiness of the `medical_history` argument: `None` and `{}`
      are false. */
  predicate HasHistory(history: Option<MedicalHistory>) {
    history.Some? && history.value != []
  }

  function Instruction(text: string): ChatMessage {
    ChatMessage(System, text)
  }

  function HistoryInstruction(h: MedicalHistory): ChatMessage {
    Instruction(HISTORY_PREFIX + RenderHistory(h))
  }

  /** A system message announcing the medical history. */
  predicate IsHistoryInstruction(m: ChatMessage) {
    m.role == System && |HISTORY_PREFIX| <= |m.content| && m.content[..|HISTORY_PREFIX|] == HISTORY_PREFIX
  }

  predicate HasHistoryInstruction(p: seq<ChatMessage>) {
    exists i :: 0 <= i < |p| && IsHistoryInstruction(p[i])
  }

  /** The system messages of chatgpt.py:23-48 for a session (window plus
      new turn) of `sessionLength` turns. */
  function Preamble(sessionLength: nat, history: Option<MedicalHistory>, maxMessages: nat): seq<ChatMessage> {
    [Instruction(DOCTOR_ROLE), Instruction(BREVITY)]
      + (if sessionLength == 1 && HasHistory(history) then [HistoryInstruction(history.value)] else [])
      + (if sessionLength >= 2 * maxMessages - 1 then [Instruction(FINAL_RESPONSE)] else [])
  }

  /** `messages_to_send` of chatgpt.py:50. */
  function Prompt(window: seq<ChatMessage>, userMessage: string, history: Option<MedicalHistory>, maxMessages: nat): seq<ChatMessage> {
    Preamble(|window| + 1, history, maxMessages) + window + [ChatMessage(User, userMessage)]
  }

  /** The preamble always opens with the doctor-role instruction and then
      the brevity instruction, and holds system messages only. */
  lemma PreambleOpening(sessionLength: nat, history: Option<MedicalHistory>, maxMessages: nat)
    ensures var p := Preamble(sessionLength, history, maxMessages);
      && |p| >= 2
      && p[0] == Instruction(DOCTOR_ROLE) && p[1] == Instruction(BREVITY)
      && forall i :: 0 <= i < |p| ==> p[i].role == System
  {
  }

  /** None of the fixed instructions starts like the medical-history one. */
  lemma FixedInstructionsAreNotHistory()
    ensures !IsHistoryInstruction(Instruction(DOCTOR_ROLE))
    ensures !IsHistoryInstruction(Instruction(BREVITY))
    ensures !IsHistoryInstruction(Instruction(FINAL_RESPONSE))
  {
    var n := |HISTORY_PREFIX|;
    assert HISTORY_PREFIX[0] == 'T' && HISTORY_PREFIX[2] == 'e';
    assert DOCTOR_ROLE[0] == 'Y' && BREVITY[0] == 'A' && FINAL_RESPONSE[2] == 'i';
    assert DOCTOR_ROLE[..n][0] == 'Y' && BREVITY[..n][0] == 'A' && FINAL_RESPONSE[..n][2] == 'i';
  }

  /** The medical history is announced exactly when the session is the
      first turn and the history is truthy, and then right after the two
      fixed instructions. */
  lemma PreambleHistory(sessionLength: nat, history: Option<MedicalHistory>, maxMessages: nat)
    ensures var p := Preamble(sessionLength, history, maxMessages);
      HasHistoryInstruction(p) <==> sessionLength == 1 && HasHistory(history)
    ensures var p := Preamble(sessionLength, history, maxMessages);
      sessionLength == 1 && HasHistory(history) ==> p[2] == HistoryInstruction(history.value)
  {
    var p := Preamble(sessionLength, history, maxMessages);
    FixedInstructionsAreNotHistory();
    if sessionLength == 1 && HasHistory(history) {
      var m := HistoryInstruction(history.value);
      assert m.content[..|HISTORY_PREFIX|] == HISTORY_PREFIX;
      assert IsHistoryInstruction(p[2]);
    } else {
      forall i | 0 <= i < |p| ensures !IsHistoryInstruction(p[i]) {
        assert p[i] in {Instruction(DOCTOR_ROLE), Instruction(BREVITY), Instruction(FINAL_RESPONSE)};
      }
    }
  }

  /** The final-diagnosis instruction is present exactly when the session
      has reached `2 * maxMessages - 1` turns. */
  lemma PreambleFinal(sessionLength: nat, history: Option<MedicalHistory>, maxMessages: nat)
    ensures Instruction(FINAL_RESPONSE) in Preamble(sessionLength, history, maxMessages)
        <==> sessionLength >= 2 * maxMessages - 1
  {
    var p := Preamble(sessionLength, history, maxMessages);
    if sessionLength < 2 * maxMessages - 1 {
      FixedInstructionsAreNotHistory();
      assert DOCTOR_ROLE != FINAL_RESPONSE && BREVITY != FINAL_RESPONSE;
      if sessionLength == 1 && HasHistory(history) {
        assert HistoryInstruction(history.value) != Instruction(FINAL_RESPONSE);
      }
    }
  }

  /** With a threshold above one turn, the history and the final-diagnosis
      instructions exclude each other, so the preamble has two or three
      messages. */
  lemma PreambleSize(sessionLength: nat, history: Option<MedicalHistory>, maxMessages: nat)
    requires maxMessages >= 2
    ensures var p := Preamble(sessionLength, history, maxMessages);
      |p| == (if (sessionLength == 1 && HasHistory(history)) || sessionLength >= 2 * maxMessages - 1 then 3 else 2)
    ensures !(HasHistoryInstruction(Preamble(sessionLength, history, maxMessages))
              && Instruction(FINAL_RESPONSE) in Preamble(sessionLength, history, maxMessages))
  {
    PreambleHistory(sessionLength, history, maxMessages);
    PreambleFinal(sessionLength, history, maxMessages);
  }

  /** What `chat` sends between the preamble and the new turn: the user's
      stored turns, annotated, oldest first, at most `FETCH_LIMIT` of them,
      none of them newer than a stored turn of the user that was left out;
      the new turn itself, sent last, is not annotated. */
  lemma PromptCarriesOldestTurns(ms: seq<StoredMessage>, user: UserId, userMessage: string, history: Option<MedicalHistory>,
                                 w: seq<StoredMessage>, p: seq<ChatMessage>)
    requires w == Window(ms, user, FETCH_LIMIT)
    requires p == Prompt(AnnotateAll(w), userMessage, history, MAX_MESSAGES)
    ensures var pre := Preamble(|w| + 1, history, MAX_MESSAGES);
      && |p| == |pre| + |w| + 1
      && p[|p| - 1] == ChatMessage(User, userMessage)
      && (forall i :: 0 <= i < |pre| ==> p[i].role == System)
      && (forall i :: 0 <= i < |w| ==> p[|pre| + i] == Annotate(w[i]))
    ensures |w| == if |OfUser(ms, user)| <= FETCH_LIMIT then |OfUser(ms, user)| else FETCH_LIMIT
    ensures forall i :: 0 <= i < |w| ==> w[i].user == user && w[i] in ms
    ensures SortedByCreation(w)
    ensures forall x, y :: x in multiset(w) && y in multiset(OfUser(ms, user)) - multiset(w) ==> x.createdAt <= y.createdAt
  {
    PromptLayout(w, userMessage, history, MAX_MESSAGES);
    WindowLength(ms, user, FETCH_LIMIT);
    WindowContents(ms, user, FETCH_LIMIT);
    WindowIsOldest(ms, user, FETCH_LIMIT);
  }

  /** Where the preamble, the annotated turns and the new turn sit in the
      prompt. */
  lemma PromptLayout(w: seq<StoredMessage>, userMessage: string, history: Option<MedicalHistory>, maxMessages: nat)
    ensures var p, pre := Prompt(AnnotateAll(w), userMessage, history, maxMessages), Preamble(|w| + 1, history, maxMessages);
      && |p| == |pre| + |w| + 1
      && (forall i :: 0 <= i < |pre| ==> p[i].role == System)
      && (forall i :: 0 <= i < |w| ==> p[|pre| + i] == Annotate(w[i]))
      && p[|p| - 1] == ChatMessage(User, userMessage)
  {
    var window := AnnotateAll(w);
    var p, pre := Prompt(window, userMessage, history, maxMessages), Preamble(|w| + 1, history, maxMessages);
    PreambleOpening(|w| + 1, history, maxMessages);
    assert p == (pre + window) + [ChatMessage(User, userMessage)];
    forall i | 0 <= i < |w| ensures p[|pre| + i] == Annotate(w[i]) {
      assert p[|pre| + i] == (pre + window)[|pre| + i] == window[i];
    }
  }

  /** A user with ten or more stored turns gets the final-diagnosis
      instruction on every further turn: the window is capped at
      `FETCH_LIMIT` = 16, which is above the threshold of 11. */
  lemma FinalOnceTenTurnsStored(ms: seq<StoredMessage>, user: UserId, userMessage: string, history: Option<MedicalHistory>)
    requires |OfUser(ms, user)| >= 2 * MAX_MESSAGES - 2
    ensures Instruction(FINAL_RESPONSE) in Prompt(AnnotateAll(Window(ms, user, FETCH_LIMIT)), userMessage, history, MAX_MESSAGES)
  {
    var window := AnnotateAll(Window(ms, user, FETCH_LIMIT));
    WindowLength(ms, user, FETCH_LIMIT);
    PreambleFinal(|window| + 1, history, MAX_MESSAGES);
  }

  /** Storing more turns never takes a user below that count again, so
      once on, the final-diagnosis instruction stays on. */
  lemma FinalStaysOn(ms: seq<StoredMessage>, later: seq<StoredMessage>, user: UserId, userMessage: string, history: Option<MedicalHistory>)
    requires |OfUser(ms, user)| >= 2 * MAX_MESSAGES - 2
    ensures Instruction(FINAL_RESPONSE) in Prompt(AnnotateAll(Window(ms + later, user, FETCH_LIMIT)), userMessage, history, MAX_MESSAGES)
  {
    OfUserGrows(ms, later, user);
    FinalOnceTenTurnsStored(ms + later, user, userMessage, history);
  }

  lemma {:induction false} OfUserGrows(ms: seq<StoredMessage>, later: seq<StoredMessage>, user: UserId)
    ensures |OfUser(ms + later, user)| >= |OfUser(ms, user)|
    decreases |later|
  {
    if later != [] {
      var init, last := later[..|later| - 1], later[|later| - 1];
      assert ms + later == (ms + init) + [last];
      OfUserGrows(ms, init, user);
      SaveAddsToOwner(ms + init, last, user);
      assert |OfUser(ms + later, user)| >= |OfUser(ms + init, user)|;
    } else {
      assert ms + later == ms;
    }
  }

  /** The first turn of a user with no stored turns and a non-empty
      medical history announces that history. */
  lemma HistoryOnFirstTurn(ms: seq<StoredMessage>, user: UserId, userMessage: string, history: Option<MedicalHistory>)
    requires OfUser(ms, user) == [] && HasHistory(history)
    ensures HasHistoryInstruction(Prompt(AnnotateAll(Window(ms, user, FETCH_LIMIT)), userMessage, history, MAX_MESSAGES))
  {
    var window := AnnotateAll(Window(ms, user, FETCH_LIMIT));
    WindowLength(ms, user, FETCH_LIMIT);
    var pre := Preamble(|window| + 1, history, MAX_MESSAGES);
    PreambleHistory(|window| + 1, history, MAX_MESSAGES);
    var i :| 0 <= i < |pre| && IsHistoryInstruction(pre[i]);
    assert Prompt(window, userMessage, history, MAX_MESSAGES)[i] == pre[i];
  }

  /** chatgpt.py:23-48: the two fixed instructions, then the history and
      the final-diagnosis instruction when their conditions hold. */
  method SystemMessages(sessionLength: nat, history: Option<MedicalHistory>) returns (systemMessages: seq<ChatMessage>)
    ensures systemMessages == Preamble(sessionLength, history, MAX_MESSAGES)
  {
    systemMessages := [Instruction(DOCTOR_ROLE), Instruction(BREVITY)];
    if sessionLength == 1 && HasHistory(history) {
      systemMessages := systemMessages + [HistoryInstruction(history.value)];
    }
    if sessionLength >= 2 * MAX_MESSAGES - 1 {
      systemMessages := systemMessages + [Instruction(FINAL_RESPONSE)];
    }
  }

  /** The assistant: a store of turns and the error log. */
  class Sana {
    const store: MessageStore
    var errorLog: seq<string>

    constructor(store: MessageStore)
      ensures this.store == store && errorLog == []
    {
      this.store := store;
      errorLog := [];
    }

    /** `chat`: `complete` stands for the language model, `now` and
        `replyTime` for the clock when the two turns are saved. `sent` is
        the prompt handed to the model. */
    method Chat(user: UserId, userMessage: string, history: Option<MedicalHistory>,
                complete: seq<ChatMessage> -> Result<string>, now: nat, replyTime: nat)
      returns (reply: Option<string>, sent: seq<ChatMessage>)
      modifies this, store
      ensures sent == Prompt(AnnotateAll(Window(old(store.messages), user, FETCH_LIMIT)), userMessage, history, MAX_MESSAGES)
      ensures complete(sent).Ok? ==>
        && reply == Some(complete(sent).value)
        && store.messages == old(store.messages) + [StoredMessage(user, ChatMessage(User, userMessage), now),
                                                    StoredMessage(user, ChatMessage(Assistant, complete(sent).value), replyTime)]
        && errorLog == old(errorLog)
      ensures complete(sent).Raised? ==>
        && reply == None
        && store.messages == old(store.messages) + [StoredMessage(user, ChatMessage(User, userMessage), now)]
        && errorLog == old(errorLog) + [complete(sent).error]
    {
      ghost var before := store.messages;
      ghost var window := AnnotateAll(Window(before, user, FETCH_LIMIT));
      var session := store.GetMessagesByUser(user);
      assert session == window;
      store.Save(user, ChatMessage(User, userMessage), None, now);
      assert store.messages == before + [StoredMessage(user, ChatMessage(User, userMessage), now)];
      session := session + [ChatMessage(User, userMessage)];
      var systemMessages := SystemMessages(|session|, history);
      sent := systemMessages + session;
      ghost var turn := ChatMessage(User, userMessage);
      assert session == window + [turn];
      assert sent == systemMessages + window + [turn];
      match complete(sent)
      case Ok(text) =>
        store.Save(user, ChatMessage(Assistant, text), None, replyTime);
        reply := Some(text);
      case Raised(error) =>
        errorLog := errorLog + [error];
        reply := None;
    }
  }
}
