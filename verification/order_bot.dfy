/**
 * The order bot's conversation (T_bot.py) as a state machine: the handlers in
 * the order the router tries them, what each does to the conversation state,
 * the stored answers and the order record, and the class that performs the
 * same steps in place.
 */
module OrderBot {
  import opened Wrappers
  import opened Strings
  import opened OrderForm
  import opened OrderRecord

  /** The two states of the forwarding sub-flow: waiting for the client's id, then for messages to forward. */
  datatype ForwardStep = ClientIdStep | MessageStep

  /** The conversation state: none, a step of the order form, or a step of the forwarding sub-flow. */
  datatype Phase = Idle | Filling(step: Step) | Forwarding(fstep: ForwardStep)

  /** A value stored with `state.update_data`: a message text, or a chat id. */
  datatype Value = Text(text: string) | ChatId(id: int)

  /** The parts of an incoming text message the handlers read. */
  datatype Message = Message(text: string, userId: nat, fullName: string, chatId: int)

  /** What the bot does besides changing state: the reply it sends, the message it forwards, the file it writes. */
  datatype Effect =
    | Greeted
    | Ignored
    | Cancelled
    | ForwardStarted
    | ClientIdStored
    | Forwarded(clientId: Value, fromChat: int)
    | LinksShown
    | FormStarted
    | Asked(next: Step)
    | Reprompted(reason: Rejection)
    | SummaryShown(answers: seq<string>)
    | Saved(path: string, contents: string)
    | Discarded
    | AskedYesNo
    | MenuHint

  /** The conversation state, the stored data, and `Order.order`. */
  datatype Snapshot = Snapshot(phase: Phase, data: map<string, Value>, order: Dict)

  datatype Outcome = Outcome(after: Snapshot, effect: Effect)

  const ClientIdKey: string := "client_id"
  const MessageKey: string := "message_to_send"

  /** The answer to `q` is stored, as text, and passes the question's check. */
  predicate Answered(data: map<string, Value>, q: Step) {
    IsQuestion(q) && Key(q) in data && data[Key(q)].Text? && Accepts(q, data[Key(q)].text)
  }

  /** The nine answers in the order they were asked, as `show_summary` reads them out of the data. */
  function Answers(data: map<string, Value>): seq<string>
    requires forall i :: 0 <= i < 9 ==> Answered(data, Chain[i])
  {
    seq(9, i requires 0 <= i < 9 => assert Answered(data, Chain[i]); data[Key(Chain[i])].text)
  }

  /** Before the questions at position `n` and later are asked, all earlier ones are answered. */
  predicate AnsweredBefore(data: map<string, Value>, n: nat) {
    forall q: Step :: Position(q) < n ==> Answered(data, q)
  }

  /**
   * What holds between any two messages: every question before the current
   * one has a valid answer; in the forwarding step the client's id is stored;
   * the order record is empty or holds the eleven keys in order; and while the
   * confirmation is awaited the record's answers are the stored answers.
   */
  predicate Inv(s: Snapshot) {
    && WellFormed(s.order)
    && (s.order.keys == [] || s.order.keys == Fields)
    && (s.phase.Filling? ==> AnsweredBefore(s.data, Position(s.phase.step)))
    && (s.phase == Forwarding(MessageStep) ==> ClientIdKey in s.data)
    && (s.phase == Filling(SaveOrder) ==>
          s.order.keys == Fields &&
          forall i :: 0 <= i < 9 ==> Answered(s.data, Chain[i]) && s.order.values[Fields[i + 2]] == Answers(s.data)[i])
  }

  lemma AnsweredBeforeChain(data: map<string, Value>)
    requires AnsweredBefore(data, 9)
    ensures forall i :: 0 <= i < 9 ==> Answered(data, Chain[i])
  {
    ChainIsWalkedByNext();
    forall i | 0 <= i < 9
      ensures Answered(data, Chain[i])
    {
      assert Position(Chain[i]) == i;
    }
  }

  /** All nine answers, question by question. */
  lemma AnsweredEach(data: map<string, Value>)
    requires forall i :: 0 <= i < 9 ==> Answered(data, Chain[i])
    ensures Answered(data, OverhaulsPlace) && Answered(data, HouseArea) && Answered(data, InteriorStyle)
    ensures Answered(data, DesignProject) && Answered(data, OverhaulsDate) && Answered(data, Address)
    ensures Answered(data, YourLocation) && Answered(data, HowToTell) && Answered(data, PhoneNumber)
  {
    assert Answered(data, Chain[0]) && Answered(data, Chain[1]) && Answered(data, Chain[2]);
    assert Answered(data, Chain[3]) && Answered(data, Chain[4]) && Answered(data, Chain[5]);
    assert Answered(data, Chain[6]) && Answered(data, Chain[7]) && Answered(data, Chain[8]);
  }

  const Initial: Snapshot := Snapshot(Idle, map[], EmptyDict)

  lemma InitialInv()
    ensures Inv(Initial)
  {
  }

  // The handlers, one function each.


  /** `cancel_handler`: nothing to do without a state; otherwise state and data are cleared. */
  function Cancel(s: Snapshot): Outcome {
    if s.phase == Idle then Outcome(s, Ignored)
    else Outcome(s.(phase := Idle, data := map[]), Cancelled)
  }

  /** `start_forward_message`: the state moves to the client-id step; the data is kept. */
  function StartForward(s: Snapshot): Outcome {
    Outcome(s.(phase := Forwarding(ClientIdStep)), ForwardStarted)
  }

  /** `get_client_id`: the text is stored as the client id, whatever it is. */
  function GetClientId(s: Snapshot, m: Message): Outcome {
    Outcome(s.(phase := Forwarding(MessageStep), data := s.data[ClientIdKey := Text(m.text)]), ClientIdStored)
  }

  /** `get_message`: the chat id is stored and the message is forwarded to the stored client id. */
  function GetMessage(s: Snapshot, m: Message): Outcome
    requires ClientIdKey in s.data
  {
    var data := s.data[MessageKey := ChatId(m.chatId)];
    Outcome(s.(data := data), Forwarded(data[ClientIdKey], m.chatId))
  }

  /** `get_order`: the form starts (or starts over) at its first question; the data is kept. */
  function GetOrder(s: Snapshot): Outcome {
    Outcome(s.(phase := Filling(OverhaulsPlace)), FormStarted)
  }

  /**
   * A question's handler: a refused answer changes nothing; an accepted one is
   * stored and the next question is asked, or, after the phone number, the
   * summary is written into the order record and shown.
   */
  function AnswerStep(s: Snapshot, q: Step, m: Message): Outcome
    requires Inv(s) && s.phase == Filling(q) && IsQuestion(q)
  {
    match Validate(q, m.text)
    case Err(reason) => Outcome(s, Reprompted(reason))
    case Ok(answer) =>
      var data := s.data[Key(q) := Text(answer)];
      if q == PhoneNumber then
        StoredAnswerKeepsEarlier(s.data, q, answer);
        AnsweredBeforeChain(data);
        var answers := Answers(data);
        SummarizeShape(s.order, NatToString(m.userId), m.fullName, answers);
        var order := Summarize(s.order, NatToString(m.userId), m.fullName, answers);
        Outcome(Snapshot(Filling(SaveOrder), data, order), SummaryShown(answers))
      else
        Outcome(s.(phase := Filling(Next(q)), data := data), Asked(Next(q)))
  }

  /** The file the confirmed order is written to, and its text. */
  function SavedOrder(order: Dict, now: Stamp): Effect
    requires WellFormed(order)
  {
    Saved(SavePath(now), Serialize(Items(order)))
  }

  /**
   * The confirmation: "✅ да" (in any case) clears state and data and writes
   * the record, which stays as it is; "❌ нет" clears state, data and the
   * record; anything else asks again.
   */
  function Confirm(s: Snapshot, m: Message, now: Stamp): Outcome
    requires WellFormed(s.order)
  {
    if CaseFold(m.text) == "✅ да" then Outcome(s.(phase := Idle, data := map[]), SavedOrder(s.order, now))
    else if CaseFold(m.text) == "❌ нет" then Outcome(Snapshot(Idle, map[], EmptyDict), Discarded)
    else Outcome(s, AskedYesNo)
  }

  /**
   * One incoming text message, handled by the first handler whose filters
   * match, in the order they are registered: `/start`, cancel, `/forward`,
   * the two forwarding steps, `/links`, `/order`, the questions, the
   * confirmation, and the catch-all reply.
   */
  function Transition(s: Snapshot, m: Message, now: Stamp): (o: Outcome)
    requires Inv(s)
  {
    if IsCommand(m.text, "start") then Outcome(s, Greeted)
    else if IsCancel(m.text) then Cancel(s)
    else if IsCommand(m.text, "forward") then StartForward(s)
    else if s.phase == Forwarding(ClientIdStep) then GetClientId(s, m)
    else if s.phase == Forwarding(MessageStep) then GetMessage(s, m)
    else if IsCommand(m.text, "links") then Outcome(s, LinksShown)
    else if IsCommand(m.text, "order") then GetOrder(s)
    else if s.phase == Filling(SaveOrder) then Confirm(s, m, now)
    else if s.phase.Filling? then AnswerStep(s, s.phase.step, m)
    else Outcome(s, MenuHint)
  }

  // What the handlers keep and promise.

  /** Storing a valid answer to `q` keeps every earlier answer and makes `q` answered too. */
  lemma StoredAnswerKeepsEarlier(data: map<string, Value>, q: Step, answer: string)
    requires IsQuestion(q) && AnsweredBefore(data, Position(q)) && Accepts(q, answer)
    ensures AnsweredBefore(data[Key(q) := Text(answer)], Position(q) + 1)
  {
    var data' := data[Key(q) := Text(answer)];
    forall p: Step | Position(p) < Position(q) + 1
      ensures Answered(data', p)
    {
      if p != q {
        KeysAreDistinct(p, q);
      }
    }
  }

  /** An accepted answer to a question before the phone number moves the form on and keeps the invariant. */
  lemma AnswerAdvancesInv(s: Snapshot, q: Step, answer: string)
    requires Inv(s) && s.phase == Filling(q) && IsQuestion(q) && q != PhoneNumber && Accepts(q, answer)
    ensures Next(q) != SaveOrder
    ensures Inv(s.(phase := Filling(Next(q)), data := s.data[Key(q) := Text(answer)]))
  {
    StoredAnswerKeepsEarlier(s.data, q, answer);
  }

  /** An accepted phone number completes the answers; the summary written into the record holds them. */
  lemma SummaryShownInv(s: Snapshot, m: Message)
    requires Inv(s) && s.phase == Filling(PhoneNumber) && Accepts(PhoneNumber, m.text)
    ensures forall i :: 0 <= i < 9 ==> Answered(s.data[Key(PhoneNumber) := Text(m.text)], Chain[i])
    ensures
      var data := s.data[Key(PhoneNumber) := Text(m.text)];
      Inv(Snapshot(Filling(SaveOrder), data, Summarize(s.order, NatToString(m.userId), m.fullName, Answers(data))))
  {
    var data := s.data[Key(PhoneNumber) := Text(m.text)];
    StoredAnswerKeepsEarlier(s.data, PhoneNumber, m.text);
    AnsweredBeforeChain(data);
    var answers := Answers(data);
    var uid := NatToString(m.userId);
    SummarizeShape(s.order, uid, m.fullName, answers);
    var order := Summarize(s.order, uid, m.fullName, answers);
    forall i | 0 <= i < 9
      ensures Fields[i + 2] in order.values && order.values[Fields[i + 2]] == answers[i]
    {
      assert SummaryFields(uid, m.fullName, answers)[i + 2] == answers[i];
    }
    SaveOrderInv(data, order);
  }

  /** The confirmation step's invariant, from a record holding all eleven keys with the stored answers. */
  lemma SaveOrderInv(data: map<string, Value>, order: Dict)
    requires AnsweredBefore(data, 9)
    requires forall i :: 0 <= i < 9 ==> Answered(data, Chain[i])
    requires WellFormed(order) && order.keys == Fields
    requires forall i :: 0 <= i < 9 ==> Fields[i + 2] in order.values && order.values[Fields[i + 2]] == Answers(data)[i]
    ensures Inv(Snapshot(Filling(SaveOrder), data, order))
  {
  }

  lemma AnswerStepInv(s: Snapshot, q: Step, m: Message)
    requires Inv(s) && s.phase == Filling(q) && IsQuestion(q)
    ensures Inv(AnswerStep(s, q, m).after)
  {
    match Validate(q, m.text)
    case Err(_) =>
    case Ok(answer) =>
      if q == PhoneNumber {
        SummaryShownInv(s, m);
      } else {
        AnswerAdvancesInv(s, q, answer);
      }
  }

  /** Every message keeps the invariant. */
  lemma TransitionInv(s: Snapshot, m: Message, now: Stamp)
    requires Inv(s)
    ensures Inv(Transition(s, m, now).after)
  {
    if !IsCommand(m.text, "start") && !IsCancel(m.text) && !IsCommand(m.text, "forward")
      && !s.phase.Forwarding? && !IsCommand(m.text, "links") && !IsCommand(m.text, "order")
      && s.phase.Filling? && s.phase.step != SaveOrder
    {
      AnswerStepInv(s, s.phase.step, m);
    }
  }

  /** The texts some handler registered before the questions' handlers takes, whatever the state. */
  predicate Intercepted(text: string) {
    IsCommand(text, "start") || IsCancel(text) || IsCommand(text, "forward")
    || IsCommand(text, "links") || IsCommand(text, "order")
  }

  /** A text whose fold starts with neither a space, "/" nor "c" is taken by no command and is not a cancel. */
  lemma PlainTextPassesThrough(text: string)
    requires |text| > 0 && CaseFold(text)[0] != '/' && !IsSpace(CaseFold(text)[0]) && CaseFold(text)[0] != 'c'
    ensures !Intercepted(text)
  {
    FoldedPlainTextIsNoCommand(text);
  }

  /** A string of digits, such as an accepted area or phone number, is never taken for a command or a cancel. */
  lemma DigitsPassThrough(text: string)
    requires IsDigits(text)
    ensures !Intercepted(text)
  {
    assert CaseFold(text)[0] == FoldChar(text[0]) == text[0];
    PlainTextPassesThrough(text);
  }

  /** A text that folds to "cancel" is no command; it cannot be mistaken for `/start`. */
  lemma CancelWordIsNoCommand(text: string)
    requires CaseFold(text) == "cancel"
    ensures CommandOf(text) == None
  {
    FoldedPlainTextIsNoCommand(text);
  }

  /**
   * Cancel wins at every step, in the form and in the forwarding sub-flow
   * alike: without a state it changes nothing; otherwise the state and the
   * data are cleared and the order record is kept.
   */
  lemma CancelWins(s: Snapshot, m: Message, now: Stamp)
    requires Inv(s) && IsCancel(m.text)
    ensures Transition(s, m, now).after.phase == Idle
    ensures s.phase == Idle ==> Transition(s, m, now) == Outcome(s, Ignored)
    ensures s.phase != Idle ==> Transition(s, m, now) == Outcome(Snapshot(Idle, map[], s.order), Cancelled)
  {
    if CaseFold(m.text) == "cancel" {
      CancelWordIsNoCommand(m.text);
    }
  }

  /** In a question's state, a text no command takes goes to that question's handler. */
  lemma QuestionDispatch(s: Snapshot, m: Message, now: Stamp)
    requires Inv(s) && s.phase.Filling? && IsQuestion(s.phase.step) && !Intercepted(m.text)
    ensures Transition(s, m, now) == AnswerStep(s, s.phase.step, m)
  {
  }

  /**
   * A question's answer, when no command takes the text: a refused answer
   * leaves state, data and record exactly as they were and says why.
   */
  lemma RejectedAnswerChangesNothing(s: Snapshot, m: Message, now: Stamp)
    requires Inv(s) && s.phase.Filling? && IsQuestion(s.phase.step) && !Intercepted(m.text)
    requires !Accepts(s.phase.step, m.text)
    ensures Transition(s, m, now) == Outcome(s, Reprompted(Validate(s.phase.step, m.text).error))
  {
  }

  /** An accepted answer to any question before the phone number is stored under its key and the next question is asked. */
  lemma AcceptedAnswerAdvances(s: Snapshot, m: Message, now: Stamp)
    requires Inv(s) && s.phase.Filling? && IsQuestion(s.phase.step) && s.phase.step != PhoneNumber
    requires !Intercepted(m.text) && Accepts(s.phase.step, m.text)
    ensures var q := s.phase.step;
      Transition(s, m, now) ==
        Outcome(Snapshot(Filling(Next(q)), s.data[Key(q) := Text(m.text)], s.order), Asked(Next(q)))
  {
  }

  /**
   * The form walks the chain `overhauls_place`, `house_area`, ...,
   * `phone_number`, `save_order`: from the `i`-th question an accepted answer
   * leads to the `i + 1`-th state, and nowhere else.
   */
  lemma FormFollowsChain(s: Snapshot, i: nat, m: Message, now: Stamp)
    requires Inv(s) && i < 9 && s.phase == Filling(Chain[i])
    requires !Intercepted(m.text)
    ensures IsQuestion(Chain[i])
    ensures Transition(s, m, now).after.phase == if Accepts(Chain[i], m.text) then Filling(Chain[i + 1]) else s.phase
  {
    ChainIsWalkedByNext();
  }

  /**
   * An accepted phone number completes the form: the nine stored answers are
   * shown, the record holds the user's id and name and then those answers, in
   * that order, and the confirmation is awaited.
   */
  lemma PhoneShowsSummary(s: Snapshot, m: Message, now: Stamp)
    requires Inv(s) && s.phase == Filling(PhoneNumber) && Accepts(PhoneNumber, m.text)
    ensures forall i :: 0 <= i < 9 ==> Answered(s.data[Key(PhoneNumber) := Text(m.text)], Chain[i])
    ensures
      var data := s.data[Key(PhoneNumber) := Text(m.text)];
      var o := Transition(s, m, now);
      && o.effect == SummaryShown(Answers(data))
      && Answers(data)[8] == m.text
      && o.after.phase == Filling(SaveOrder) && o.after.data == data
      && WellFormed(o.after.order)
      && Items(o.after.order) == SummaryRecord(NatToString(m.userId), m.fullName, Answers(data))
  {
    DigitsPassThrough(m.text);
    PhoneAnswerStep(s, m);
    ChainIsWalkedByNext();
    QuestionDispatch(s, m, now);
  }

  lemma PhoneAnswerStep(s: Snapshot, m: Message)
    requires Inv(s) && s.phase == Filling(PhoneNumber) && Accepts(PhoneNumber, m.text)
    ensures forall i :: 0 <= i < 9 ==> Answered(s.data[Key(PhoneNumber) := Text(m.text)], Chain[i])
    ensures
      var data := s.data[Key(PhoneNumber) := Text(m.text)];
      var o := AnswerStep(s, PhoneNumber, m);
      && o.effect == SummaryShown(Answers(data))
      && o.after.phase == Filling(SaveOrder) && o.after.data == data
      && WellFormed(o.after.order)
      && Items(o.after.order) == SummaryRecord(NatToString(m.userId), m.fullName, Answers(data))
  {
    var data := s.data[Key(PhoneNumber) := Text(m.text)];
    StoredAnswerKeepsEarlier(s.data, PhoneNumber, m.text);
    AnsweredBeforeChain(data);
    SummaryItems(s.order, NatToString(m.userId), m.fullName, Answers(data));
  }

  /** While the confirmation is awaited, the record's items are the summary of the stored answers. */
  lemma RecordIsSummary(s: Snapshot)
    requires Inv(s) && s.phase == Filling(SaveOrder)
    ensures forall i :: 0 <= i < 9 ==> Answered(s.data, Chain[i])
    ensures ClientId in s.order.values && ClientName in s.order.values
    ensures Items(s.order) == SummaryRecord(s.order.values[ClientId], s.order.values[ClientName], Answers(s.data))
  {
    var uid, name, answers := s.order.values[ClientId], s.order.values[ClientName], Answers(s.data);
    var vs := SummaryFields(uid, name, answers);
    forall i | 0 <= i < |Fields|
      ensures Fields[i] in s.order.values && s.order.values[Fields[i]] == vs[i]
    {
      if i >= 2 {
        assert vs[(i - 2) + 2] == answers[i - 2];
      }
    }
    ItemsOfSummary(s.order, uid, name, answers);
  }

  /** A text folding to "✅ да" or "❌ нет" starts with the mark itself, so no command takes it. */
  lemma MarkedTextPassesThrough(text: string, w: string)
    requires CaseFold(text) == w && (w == "✅ да" || w == "❌ нет")
    ensures !Intercepted(text)
  {
    PlainTextPassesThrough(text);
  }

  /**
   * "✅ да", in any letter case, at the confirmation: state and data are
   * cleared, the record stays, and the summary the user confirmed is written
   * to the file named after the current time.
   */
  lemma ConfirmYes(s: Snapshot, m: Message, now: Stamp)
    requires Inv(s) && s.phase == Filling(SaveOrder) && CaseFold(m.text) == "✅ да"
    ensures forall i :: 0 <= i < 9 ==> Answered(s.data, Chain[i])
    ensures ClientId in s.order.values && ClientName in s.order.values
    ensures Transition(s, m, now) ==
      Outcome(Snapshot(Idle, map[], s.order),
              Saved(SavePath(now), Serialize(SummaryRecord(s.order.values[ClientId], s.order.values[ClientName], Answers(s.data)))))
  {
    MarkedTextPassesThrough(m.text, "✅ да");
    RecordIsSummary(s);
  }

  /** "❌ нет", in any letter case, at the confirmation: everything is cleared, the record too; the bot is back where it started. */
  lemma ConfirmNo(s: Snapshot, m: Message, now: Stamp)
    requires Inv(s) && s.phase == Filling(SaveOrder) && CaseFold(m.text) == "❌ нет"
    ensures Transition(s, m, now) == Outcome(Initial, Discarded)
  {
    MarkedTextPassesThrough(m.text, "❌ нет");
  }

  /** Any other text at the confirmation that no command takes changes nothing and asks for yes or no. */
  lemma ConfirmOther(s: Snapshot, m: Message, now: Stamp)
    requires Inv(s) && s.phase == Filling(SaveOrder) && !Intercepted(m.text)
    requires CaseFold(m.text) != "✅ да" && CaseFold(m.text) != "❌ нет"
    ensures Transition(s, m, now) == Outcome(s, AskedYesNo)
  {
  }

  /**
   * The file written on "✅ да" reads back, line by line, to the record the
   * user confirmed: their id and name, then the nine answers, under the
   * eleven key texts, in order, as long as no value holds a line break.
   */
  lemma SavedFileReadsBack(s: Snapshot, m: Message, now: Stamp)
    requires Inv(s) && s.phase == Filling(SaveOrder) && CaseFold(m.text) == "✅ да"
    requires forall v :: v in s.order.values.Values ==> '\n' !in v
    ensures forall i :: 0 <= i < 9 ==> Answered(s.data, Chain[i])
    ensures ClientId in s.order.values && ClientName in s.order.values
    ensures Transition(s, m, now).effect.Saved?
    ensures ParseRecord(Transition(s, m, now).effect.contents) ==
      Some(SummaryRecord(s.order.values[ClientId], s.order.values[ClientName], Answers(s.data)))
  {
    ConfirmYes(s, m, now);
    var answers := Answers(s.data);
    forall i | 0 <= i < 9
      ensures '\n' !in answers[i]
    {
      assert s.order.values[Fields[i + 2]] in s.order.values.Values;
    }
    assert s.order.values[ClientId] in s.order.values.Values;
    assert s.order.values[ClientName] in s.order.values.Values;
    SummaryPrintable(s.order.values[ClientId], s.order.values[ClientName], answers);
    ParseSerialize(SummaryRecord(s.order.values[ClientId], s.order.values[ClientName], answers));
  }

  /**
   * The forwarding sub-flow: the first text is kept as the client id; after
   * that every message is forwarded to it, and the state stays put. Only
   * cancel, `/start` (which changes nothing) and `/forward` (which starts
   * over) are not forwarded; `/links` and `/order` are forwarded like any text.
   */
  lemma ForwardClientId(s: Snapshot, m: Message, now: Stamp)
    requires Inv(s) && s.phase == Forwarding(ClientIdStep)
    requires !IsCommand(m.text, "start") && !IsCancel(m.text) && !IsCommand(m.text, "forward")
    ensures Transition(s, m, now) ==
      Outcome(Snapshot(Forwarding(MessageStep), s.data[ClientIdKey := Text(m.text)], s.order), ClientIdStored)
  {
  }

  lemma ForwardSticky(s: Snapshot, m: Message, now: Stamp)
    requires Inv(s) && s.phase == Forwarding(MessageStep)
    requires !IsCommand(m.text, "start") && !IsCancel(m.text) && !IsCommand(m.text, "forward")
    ensures ClientIdKey in s.data
    ensures Transition(s, m, now) ==
      Outcome(Snapshot(Forwarding(MessageStep), s.data[MessageKey := ChatId(m.chatId)], s.order),
              Forwarded(s.data[ClientIdKey], m.chatId))
  {
  }

  /** `/forward` starts the sub-flow over from any state, keeping the data. */
  lemma ForwardRestarts(s: Snapshot, m: Message, now: Stamp)
    requires Inv(s) && IsCommand(m.text, "forward")
    ensures Transition(s, m, now) == Outcome(s.(phase := Forwarding(ClientIdStep)), ForwardStarted)
  {
    if CaseFold(m.text) == "cancel" {
      CancelWordIsNoCommand(m.text);
    }
  }

  /** Outside the forwarding sub-flow, `/order` starts the form over from its first question at any step, keeping the data and the record. */
  lemma OrderRestartsForm(s: Snapshot, m: Message, now: Stamp)
    requires Inv(s) && !s.phase.Forwarding? && IsCommand(m.text, "order")
    ensures Transition(s, m, now) == Outcome(s.(phase := Filling(OverhaulsPlace)), FormStarted)
  {
    if CaseFold(m.text) == "cancel" {
      CancelWordIsNoCommand(m.text);
    }
  }

  /**
   * One chat's session as the bot keeps it: the state and data aiogram's
   * `FSMContext` stores, and the `Order.order` dictionary. Each handler is a
   * method that changes these fields in place; `Handle` runs the handler the
   * router picks and is proved to do exactly what `Transition` says.
   */
  class OrderSession {
    var phase: Phase
    var data: map<string, Value>
    var order: Dict

    function Snap(): Snapshot
      reads this
    {
      Snapshot(phase, data, order)
    }

    predicate Valid()
      reads this
    {
      Inv(Snap())
    }

    constructor ()
      ensures Snap() == Initial && Valid()
    {
      phase, data, order := Idle, map[], EmptyDict;
      InitialInv();
    }

    /** `state.set_state`: the data is kept. */
    method SetState(p: Phase)
      modifies this
      ensures Snap() == old(Snap()).(phase := p)
    {
      phase := p;
    }

    /** `state.update_data` with one key. */
    method UpdateData(k: string, v: Value)
      modifies this
      ensures Snap() == old(Snap()).(data := old(data)[k := v])
    {
      data := data[k := v];
    }

    /** `state.clear`: neither state nor data is left. */
    method ClearState()
      modifies this
      ensures Snap() == old(Snap()).(phase := Idle, data := map[])
    {
      phase, data := Idle, map[];
    }

    /** `Order.order[k] = v` */
    method SetItem(k: Field, v: string)
      modifies this
      ensures Snap() == old(Snap()).(order := Put(old(order), k, v))
    {
      order := Put(order, k, v);
    }

    method CancelHandler() returns (e: Effect)
      modifies this
      ensures Outcome(Snap(), e) == Cancel(old(Snap()))
    {
      if phase == Idle {
        return Ignored;
      }
      ClearState();
      e := Cancelled;
    }

    method StartForwardMessage() returns (e: Effect)
      modifies this
      ensures Outcome(Snap(), e) == StartForward(old(Snap()))
    {
      SetState(Forwarding(ClientIdStep));
      e := ForwardStarted;
    }

    method GetClientIdHandler(m: Message) returns (e: Effect)
      modifies this
      ensures Outcome(Snap(), e) == GetClientId(old(Snap()), m)
    {
      UpdateData(ClientIdKey, Text(m.text));
      SetState(Forwarding(MessageStep));
      e := ClientIdStored;
    }

    method GetMessageHandler(m: Message) returns (e: Effect)
      requires ClientIdKey in data
      modifies this
      ensures Outcome(Snap(), e) == GetMessage(old(Snap()), m)
    {
      UpdateData(MessageKey, ChatId(m.chatId));
      e := Forwarded(data[ClientIdKey], m.chatId);
    }

    method GetOrderHandler() returns (e: Effect)
      modifies this
      ensures Outcome(Snap(), e) == GetOrder(old(Snap()))
    {
      SetState(Filling(OverhaulsPlace));
      e := FormStarted;
    }

    /** The handler of question `q`: check the text, then store it and move on, or ask again. */
    method AnswerHandler(q: Step, m: Message) returns (e: Effect)
      requires Valid() && phase == Filling(q) && IsQuestion(q)
      modifies this
      ensures Outcome(Snap(), e) == AnswerStep(old(Snap()), q, m)
    {
      match Validate(q, m.text)
      case Err(reason) =>
        e := Reprompted(reason);
      case Ok(answer) =>
        ghost var before := Snap();
        UpdateData(Key(q), Text(answer));
        if q == PhoneNumber {
          SetState(Filling(SaveOrder));
          PhoneAnswerStep(before, m);
          e := ShowSummary(m);
        } else {
          SetState(Filling(Next(q)));
          e := Asked(Next(q));
        }
    }

    /** `show_summary`: the nine answers are read out of the data and the eleven keys are assigned, in order. */
    method ShowSummary(m: Message) returns (e: Effect)
      requires forall i :: 0 <= i < 9 ==> Answered(data, Chain[i])
      modifies this
      ensures Snap() == old(Snap()).(order := Summarize(old(order), NatToString(m.userId), m.fullName, Answers(old(data))))
      ensures e == SummaryShown(Answers(old(data)))
    {
      AnsweredEach(data);
      var overhaulsPlace := data[Key(OverhaulsPlace)].text;
      var houseArea := data[Key(HouseArea)].text;
      var interiorStyle := data[Key(InteriorStyle)].text;
      var designProject := data[Key(DesignProject)].text;
      var overhaulsDate := data[Key(OverhaulsDate)].text;
      var address := data[Key(Address)].text;
      var yourLocation := data[Key(YourLocation)].text;
      var howToTell := data[Key(HowToTell)].text;
      var phoneNumber := data[Key(PhoneNumber)].text;
      var answers := [overhaulsPlace, houseArea, interiorStyle, designProject, overhaulsDate,
                      address, yourLocation, howToTell, phoneNumber];
      assert answers == Answers(data);
      var uid := NatToString(m.userId);
      SetItem(ClientId, uid);
      SetItem(ClientName, m.fullName);
      SetItem(Place, overhaulsPlace);
      SetItem(Area, houseArea);
      SetItem(Style, interiorStyle);
      SetItem(Design, designProject);
      SetItem(Date, overhaulsDate);
      SetItem(ClientAddress, address);
      SetItem(Location, yourLocation);
      SetItem(Contact, howToTell);
      SetItem(Phone, phoneNumber);
      e := SummaryShown(answers);
    }

    /** `saving_order`: state and data are cleared and the record is written, one line per item, to the time-stamped file. */
    method SavingOrder(now: Stamp) returns (e: Effect)
      requires WellFormed(order)
      modifies this
      ensures Snap() == old(Snap()).(phase := Idle, data := map[])
      ensures e == SavedOrder(old(order), now)
    {
      ClearState();
      var fileName := GetFileName(FileTemplate, now);
      var path := "orders/" + fileName;
      e := Saved(path, Serialize(Items(order)));
    }

    /** `reorder`: state, data and the record are all cleared. */
    method Reorder() returns (e: Effect)
      modifies this
      ensures Snap() == Initial && e == Discarded
    {
      ClearState();
      order := EmptyDict;
      e := Discarded;
    }

    /** One incoming text message, through the handler the router picks. */
    method Handle(m: Message, now: Stamp) returns (e: Effect)
      requires Valid()
      modifies this
      ensures Outcome(Snap(), e) == Transition(old(Snap()), m, now)
      ensures Valid()
    {
      ghost var before := Snap();
      if IsCommand(m.text, "start") {
        e := Greeted;
      } else if IsCancel(m.text) {
        e := CancelHandler();
      } else if IsCommand(m.text, "forward") {
        e := StartForwardMessage();
      } else if phase == Forwarding(ClientIdStep) {
        e := GetClientIdHandler(m);
      } else if phase == Forwarding(MessageStep) {
        e := GetMessageHandler(m);
      } else if IsCommand(m.text, "links") {
        e := LinksShown;
      } else if IsCommand(m.text, "order") {
        e := GetOrderHandler();
      } else if phase == Filling(SaveOrder) {
        if CaseFold(m.text) == "✅ да" {
          e := SavingOrder(now);
        } else if CaseFold(m.text) == "❌ нет" {
          e := Reorder();
        } else {
          e := AskedYesNo;
        }
      } else if phase.Filling? {
        e := AnswerHandler(phase.step, m);
      } else {
        e := MenuHint;
      }
      TransitionInv(before, m, now);
    }
  }
}
