/**
 * The inspection price calculator (Homebot.py): `/calculate` asks for the
 * apartment's area, then for its number of rooms, then offers the add-on
 * services as buttons the client toggles; the next message is answered with
 * the price, and the state and the selection are cleared.
 *
 * The handlers are functions on a `Snapshot` of the session; `CalcSession`
 * holds the same state in fields and its methods are proved to do what the
 * functions say.
 */
module CalcBot {
  import opened Wrappers
  import opened Strings
  import opened Toggle
  import Pricing

  /** The states of `Calculate`; no state at all is `None`. */
  datatype CalcState = HouseAreaStep | RoomsNumberStep | UserChoicesStep

  const AreaKey: string := "house_area"
  const RoomsKey: string := "rooms_number"

  /** The answers `get_rooms_number` accepts: the labels of its reply keyboard. */
  const RoomAnswers: seq<string> := ["1", "2", "3", "4", "Студия"]

  /** The service buttons `get_rooms_number` sends, in order: a crossed label and its callback data. */
  const OfferedButtons: seq<Button> := [
    Button("Проверка площади ❌", "area_check"),
    Button("Оценка для банка ❌", "bank_evaluation"),
    Button("Тепловизионный осмотр ❌", "thermal_imaging_inspection"),
    Button("План квартиры в AutoCAD ❌", "apartment_plan"),
    Button("Экспертиза ремонта ❌", "repair_examination"),
    Button("Юридическое взыскание ❌", "legal_penalty"),
    Button("Замер радиации ❌", "radiation_measurement"),
    Button("Тепловизионный отчет ❌", "thermal_imaging_report"),
    Button("Выезд специалиста НОПРИЗ или НОСТРОЙ ❌", "specialist_visit")]

  /** The reply a message gets. */
  datatype Reply =
    | Greeted
    | Ignored
    | Cancelled
    | AskedArea
    | AskedRooms
    | NotANumber
      /** The service buttons, each sent on an inline keyboard of its own. */
    | ServicesOffered(offers: seq<Button>)
    | PressAButton
      /** The selected labels (listed only when there are any) and the price. */
    | CostReported(selected: seq<string>, cost: int)
    | MenuHint

  /** The FSM state, its data, and the selected services (`Calculate.services`). */
  datatype Snapshot = Snapshot(state: Option<CalcState>, data: map<string, string>, services: seq<string>)

  datatype Outcome = Outcome(after: Snapshot, reply: Reply)

  const Initial: Snapshot := Snapshot(None, map[], [])

  /**
   * What the handlers rely on: once the rooms are asked for, the data holds an
   * area of digits; once the services are offered, it also holds an accepted
   * room answer; the selection is distinct checked labels.
   */
  predicate Inv(s: Snapshot) {
    && (s.state == Some(RoomsNumberStep) || s.state == Some(UserChoicesStep) ==>
          AreaKey in s.data && IsDigits(s.data[AreaKey]))
    && (s.state == Some(UserChoicesStep) ==> RoomsKey in s.data && s.data[RoomsKey] in RoomAnswers)
    && NoDuplicates(s.services) && AllChecked(s.services)
  }

  // The handlers, one function each.

  /** `cancel_handler`: nothing to do without a state; otherwise state and data are cleared, the selection is not. */
  function Cancel(s: Snapshot): Outcome {
    if s.state == None then Outcome(s, Ignored)
    else Outcome(s.(state := None, data := map[]), Cancelled)
  }

  /** `calculate`: asks for the area from whatever state; data and selection are kept. */
  function Calculate(s: Snapshot): Outcome {
    Outcome(s.(state := Some(HouseAreaStep)), AskedArea)
  }

  /** `get_house_area`: an answer of digits is stored and the rooms are asked for; anything else is asked again. */
  function GetHouseArea(s: Snapshot, text: string): Outcome {
    if IsDigits(text) then Outcome(s.(state := Some(RoomsNumberStep), data := s.data[AreaKey := text]), AskedRooms)
    else Outcome(s, NotANumber)
  }

  /** `get_rooms_number`: one of the keyboard's answers is stored and the services are offered. */
  function GetRoomsNumber(s: Snapshot, text: string): Outcome {
    if text in RoomAnswers then Outcome(s.(state := Some(UserChoicesStep), data := s.data[RoomsKey := text]), ServicesOffered(OfferedButtons))
    else Outcome(s, PressAButton)
  }

  /** `cost_calculation`: the price of the stored area, rooms and selection; then everything is cleared. */
  function CostCalculation(s: Snapshot): Outcome
    requires Inv(s) && s.state == Some(UserChoicesStep)
  {
    var area := DigitsValue(s.data[AreaKey]);
    Outcome(Initial, CostReported(s.services, Pricing.Price(area, s.data[RoomsKey], s.services)))
  }

  /** A text message, through the first handler whose filter matches, in the order they are registered. */
  function Transition(s: Snapshot, text: string): Outcome
    requires Inv(s)
  {
    if IsCommand(text, "start") then Outcome(s, Greeted)
    else if IsCancel(text) then Cancel(s)
    else if IsCommand(text, "calculate") then Calculate(s)
    else if s.state == Some(HouseAreaStep) then GetHouseArea(s, text)
    else if s.state == Some(RoomsNumberStep) then GetRoomsNumber(s, text)
    else if s.state == Some(UserChoicesStep) then CostCalculation(s)
    else Outcome(s, MenuHint)
  }

  /**
   * A button press with callback data `data` on a message whose inline
   * keyboard is `keyboard`: the rewritten keyboard that is sent back, or
   * `None` when no handler takes the data. The state plays no part.
   */
  function Press(s: Snapshot, data: string, keyboard: seq<seq<Button>>): (Snapshot, Option<seq<seq<Button>>>) {
    if data in CallbackNames then
      var (rows, services) := PressKeyboard(keyboard, data, s.services);
      (s.(services := services), Some(rows))
    else (s, None)
  }

  predicate Intercepted(text: string) {
    IsCommand(text, "start") || IsCancel(text) || IsCommand(text, "calculate")
  }

  // What the handlers keep and promise.

  lemma InitialInv()
    ensures Inv(Initial)
  {
  }

  /** Every message keeps the invariant. */
  lemma TransitionInv(s: Snapshot, text: string)
    requires Inv(s)
    ensures Inv(Transition(s, text).after)
  {
  }

  /** Every press keeps the selection distinct and checked, and touches nothing but the selection. */
  lemma PressInv(s: Snapshot, data: string, keyboard: seq<seq<Button>>)
    requires Inv(s)
    ensures Inv(Press(s, data, keyboard).0)
    ensures Press(s, data, keyboard).0.state == s.state && Press(s, data, keyboard).0.data == s.data
  {
    PressKeyboardFacts(keyboard, data, s.services);
  }

  /** Digits, and the room answers, are neither a command nor a cancel. */
  lemma DigitsPassThrough(text: string)
    requires IsDigits(text)
    ensures !Intercepted(text)
  {
    NoCommandNoCancel(text);
  }

  lemma RoomAnswerPassesThrough(text: string)
    requires text in RoomAnswers
    ensures !Intercepted(text)
  {
    NoCommandNoCancel(text);
  }

  /** The area is accepted exactly when it is a string of digits; a rejection changes nothing. */
  lemma AreaAcceptedIff(s: Snapshot, text: string)
    requires Inv(s) && s.state == Some(HouseAreaStep) && !Intercepted(text)
    ensures Transition(s, text).after.state == Some(RoomsNumberStep) <==> IsDigits(text)
    ensures IsDigits(text) ==> Transition(s, text).after.data == s.data[AreaKey := text]
    ensures !IsDigits(text) ==> Transition(s, text) == Outcome(s, NotANumber)
  {
  }

  /** The rooms are accepted exactly when the answer is one of the keyboard's; a rejection changes nothing. */
  lemma RoomsAcceptedIff(s: Snapshot, text: string)
    requires Inv(s) && s.state == Some(RoomsNumberStep) && !Intercepted(text)
    ensures Transition(s, text).after.state == Some(UserChoicesStep) <==> text in RoomAnswers
    ensures text in RoomAnswers ==> Transition(s, text).after.data == s.data[RoomsKey := text]
    ensures text !in RoomAnswers ==> Transition(s, text) == Outcome(s, PressAButton)
  {
  }

  /**
   * Any message once the services are offered reports the price of the stored
   * area, rooms and selection, never below the base rate, and clears the state,
   * the data and the selection.
   */
  lemma CostClears(s: Snapshot, text: string)
    requires Inv(s) && s.state == Some(UserChoicesStep) && !Intercepted(text)
    ensures AreaKey in s.data && IsDigits(s.data[AreaKey]) && RoomsKey in s.data
    ensures Transition(s, text) ==
      Outcome(Initial, CostReported(s.services, Pricing.Price(DigitsValue(s.data[AreaKey]), s.data[RoomsKey], s.services)))
    ensures Transition(s, text).reply.cost >= Pricing.RatePerMetre * DigitsValue(s.data[AreaKey])
  {
    Pricing.PriceAtLeastBase(DigitsValue(s.data[AreaKey]), s.data[RoomsKey], s.services);
  }

  /** Cancel wins in every state, clears state and data, and leaves the selection as it was. */
  lemma CancelKeepsServices(s: Snapshot, text: string)
    requires Inv(s) && IsCancel(text)
    ensures Transition(s, text).after.state == None
    ensures Transition(s, text).after.services == s.services
    ensures s.state != None ==> Transition(s, text) == Outcome(Snapshot(None, map[], s.services), Cancelled)
  {
    CancelIsNoStart(text);
  }

  lemma CancelIsNoStart(text: string)
    requires IsCancel(text)
    ensures !IsCommand(text, "start")
  {
    if CaseFold(text) == "cancel" {
      FoldedPlainTextIsNoCommand(text);
    }
  }

  /** A conversation: the messages one after another, and the outcome of the last. */
  function Run(s: Snapshot, texts: seq<string>): (o: Outcome)
    requires Inv(s) && |texts| > 0
    ensures Inv(o.after)
    decreases |texts|
  {
    TransitionInv(s, texts[0]);
    var o := Transition(s, texts[0]);
    if |texts| == 1 then o else Run(o.after, texts[1..])
  }

  /**
   * A whole calculation from any state: `/calculate`, an area of digits, an
   * accepted room answer and any further text report the price of the
   * selection held when `/calculate` was sent.
   */
  lemma CalculationRun(s: Snapshot, area: string, rooms: string, text: string)
    requires Inv(s) && IsDigits(area) && rooms in RoomAnswers && !Intercepted(text)
    ensures Run(s, ["/calculate", area, rooms, text]) ==
      Outcome(Initial, CostReported(s.services, Pricing.Price(DigitsValue(area), rooms, s.services)))
  {
    var s1 := s.(state := Some(HouseAreaStep));
    var s2 := s1.(state := Some(RoomsNumberStep), data := s1.data[AreaKey := area]);
    var s3 := s2.(state := Some(UserChoicesStep), data := s2.data[RoomsKey := rooms]);
    CalculateCommand(s);
    AreaStep(s1, area);
    RoomsStep(s2, rooms);
    CostClears(s3, text);
    RunStep(s, ["/calculate", area, rooms, text]);
    RunStep(s1, [area, rooms, text]);
    RunStep(s2, [rooms, text]);
  }

  lemma RunStep(s: Snapshot, texts: seq<string>)
    requires Inv(s) && |texts| > 1
    ensures Inv(Transition(s, texts[0]).after)
    ensures Run(s, texts) == Run(Transition(s, texts[0]).after, texts[1..])
  {
    TransitionInv(s, texts[0]);
  }

  lemma CalculateCommand(s: Snapshot)
    requires Inv(s)
    ensures Transition(s, "/calculate") == Outcome(s.(state := Some(HouseAreaStep)), AskedArea)
  {
    CalculateText();
  }

  /** "/calculate" is the command `calculate`, so neither `/start` nor a cancel. */
  lemma CalculateText()
    ensures IsCommand("/calculate", "calculate") && !IsCommand("/calculate", "start") && !IsCancel("/calculate")
  {
    SlashNameIsCommand("calculate");
    assert |CaseFold("/calculate")| == 10;
  }

  lemma AreaStep(s: Snapshot, area: string)
    requires Inv(s) && s.state == Some(HouseAreaStep) && IsDigits(area)
    ensures Transition(s, area) == Outcome(s.(state := Some(RoomsNumberStep), data := s.data[AreaKey := area]), AskedRooms)
  {
    DigitsPassThrough(area);
  }

  lemma RoomsStep(s: Snapshot, rooms: string)
    requires Inv(s) && s.state == Some(RoomsNumberStep) && rooms in RoomAnswers
    ensures Transition(s, rooms) == Outcome(s.(state := Some(UserChoicesStep), data := s.data[RoomsKey := rooms]), ServicesOffered(OfferedButtons))
  {
    RoomAnswerPassesThrough(rooms);
  }

  /**
   * Services selected and then abandoned with cancel are still charged by the
   * next calculation: cancel clears the state but not `Calculate.services`.
   */
  lemma StaleServicesCharged(s: Snapshot, cancel: string, area: string, rooms: string, text: string)
    requires Inv(s) && IsCancel(cancel) && IsDigits(area) && rooms in RoomAnswers && !Intercepted(text)
    ensures Run(s, [cancel, "/calculate", area, rooms, text]).reply ==
      CostReported(s.services, Pricing.Price(DigitsValue(area), rooms, s.services))
  {
    CancelKeepsServices(s, cancel);
    var s0 := Transition(s, cancel).after;
    CalculationRun(s0, area, rooms, text);
    RunStep(s, [cancel, "/calculate", area, rooms, text]);
    assert [cancel, "/calculate", area, rooms, text][1..] == ["/calculate", area, rooms, text];
  }

  /** After a price is reported, the next calculation without presses charges the base rate alone. */
  lemma NextCalculationStartsClean(s: Snapshot, text: string, area: string, rooms: string, next: string)
    requires Inv(s) && s.state == Some(UserChoicesStep) && !Intercepted(text)
    requires IsDigits(area) && rooms in RoomAnswers && !Intercepted(next)
    ensures Run(s, [text, "/calculate", area, rooms, next]).reply == CostReported([], Pricing.RatePerMetre * DigitsValue(area))
  {
    CostClears(s, text);
    CalculationRun(Initial, area, rooms, next);
    RunStep(s, [text, "/calculate", area, rooms, next]);
    assert [text, "/calculate", area, rooms, next][1..] == ["/calculate", area, rooms, next];
  }

  /**
   * Each offered button sends data the callback handler takes, and pressing it
   * once gives the label the price list is written for, in the same order.
   */
  lemma OfferedButtonsPriced()
    ensures |OfferedButtons| == |CallbackNames| == |Pricing.Services|
    ensures forall i :: 0 <= i < |OfferedButtons| ==>
      && OfferedButtons[i].callbackData == CallbackNames[i]
      && EndsWith(OfferedButtons[i].text, Cross)
      && Relabel(OfferedButtons[i].text, Check) == Pricing.Services[i]
  {
    forall i | 0 <= i < |OfferedButtons|
      ensures Relabel(OfferedButtons[i].text, Check) == Pricing.Services[i]
    {
      OfferedButtonPriced(i);
    }
  }

  lemma OfferedButtonPriced(i: nat)
    requires i < |OfferedButtons|
    ensures Relabel(OfferedButtons[i].text, Check) == Pricing.Services[i]
  {
    var t := OfferedButtons[i].text;
    assert t == DropLast(Pricing.Services[i]) + [Cross];
    assert DropLast(t) == DropLast(Pricing.Services[i]);
    assert Pricing.Services[i] == DropLast(Pricing.Services[i]) + [Check];
  }

  /**
   * The bot's own path for one service: after `/calculate`, an area and a room
   * answer, pressing the i-th offered button and then sending any text reports
   * the price with that service added to the selection held at the start.
   */
  lemma OfferedServiceCharged(s: Snapshot, area: string, rooms: string, i: nat, text: string)
    requires Inv(s) && IsDigits(area) && rooms in RoomAnswers && !Intercepted(text)
    requires i < |OfferedButtons| && Pricing.Services[i] !in s.services
    ensures Run(s, ["/calculate", area, rooms]).reply == ServicesOffered(OfferedButtons)
    ensures
      var b := OfferedButtons[i];
      var (s4, k) := Press(Run(s, ["/calculate", area, rooms]).after, b.callbackData, [[b]]);
      var chosen := s.services + [Pricing.Services[i]];
      && Inv(s4)
      && k == Some([[b.(text := Pricing.Services[i])]])
      && Transition(s4, text) == Outcome(Initial, CostReported(chosen, Pricing.Price(DigitsValue(area), rooms, chosen)))
  {
    var s1 := s.(state := Some(HouseAreaStep));
    var s2 := s1.(state := Some(RoomsNumberStep), data := s1.data[AreaKey := area]);
    var s3 := s2.(state := Some(UserChoicesStep), data := s2.data[RoomsKey := rooms]);
    CalculateCommand(s);
    AreaStep(s1, area);
    RoomsStep(s2, rooms);
    RunStep(s, ["/calculate", area, rooms]);
    RunStep(s1, [area, rooms]);
    assert Run(s, ["/calculate", area, rooms]) == Outcome(s3, ServicesOffered(OfferedButtons));
    var b := OfferedButtons[i];
    OfferedButtonsPriced();
    SingleButton(b, s3.services);
    var s4 := s3.(services := s.services + [Pricing.Services[i]]);
    assert Press(s3, b.callbackData, [[b]]) == (s4, Some([[b.(text := Pricing.Services[i])]]));
    PressInv(s3, b.callbackData, [[b]]);
    CostClears(s4, text);
  }

  /**
   * 50 m², a studio, the area check pressed, then "продолжить" (the reply
   * keyboard's button): the reported price is 4200.
   */
  lemma AreaCheckConversation()
    ensures
      var (s4, _) := Press(Run(Initial, ["/calculate", "50", "Студия"]).after, "area_check", [[OfferedButtons[0]]]);
      Inv(s4) && Transition(s4, "продолжить").reply == CostReported([Pricing.AreaCheck], 4200)
  {
    assert IsDigits("50") && DigitsValue("50") == 50 by {
      assert "50" == "5" + "0";
      DigitsValueAppend("5", '0');
    }
    NoCommandNoCancel("продолжить");
    OfferedServiceCharged(Initial, "50", "Студия", 0, "продолжить");
    assert [] + [Pricing.AreaCheck] == [Pricing.AreaCheck];
    Pricing.StudioAreaCheckExample();
  }

  /** A press with data no handler is registered for changes nothing and sends nothing. */
  lemma UnknownDataIgnored(s: Snapshot, data: string, keyboard: seq<seq<Button>>)
    requires data !in CallbackNames
    ensures Press(s, data, keyboard) == (s, None)
  {
  }

  /** The service keyboards hold one button: a press on a crossed one selects it, a second press deselects it. */
  lemma PressTwiceRestores(s: Snapshot, b: Button)
    requires Inv(s) && b.callbackData in CallbackNames && EndsWith(b.text, Cross) && Relabel(b.text, Check) !in s.services
    ensures
      var (s1, k1) := Press(s, b.callbackData, [[b]]);
      && s1.services == s.services + [Relabel(b.text, Check)]
      && k1 == Some([[b.(text := Relabel(b.text, Check))]])
      && Press(s1, b.callbackData, k1.value) == (s, Some([[b]]))
  {
    SingleButton(b, s.services);
    var b1 := b.(text := Relabel(b.text, Check));
    var s1 := s.(services := s.services + [b1.text]);
    SingleButton(b1, s1.services);
    ToggleTwiceRestores(b.text, s.services);
    assert b1.(text := Toggle.Toggle(b1.text, s1.services).text) == b;
  }

  /**
   * One user's calculator session: the FSM state and data, and the selection
   * the price is computed from.
   */
  class CalcSession {
    var state: Option<CalcState>
    var data: map<string, string>
    var services: seq<string>

    function Snap(): Snapshot
      reads this
    {
      Snapshot(state, data, services)
    }

    predicate Valid()
      reads this
    {
      Inv(Snap())
    }

    constructor ()
      ensures Snap() == Initial && Valid()
    {
      state, data, services := None, map[], [];
    }

    method CancelHandler() returns (r: Reply)
      modifies this
      ensures Outcome(Snap(), r) == Cancel(old(Snap()))
    {
      if state == None {
        return Ignored;
      }
      state, data := None, map[];
      r := Cancelled;
    }

    method CalculateHandler() returns (r: Reply)
      modifies this
      ensures Outcome(Snap(), r) == Calculate(old(Snap()))
    {
      state := Some(HouseAreaStep);
      r := AskedArea;
    }

    method GetHouseAreaHandler(text: string) returns (r: Reply)
      modifies this
      ensures Outcome(Snap(), r) == GetHouseArea(old(Snap()), text)
    {
      if IsDigits(text) {
        data := data[AreaKey := text];
        state := Some(RoomsNumberStep);
        r := AskedRooms;
      } else {
        r := NotANumber;
      }
    }

    method GetRoomsNumberHandler(text: string) returns (r: Reply)
      modifies this
      ensures Outcome(Snap(), r) == GetRoomsNumber(old(Snap()), text)
    {
      if text in RoomAnswers {
        data := data[RoomsKey := text];
        state := Some(UserChoicesStep);
        r := ServicesOffered(OfferedButtons);
      } else {
        r := PressAButton;
      }
    }

    /** `cost_calculation`: prices the selection with `calculations`, then clears state, data and selection. */
    method CostCalculationHandler() returns (r: Reply)
      requires Valid() && state == Some(UserChoicesStep)
      modifies this
      ensures Outcome(Snap(), r) == CostCalculation(old(Snap()))
    {
      var selected := services;
      var area := DigitsValue(data[AreaKey]);
      var rooms := data[RoomsKey];
      var cost := Pricing.Calculations(area, rooms, services);
      state, data := None, map[];
      services := [];
      r := CostReported(selected, cost);
    }

    /**
     * `button_callback`: every button of the keyboard, row by row, that
     * carries the pressed data is toggled, and the selection follows; the
     * rewritten keyboard is returned to be sent back.
     */
    method ButtonCallback(pressed: string, keyboard: seq<seq<Button>>) returns (markup: Option<seq<seq<Button>>>)
      modifies this
      ensures (Snap(), markup) == Press(old(Snap()), pressed, keyboard)
    {
      if pressed !in CallbackNames {
        return None;
      }
      var rows: seq<seq<Button>> := [];
      for i := 0 to |keyboard|
        invariant state == old(state) && data == old(data)
        invariant (rows, services) == PressKeyboard(keyboard[..i], pressed, old(services))
      {
        ghost var before := services;
        var row := keyboard[i];
        var done: seq<Button> := [];
        for j := 0 to |row|
          invariant state == old(state) && data == old(data)
          invariant (done, services) == PressRow(row[..j], pressed, before)
        {
          var button := row[j];
          if button.callbackData == pressed {
            if EndsWith(button.text, Cross) {
              button := button.(text := DropLast(button.text) + [Check]);
              if button.text !in services && !EndsWith(button.text, Cross) {
                services := services + [button.text];
              }
            } else if button.text in services {
              services := RemoveFirst(services, button.text);
              button := button.(text := DropLast(button.text) + [Cross]);
            }
          }
          assert row[..j + 1][..j] == row[..j];
          done := done + [button];
        }
        assert row[..|row|] == row;
        assert keyboard[..i + 1][..i] == keyboard[..i];
        rows := rows + [done];
      }
      assert keyboard[..|keyboard|] == keyboard;
      markup := Some(rows);
    }

    /** One incoming text message, through the handler the router picks. */
    method Handle(text: string) returns (r: Reply)
      requires Valid()
      modifies this
      ensures Outcome(Snap(), r) == Transition(old(Snap()), text)
      ensures Valid()
    {
      ghost var before := Snap();
      if IsCommand(text, "start") {
        r := Greeted;
      } else if IsCancel(text) {
        r := CancelHandler();
      } else if IsCommand(text, "calculate") {
        r := CalculateHandler();
      } else if state == Some(HouseAreaStep) {
        r := GetHouseAreaHandler(text);
      } else if state == Some(RoomsNumberStep) {
        r := GetRoomsNumberHandler(text);
      } else if state == Some(UserChoicesStep) {
        r := CostCalculationHandler();
      } else {
        r := MenuHint;
      }
      TransitionInv(before, text);
    }

    /** A button press keeps the session valid. */
    method HandlePress(pressed: string, keyboard: seq<seq<Button>>) returns (markup: Option<seq<seq<Button>>>)
      requires Valid()
      modifies this
      ensures (Snap(), markup) == Press(old(Snap()), pressed, keyboard)
      ensures Valid()
    {
      PressInv(Snap(), pressed, keyboard);
      markup := ButtonCallback(pressed, keyboard);
    }
  }
}
