/**
 * The questions of the order bot (T_bot.py): the `Order` states, the answers
 * each question accepts, the key its answer is stored under, and the fixed
 * order in which the questions follow one another.
 */
module OrderForm {
  import opened Wrappers
  import opened Strings

  /**
   * The `Order` states, declared in the order T_bot.py declares them:
   * `SaveOrder` is declared before `PhoneNumber` but is reached after it.
   */
  datatype Step =
    | OverhaulsPlace | HouseArea | InteriorStyle | DesignProject | OverhaulsDate
    | Address | YourLocation | HowToTell | SaveOrder | PhoneNumber

  /** Every state but `SaveOrder` asks a question; `SaveOrder` awaits the yes/no confirmation. */
  predicate IsQuestion(s: Step) {
    s != SaveOrder
  }

  /** The questions answered by pressing one of a fixed set of reply buttons. */
  predicate IsChoice(s: Step) {
    s in {OverhaulsPlace, InteriorStyle, DesignProject, OverhaulsDate, YourLocation, HowToTell}
  }

  const PlaceOptions: seq<string> := ["в новостройке", "во вторичном жилье", "в доме"]
  const StyleOptions: seq<string> := [
    "классический", "лофт", "минимализм", "неоклассика",
    "современная классика", "современный стиль", "хайтек"]
  const DesignOptions: seq<string> := ["Да", "Нет", "Пока думаю"]
  const DateOptions: seq<string> :=
    ["в течение 2-х недель", "в течение этого месяца", "в следующем месяце", "другое"]
  const LocationOptions: seq<string> := ["в Набережных Челнах", "в другом городе", "другое"]
  const ContactOptions: seq<string> := ["по WhatsApp", "в Telegram", "по телефону"]

  /** The button texts a choice question accepts. */
  function Options(s: Step): seq<string>
    requires IsChoice(s)
  {
    match s
    case OverhaulsPlace => PlaceOptions
    case InteriorStyle => StyleOptions
    case DesignProject => DesignOptions
    case OverhaulsDate => DateOptions
    case YourLocation => LocationOptions
    case HowToTell => ContactOptions
  }

  /** The key `state.update_data` stores a question's answer under. */
  function Key(s: Step): string
    requires IsQuestion(s)
  {
    match s
    case OverhaulsPlace => "overhauls_place"
    case HouseArea => "house_area"
    case InteriorStyle => "interior_style"
    case DesignProject => "design_project"
    case OverhaulsDate => "overhauls_date"
    case Address => "address"
    case YourLocation => "your_location"
    case HowToTell => "how_to_tell"
    case PhoneNumber => "phone_number"
  }

  /** Position along the form: the order the handlers move through the states. */
  function Position(s: Step): nat {
    match s
    case OverhaulsPlace => 0
    case HouseArea => 1
    case InteriorStyle => 2
    case DesignProject => 3
    case OverhaulsDate => 4
    case Address => 5
    case YourLocation => 6
    case HowToTell => 7
    case PhoneNumber => 8
    case SaveOrder => 9
  }

  /** The states in the order the form visits them. */
  const Chain: seq<Step> := [
    OverhaulsPlace, HouseArea, InteriorStyle, DesignProject, OverhaulsDate,
    Address, YourLocation, HowToTell, PhoneNumber, SaveOrder]

  /** The state `state.set_state` moves to once a question is answered. */
  function Next(s: Step): (n: Step)
    requires IsQuestion(s)
    ensures Position(n) == Position(s) + 1
  {
    match s
    case OverhaulsPlace => HouseArea
    case HouseArea => InteriorStyle
    case InteriorStyle => DesignProject
    case DesignProject => OverhaulsDate
    case OverhaulsDate => Address
    case Address => YourLocation
    case YourLocation => HowToTell
    case HowToTell => PhoneNumber
    case PhoneNumber => SaveOrder
  }

  /** The form is one chain: each state sits at its position in `Chain` and `Next` walks it in order. */
  lemma ChainIsWalkedByNext()
    ensures |Chain| == 10
    ensures forall s: Step :: Chain[Position(s)] == s
    ensures forall i :: 0 <= i < 9 ==> IsQuestion(Chain[i]) && Next(Chain[i]) == Chain[i + 1]
    ensures !IsQuestion(Chain[9])
  {
  }

  /** Distinct questions store their answers under distinct keys. */
  lemma KeysAreDistinct(s: Step, t: Step)
    requires IsQuestion(s) && IsQuestion(t) && s != t
    ensures Key(s) != Key(t)
  {
  }

  /**
   * Why an answer is refused. Each maps to the hint the handler replies with:
   * press one of the buttons, write digits, or the number is not valid. The
   * form stays where it is.
   */
  datatype Rejection = NotAnOption | NotNumeric | InvalidPhone

  /**
   * The check each question's handler applies to the message text: a choice
   * must be one of the buttons, the area digits only, the phone number digits
   * only and at least six of them, and the address anything at all.
   */
  function Validate(s: Step, text: string): (r: Result<string, Rejection>)
    requires IsQuestion(s)
    ensures r.Ok? ==> r.value == text
    ensures IsChoice(s) ==> (r.Ok? <==> text in Options(s)) && (r.Err? ==> r.error == NotAnOption)
    ensures s == HouseArea ==> (r.Ok? <==> IsDigits(text)) && (r.Err? ==> r.error == NotNumeric)
    ensures s == PhoneNumber ==> (r.Ok? <==> IsDigits(text) && |text| >= 6) && (r.Err? ==> r.error == InvalidPhone)
    ensures s == Address ==> r.Ok?
  {
    match s
    case HouseArea => if IsDigits(text) then Ok(text) else Err(NotNumeric)
    case Address => Ok(text)
    case PhoneNumber => if IsDigits(text) && |text| >= 6 then Ok(text) else Err(InvalidPhone)
    case OverhaulsPlace | InteriorStyle | DesignProject | OverhaulsDate | YourLocation | HowToTell =>
      if text in Options(s) then Ok(text) else Err(NotAnOption)
  }

  predicate Accepts(s: Step, text: string)
    requires IsQuestion(s)
  {
    Validate(s, text).Ok?
  }
}
