# Order intake and price calculator bots, modelled in Dafny

Two aiogram Telegram bots, with the messaging cut away and the form engines
kept.

**`T_bot.py` takes renovation orders.**
- `/order` starts a ten-state form (`Order`). It asks nine questions in a fixed chain:
  overhauls place, house area, interior style, design project, overhauls date,
  address, location during the works, how to report the estimate, and phone number.
- Each answer is checked: a reply-button option, digits, digits of at least six
  characters, or anything at all.
- After the phone number, `show_summary` writes eleven entries into the
  class-level dictionary `Order.order`: the client's id and full name, then the nine answers.
- The confirmation step decides what happens to the summary:
  - "✅ да" writes the record as `key: value` lines to a file named from the current time;
  - "❌ нет" discards the record;
  - anything else asks again.
- `cancel` (the command, or any text that folds to "cancel") clears the state at any step.
- `/forward` starts a two-state sub-flow. The first text is stored as a client id,
  and every later message is forwarded to it.

**`Homebot.py` prices an apartment inspection.**
- `/calculate` asks for the area (digits), then the number of rooms
  ("1"–"4" or "Студия"), then offers nine add-on services.
- Each service has a single inline button. Pressing it flips the label between
  "❌" and "✅" and keeps the list of selected labels (`Calculate.services`).
- The next message is answered with the price: 80 per square metre plus a
  surcharge for each selected service. Some surcharges depend on the number of rooms.
- The state, its data and the selection are then cleared.

## Structure

| file | module | contents |
|---|---|---|
| `wrappers.dfy` | `Wrappers` | `Option`, `Result` |
| `strings.dfy` | `Strings` | the text operations: `isdigit`, `int`, `str`, `casefold`, `replace`, `Command` parsing, the cancel filter |
| `order_form.dfy` | `OrderForm` | the `Order` states, their order, and the answer checks |
| `order_record.dfy` | `OrderRecord` | `Order.order` as an insertion-ordered dictionary; the summary, its `"\n".join` serialisation and a parser as its partner; `get_file_name` |
| `order_bot.dfy` | `OrderBot` | the T_bot handlers and the router as functions on a `Snapshot`; invariant and behaviour lemmas; class `OrderSession` proved against the functions |
| `pricing.dfy` | `Pricing` | `calculations` as a loop, proved equal to a sum of per-service surcharges; the price list |
| `toggle.dfy` | `Toggle` | what `button_callback` does to one button, one row and a whole keyboard |
| `calc_bot.dfy` | `CalcBot` | the Homebot handlers and router on a `Snapshot`; class `CalcSession` with the nested button loops |

Each bot's handlers are written twice.
- A pure `Transition` function does what the router does: the first handler whose filter
  matches, in registration order, runs.
- A class (`OrderSession`, `CalcSession`) keeps the same state in fields that its methods
  update in place. Every method is proved to produce the state and the reply that the
  function gives. The lemmas are stated about the functions.

### Routing facts worth knowing

Handlers are tried in the order they are registered, and the command handlers come
before the state handlers. This has consequences that are easy to miss.
- `/order` (T_bot.py:118) is registered before the question handlers. It restarts
  the form at its first question from any step, and from the confirmation step
  (`OrderBot.OrderRestartsForm`).
- `/forward` (T_bot.py:71) restarts the forwarding sub-flow from any state, the
  forwarding states included (`OrderBot.ForwardRestarts`). Of the sub-flow's
  replies, only `get_message`'s (T_bot.py:88) mentions how to leave it: with `/cancel`.
- `/links` and `/order` are registered after the forwarding handlers, so in the
  forwarding states no handler of theirs runs. While the client id is awaited
  (T_bot.py:77-81), such a text is stored as the client id
  (`OrderBot.ForwardClientId`). Once the message is awaited (T_bot.py:84-96), it is
  forwarded like any other message (`OrderBot.ForwardSticky`).
- Homebot's `cancel_handler` clears the state and its data but not `Calculate.services`.
  Labels selected before a cancel are charged by the next calculation
  (`CalcBot.StaleServicesCharged`).

## Model

| member | source | states |
|---|---|---|
| Strings.NatToString | T_bot.py:372 | `str` of the user id is a non-empty digit string without a leading zero that reads back to the id |
| Strings.CaseFoldEquals | T_bot.py:58 | a text folds to `w` exactly when each character is `w`'s or, for a letter, its capital |
| Strings.CaseFoldIdempotent | T_bot.py:58 | folding a folded text changes nothing |
| Strings.ReplaceHits | T_bot.py:422 | `replace` rewrites a match at the front and goes on after it |
| Strings.ReplaceMisses | T_bot.py:422 | a pattern-long text at the front that is not the pattern, and cannot begin an overlapping match, is kept |
| Strings.ReplaceSkips | T_bot.py:422 | a prefix that does not hold the pattern's first character is kept as it is |
| Strings.PlainTextIsNoCommand | T_bot.py:57 | a text starting with neither "/" nor a character `str.split` splits on is no command |
| Strings.ReplacePieces | T_bot.py:422-426 | `str.replace` on text cut into pieces that cannot straddle a match replaces exactly the pieces equal to the pattern |
| Strings.SlashNameIsCommand | T_bot.py:57 | "/name" typed alone, with no whitespace (in the `str.isspace` sense) and no "@" in the name, is read by the `Command` filter as the command `name` |
| Strings.NoCommandNoCancel | T_bot.py:57-58 | a text starting with neither whitespace (in the `str.isspace` sense), "/" nor a letter folding to "c" passes both cancel filters |
| Strings.UnicodeSpacesSplit | T_bot.py:57-58 | the `Command` filter skips a leading non-breaking space and ends the command at one: "\u00a0/cancel" cancels, and "/cancel\u00a0now" is the command `cancel` |
| Strings.FirstWordStops | T_bot.py:57 | the command word ends at the first whitespace character |
| Strings.CancelWord | T_bot.py:57 | "/cancel" has no whitespace and is read whole as the command `cancel` |
| OrderForm.Next | T_bot.py:140-357 | each question's handler moves to the state one position further along the form |
| OrderForm.ChainIsWalkedByNext | T_bot.py:29-40 | the form is one chain of ten states; each question leads to the next; `save_order` follows `phone_number` and asks nothing |
| OrderForm.KeysAreDistinct | T_bot.py:140-357 | different questions store their answers under different data keys |
| OrderForm.Validate | T_bot.py:140-357 | a choice question accepts exactly its options; house area accepts exactly digit strings; phone number accepts exactly digit strings of length at least six; address accepts anything; an accepted answer is the text itself |
| OrderRecord.FieldsDistinct | T_bot.py:372-382 | `show_summary` assigns eleven distinct keys |
| OrderRecord.LabelsDistinct | T_bot.py:372-382 | the eleven key texts differ |
| OrderRecord.AddKeyFacts | T_bot.py:372-382 | assigning a key that is present keeps the key order; a new key goes last |
| OrderRecord.PutFacts | T_bot.py:372-382 | `d[k] = v` keeps the dictionary well formed, maps `k` to `v`, keeps every other value, and keeps or extends the key order |
| OrderRecord.ItemsOfPut | T_bot.py:372-382 | after `d[k] = v`, `items()` has a new key's entry appended, or a present key's entry replaced where it stands with every other entry kept |
| OrderRecord.SummaryRecord | T_bot.py:372-382 | the summary is eleven entries under the eleven key texts: id, full name, then the nine answers |
| OrderRecord.SummarizeShape | T_bot.py:372-382 | from an empty record or one that holds a previous summary, the eleven assignments leave exactly the eleven keys, in order, each with its value |
| OrderRecord.SummaryKeys | T_bot.py:372-382 | after the assignments the keys are the eleven, in assignment order |
| OrderRecord.FirstSummaryKeys | T_bot.py:372-382 | into an empty record the keys go in one after another |
| OrderRecord.NextSummaryKeys | T_bot.py:372-382 | into a record holding a previous summary no key moves |
| OrderRecord.SummaryValues | T_bot.py:372-382 | each key holds the value assigned to it, overwriting any previous value |
| OrderRecord.SummaryItems | T_bot.py:372-382 | after `show_summary`, `Order.order.items()` is exactly the summary, whether the record was empty or held a previous order |
| OrderRecord.ItemsOfSummary | T_bot.py:372-382 | a record holding exactly the eleven keys in order, with the summary's values, lists as the summary |
| OrderRecord.ParseLineOfLine | T_bot.py:405 | a `key: value` line whose key has no colon and neither part has a line break reads back to its entry |
| OrderRecord.SplitJoin | T_bot.py:405 | splitting the `"\n".join` of lines without line breaks gives the lines back |
| OrderRecord.ParseSerialize | T_bot.py:405 | the text `saving_order` writes reads back to the record it was made from |
| OrderRecord.LabelPrintable | T_bot.py:372-382 | no key text holds a colon or a line break |
| OrderRecord.SummaryPrintable | T_bot.py:372-382 | a summary whose values have no line break can be read back entry by entry |
| OrderRecord.FillDay | T_bot.py:422 | replacing the day placeholder in the template touches only that placeholder |
| OrderRecord.TemplatePieces | T_bot.py:406-407 | the template is fixed text interleaved with the five placeholders |
| OrderRecord.PlaceholdersDiffer | T_bot.py:422-426 | the five placeholders differ in their letter, so each `replace` finds only its own |
| OrderRecord.FillMonth | T_bot.py:423 | replacing the month placeholder touches only that placeholder, even after the day's digits are in |
| OrderRecord.FillYear | T_bot.py:424 | the same for the year |
| OrderRecord.FillHour | T_bot.py:425 | the same for the hour |
| OrderRecord.FillMinute | T_bot.py:426 | the same for the minute, leaving the finished name |
| OrderRecord.FillFileTemplate | T_bot.py:406-427 | the template with digit fields filled in is "Order_from_" + day + month + year + "_" + hour + "_" + minute + ".txt" |
| OrderRecord.GetFileName | T_bot.py:419-427 | the five successive `replace` calls compute the filled-in template, which has exactly that form |
| OrderBot.InitialInv | T_bot.py:29-45 | a fresh session meets the invariant |
| OrderBot.AnsweredBeforeChain | T_bot.py:140-357 | once the form has passed the phone number, all nine questions hold valid answers |
| OrderBot.StoredAnswerKeepsEarlier | T_bot.py:140-357 | storing an accepted answer keeps every earlier answer |
| OrderBot.AnswerAdvancesInv | T_bot.py:140-347 | an accepted answer before the phone number moves on and keeps the invariant |
| OrderBot.SummaryShownInv | T_bot.py:350-382 | an accepted phone number completes the answers, and the record then holds them |
| OrderBot.PhoneAnswerStep | T_bot.py:350-357 | an accepted phone number completes the nine valid answers and moves on to the summary |
| OrderBot.SaveOrderInv | T_bot.py:360-382 | a record holding the eleven keys with the stored answers meets the confirmation step's invariant |
| OrderBot.AnswerStepInv | T_bot.py:140-357 | every question handler keeps the invariant |
| OrderBot.TransitionInv | T_bot.py:48-447 | every message keeps the invariant: earlier answers valid, record empty or the eleven keys, and the record's answers equal to the stored ones at confirmation |
| OrderBot.DigitsPassThrough | T_bot.py:57-58 | a digit answer is never taken by a command or by cancel |
| OrderBot.PlainTextPassesThrough | T_bot.py:57-58 | a text whose folded form starts with neither "/", whitespace (in the `str.isspace` sense) nor "c" is taken by no command and not by cancel |
| OrderBot.CancelWordIsNoCommand | T_bot.py:58 | a text that folds to "cancel" is no command |
| OrderBot.CancelWins | T_bot.py:57-68 | cancel at any step: without a state nothing changes; otherwise state and data are cleared and the record is kept |
| OrderBot.QuestionDispatch | T_bot.py:140-357 | at a question, a text that no command takes goes to that question's handler |
| OrderBot.RejectedAnswerChangesNothing | T_bot.py:140-357 | a refused answer leaves state, data and record unchanged and says why |
| OrderBot.AcceptedAnswerAdvances | T_bot.py:140-347 | an accepted answer is stored under its key and the next question is asked |
| OrderBot.FormFollowsChain | T_bot.py:140-357 | from the i-th question an accepted answer leads to the (i+1)-th state, a refused one to no change |
| OrderBot.PhoneShowsSummary | T_bot.py:350-382 | an accepted phone number shows the nine answers, awaits confirmation, and leaves the record's items equal to the summary of the id, name and answers |
| OrderBot.RecordIsSummary | T_bot.py:360-382 | while confirmation is awaited, the record's items are the summary of the stored answers |
| OrderBot.MarkedTextPassesThrough | T_bot.py:401 | a text folding to "✅ да" or "❌ нет" is taken by no command |
| OrderBot.ConfirmYes | T_bot.py:401-416 | "✅ да" clears state and data, keeps the record, and writes its `key: value` lines under "orders/" + the filled-in name |
| OrderBot.ConfirmNo | T_bot.py:430-437 | "❌ нет" clears state, data and record |
| OrderBot.ConfirmOther | T_bot.py:440-442 | any other text at confirmation changes nothing |
| OrderBot.SavedFileReadsBack | T_bot.py:401-410 | the written file reads back to the confirmed summary: id, name and nine answers under the eleven key texts |
| OrderBot.ForwardClientId | T_bot.py:77-81 | the first text of the sub-flow is stored as the client id and the next state is entered |
| OrderBot.ForwardSticky | T_bot.py:84-96 | after that, every message that is not `/start`, cancel or `/forward` is forwarded to the stored id and the state stays |
| OrderBot.ForwardRestarts | T_bot.py:71-74 | `/forward` enters the sub-flow from any state, keeping the data |
| OrderBot.OrderRestartsForm | T_bot.py:118-137 | outside the sub-flow, `/order` restarts the form at its first question |
| OrderBot.OrderSession.constructor | T_bot.py:29-45 | a new session has no state, no data and an empty record |
| OrderBot.OrderSession.SetState | T_bot.py:79 | `state.set_state` changes the state only |
| OrderBot.OrderSession.UpdateData | T_bot.py:78 | `state.update_data` stores one key and changes nothing else |
| OrderBot.OrderSession.ClearState | T_bot.py:64 | `state.clear` drops the state and its data and keeps the record |
| OrderBot.OrderSession.SetItem | T_bot.py:372-382 | one dictionary assignment on the record; nothing else changes |
| OrderBot.OrderSession.CancelHandler | T_bot.py:57-68 | updates the fields as `cancel_handler` does |
| OrderBot.OrderSession.StartForwardMessage | T_bot.py:71-74 | enters the sub-flow |
| OrderBot.OrderSession.GetClientIdHandler | T_bot.py:77-81 | stores the client id and moves on |
| OrderBot.OrderSession.GetMessageHandler | T_bot.py:84-96 | stores the chat id and forwards the message to the stored client id |
| OrderBot.OrderSession.GetOrderHandler | T_bot.py:118-137 | starts the form |
| OrderBot.OrderSession.AnswerHandler | T_bot.py:140-357 | checks the answer, then stores it and moves on, or re-asks |
| OrderBot.OrderSession.ShowSummary | T_bot.py:360-397 | reads the nine answers and makes the eleven assignments in order; the record becomes the summary |
| OrderBot.OrderSession.SavingOrder | T_bot.py:401-416 | clears state and data and writes the record's lines to the time-stamped file |
| OrderBot.OrderSession.Reorder | T_bot.py:430-437 | clears state, data and record |
| OrderBot.OrderSession.Handle | T_bot.py:48-447 | routes a message as the router does and keeps the session valid |
| Pricing.Calculations | Homebot.py:172-216 | the loop's result is 80 per square metre plus the sum of the surcharges of the listed services |
| Pricing.LabelsDiffer | Homebot.py:175-214 | the nine service labels are distinct |
| Pricing.SurchargeFollowsPriceList | Homebot.py:174-215 | each label is charged as the price list says: flat, by room band with the fallback for other answers, or per square metre; unlisted labels add 0 |
| Pricing.UnpricedServices | Homebot.py:174-215 | repair examination and legal penalty add nothing |
| Pricing.NoServicesPrice | Homebot.py:173-174 | with no service selected the price is 80 times the area |
| Pricing.SurchargeNonNegative | Homebot.py:174-215 | no surcharge is negative for a non-negative area |
| Pricing.SurchargesAppend | Homebot.py:174-215 | the surcharges of two lists in turn add up |
| Pricing.PriceAtLeastBase | Homebot.py:172-216 | the price is never below 80 times the area |
| Pricing.SurchargesRemove | Homebot.py:174-215 | taking one service out of the list takes exactly its surcharge out |
| Pricing.PriceOrderIndependent | Homebot.py:172-216 | lists with the same services, counted with multiplicity, have the same price |
| Pricing.BaseExample | Homebot.py:172-216 | 50 m², two rooms, nothing selected: 4000 |
| Pricing.StudioAreaCheckExample | Homebot.py:175-177 | 50 m², studio, area check: 4200 |
| Pricing.SpecialistVisitExample | Homebot.py:214-215 | 100 m², four rooms, specialist visit: 12000 |
| Toggle.Relabel | Homebot.py:148 | the relabelled text ends with the new mark and keeps everything before it |
| Toggle.RemoveFirst | Homebot.py:153 | `list.remove` takes out exactly one occurrence |
| Toggle.FirstIndex | Homebot.py:153 | the position `list.remove` works on holds the element, and no earlier position does |
| Toggle.RemoveFirstKeepsOrder | Homebot.py:153 | `list.remove` drops the first occurrence, and the elements before and after it keep their order |
| Toggle.Toggle | Homebot.py:147-154 | a crossed label becomes checked and is appended unless present; a recorded checked label is crossed again and its first occurrence removed, the other labels keeping their order; an unrecorded checked label is left alone |
| Toggle.PressButton | Homebot.py:146-154 | a button with other callback data is left alone |
| Toggle.PressRow | Homebot.py:145-154 | a pressed row has as many buttons as before |
| Toggle.PressKeyboard | Homebot.py:143-155 | a pressed keyboard has as many rows as before |
| Toggle.ToggleKeepsSelection | Homebot.py:147-154 | a toggle keeps the selection free of duplicates and all checked |
| Toggle.RemoveKeepsSelection | Homebot.py:152-153 | removing a label keeps the selection distinct and checked and drops exactly that label |
| Toggle.ToggleTwiceRestores | Homebot.py:147-154 | two presses on a crossed, unrecorded label restore label and selection |
| Toggle.RemoveAppended | Homebot.py:150-153 | removing a label just appended restores the list |
| Toggle.UnrecordedCheckIsInert | Homebot.py:151-154 | pressing a checked label that is not recorded changes nothing |
| Toggle.ToggleKeepsName | Homebot.py:148-154 | a press changes at most the label's last character, the mark |
| Toggle.PressRowSelection | Homebot.py:144-154 | across a row the selection stays distinct and checked |
| Toggle.PressRowLabels | Homebot.py:144-154 | across a row, each button changes only as a press allows |
| Toggle.PressRowFacts | Homebot.py:144-154 | across a row, buttons with other data are left as they were, pressed buttons keep their data and the text before the mark, and the selection stays distinct and checked |
| Toggle.PressKeyboardFacts | Homebot.py:144-154 | the same across the whole keyboard, whose rows keep their lengths |
| Toggle.SingleButton | Homebot.py:134-137 | on the one-button keyboards the bot sends, a press is one toggle |
| CalcBot.TransitionInv | Homebot.py:33-221 | every message keeps the invariant: a digit area once the rooms are asked, an accepted room answer once the services are offered, and a distinct, checked selection |
| CalcBot.InitialInv | Homebot.py:26-30 | a fresh session meets the invariant |
| CalcBot.PressInv | Homebot.py:140-155 | every press keeps the invariant and changes only the selection |
| CalcBot.DigitsPassThrough | Homebot.py:42-43 | a digit area is never taken by cancel or a command |
| CalcBot.RoomAnswerPassesThrough | Homebot.py:42-43 | neither is a room answer |
| CalcBot.AreaAcceptedIff | Homebot.py:65-87 | the area is accepted exactly when it is digits; a rejection changes nothing |
| CalcBot.RoomsAcceptedIff | Homebot.py:90-131 | rooms are accepted exactly when the answer is "1", "2", "3", "4" or "Студия"; a rejection changes nothing |
| CalcBot.CostClears | Homebot.py:158-169 | once services are offered, any text gets the price of the stored area, rooms and selection (at least the base rate); state, data and selection are cleared |
| CalcBot.CancelKeepsServices | Homebot.py:42-53 | cancel wins in every state and clears state and data, but not the selection |
| CalcBot.CancelIsNoStart | Homebot.py:42-43 | a cancel text is never `/start` |
| CalcBot.Run | Homebot.py:33-221 | a sequence of messages keeps the invariant |
| CalcBot.RunStep | Homebot.py:33-221 | a conversation is its first message and then the rest |
| CalcBot.CalculateCommand | Homebot.py:56-62 | "/calculate" asks for the area from any state, keeping data and selection |
| CalcBot.CalculateText | Homebot.py:56 | "/calculate" is that command and neither `/start` nor cancel |
| CalcBot.AreaStep | Homebot.py:65-69 | a digit area is stored and the rooms are asked |
| CalcBot.RoomsStep | Homebot.py:90-124 | a room answer is stored and the nine service buttons are offered |
| CalcBot.OfferedButtonsPriced | Homebot.py:95-122 | each offered button carries a crossed label and data the callback handler takes, and one press turns its label into the label the price list is written for, in the same order |
| CalcBot.OfferedButtonPriced | Homebot.py:95-122 | the same for the i-th button |
| CalcBot.OfferedServiceCharged | Homebot.py:56-169 | `/calculate`, an area, a room answer, a press on the i-th offered button and any text report the price of the earlier selection plus that service |
| CalcBot.AreaCheckConversation | Homebot.py:56-216 | 50 m², "Студия", a press on the area check and "продолжить" report 4200 |
| CalcBot.CalculationRun | Homebot.py:56-169 | `/calculate`, an area, a room answer and any text report the price of the selection held at the start |
| CalcBot.StaleServicesCharged | Homebot.py:42-169 | services selected before a cancel are charged by the next calculation |
| CalcBot.NextCalculationStartsClean | Homebot.py:158-169 | after a price is reported, the next calculation without presses charges 80 times the area |
| CalcBot.UnknownDataIgnored | Homebot.py:140 | a press with unregistered data changes nothing |
| CalcBot.PressTwiceRestores | Homebot.py:140-155 | on a service button, a press selects the crossed label and a second press restores the selection and the button |
| CalcBot.CalcSession.constructor | Homebot.py:26-30 | a new session has no state, no data and an empty selection |
| CalcBot.CalcSession.CancelHandler | Homebot.py:42-53 | updates the fields as `cancel_handler` does |
| CalcBot.CalcSession.CalculateHandler | Homebot.py:56-62 | enters the area question |
| CalcBot.CalcSession.GetHouseAreaHandler | Homebot.py:65-87 | stores a digit area and moves on, or re-asks |
| CalcBot.CalcSession.GetRoomsNumberHandler | Homebot.py:90-131 | stores an accepted room answer and moves on, or re-asks |
| CalcBot.CalcSession.CostCalculationHandler | Homebot.py:158-169 | prices the selection with `calculations` and clears state, data and selection |
| CalcBot.CalcSession.ButtonCallback | Homebot.py:140-155 | the nested loops over rows and buttons compute the rewritten keyboard and new selection, as `PressKeyboard` specifies |
| CalcBot.CalcSession.Handle | Homebot.py:33-221 | routes a message as the router does and keeps the session valid |
| CalcBot.CalcSession.HandlePress | Homebot.py:140-155 | a press keeps the session valid |

## Left out

- Message sending and all aiogram transport: replies, keyboards, photos, `edit_reply_markup`, `forward_message`, `send_document`, polling and logging. Replies are modelled as an `Effect` or `Reply` value that names what was sent.
- Writing the order file and sending it to the manager. The model keeps the path and the text that would be written.
- `datetime.now()` and `strftime`. The five date fields are a `Stamp` parameter.
- Messages without text (photos, stickers, documents), because the model's messages are texts. In T_bot, the house area and phone number handlers raise on `None.isdigit()` (T_bot.py:157, 352). The six choice questions find `None` in no option list and ask again. `get_address` and `get_client_id` store `None` and move on (T_bot.py:296, 79). `get_message` forwards whatever it receives. Forwarding a photo, which the prompt at T_bot.py:81 asks for, is not modelled. In Homebot, `get_house_area` raises (Homebot.py:67), `get_rooms_number` asks again, and `cost_calculation` prices any message.
- The `/start`, `/links` and catch-all replies are kept only as effects; they change no state.
- Cross-user sharing: `Order.order` and `Calculate.services` are class attributes shared by every chat. The model gives one session its own record and selection.
- Strings.IsDigits: `str.isdigit` also accepts non-ASCII digits. The model accepts ASCII `0`–`9` only.
- Strings.CaseFold: `str.casefold` covers every script. The model folds Latin A–Z and Cyrillic А–Я and Ё only. The fold is exact for "cancel" (T_bot.py:58) but not for the confirmation texts. `str.casefold` turns U+1C81 (ᲁ) into "д", and U+1C84 and U+1C85 into "т". So in the source "✅ ᲁа" saves the order (T_bot.py:401) and "❌ неᲄ" discards it (T_bot.py:430). The model leaves these characters as they are, so both texts reach `OrderBot.ConfirmOther` and the bot asks again.
- Strings.CommandOf: the `Command` filter's check of the bot's own username after "@" and its prefix options are not modelled. The mention is dropped.
- The `show_summary` reply: the `html.quote`d text is modelled as the list of nine answers it shows.
- OrderRecord.Field: the eleven key texts are an enumeration mapped to their texts, not string keys.
- OrderBot.SavedFileReadsBack: holds only when no stored value contains a line break. A value with one cannot be told apart from two lines in the written file.
- CalcBot.CalcSession.ButtonCallback: the keyboard is a value the method rewrites and returns, which `edit_reply_markup` then sends. The in-place update of aiogram's button objects, and any aliasing between them, is not modelled.
- CalcBot.CalcSession.CostCalculationHandler: `int()` of the stored area is `DigitsValue`, and the room answer is always present. Both hold because the invariant rules out a missing or non-digit area.
