/**
 * The add-on buttons of the price calculator (Homebot.py, `button_callback`):
 * pressing a button whose label ends in a cross turns the cross into a check
 * mark and records the label among the selected services; pressing a checked
 * button whose label is recorded removes the label and turns the mark back
 * into a cross.
 */
module Toggle {

  const Cross: char := '❌'
  const Check: char := '✅'

  /** An inline keyboard button: its label and the data it sends back when pressed. */
  datatype Button = Button(text: string, callbackData: string)

  /** The callback data the handler is registered for; presses carrying other data reach no handler. */
  const CallbackNames: seq<string> := [
    "area_check", "bank_evaluation", "thermal_imaging_inspection", "apartment_plan",
    "repair_examination", "legal_penalty", "radiation_measurement", "thermal_imaging_report",
    "specialist_visit"]

  predicate EndsWith(s: string, c: char) {
    |s| > 0 && s[|s| - 1] == c
  }

  /** `s[:-1]`: everything but the last character; empty for the empty string. */
  function DropLast(s: string): string {
    if |s| == 0 then s else s[..|s| - 1]
  }

  /** `s[:-1] + mark` */
  function Relabel(s: string, mark: char): (r: string)
    ensures EndsWith(r, mark)
    ensures |s| > 0 ==> |r| == |s| && r[..|s| - 1] == s[..|s| - 1]
  {
    DropLast(s) + [mark]
  }

  /** The position of the first occurrence of `x`. */
  function FirstIndex(s: seq<string>, x: string): (i: nat)
    requires x in s
    ensures i < |s| && s[i] == x && x !in s[..i]
  {
    if s[0] == x then 0
    else
      var j := FirstIndex(s[1..], x);
      assert s[..j + 1] == [s[0]] + s[1..][..j];
      j + 1
  }

  /** `list.remove(x)`: drops the first occurrence of `x`; the other elements keep their order. */
  function RemoveFirst(s: seq<string>, x: string): (r: seq<string>)
    requires x in s
    ensures multiset(r) == multiset(s) - multiset{x}
    ensures |r| == |s| - 1
  {
    assert s == [s[0]] + s[1..];
    if s[0] == x then s[1..] else [s[0]] + RemoveFirst(s[1..], x)
  }

  /** It is the first occurrence that goes, and the elements before and after it keep their order. */
  lemma {:induction false} RemoveFirstKeepsOrder(s: seq<string>, x: string)
    requires x in s
    ensures RemoveFirst(s, x) == s[..FirstIndex(s, x)] + s[FirstIndex(s, x) + 1..]
  {
    if s[0] != x {
      var t := s[1..];
      var j := FirstIndex(t, x);
      assert RemoveFirst(s, x) == [s[0]] + RemoveFirst(t, x);
      assert FirstIndex(s, x) == j + 1;
      assert RemoveFirst(t, x) == t[..j] + t[j + 1..] by {
        RemoveFirstKeepsOrder(t, x);
      }
      DropAfterHead(s, j);
    }
  }

  /** Dropping position `j + 1` of `s` keeps its head and drops position `j` of its tail. */
  lemma DropAfterHead(s: seq<string>, j: nat)
    requires j + 1 < |s|
    ensures s[..j + 1] + s[j + 2..] == [s[0]] + (s[1..][..j] + s[1..][j + 1..])
  {
    assert s[..j + 1] == [s[0]] + s[1..][..j];
    assert s[j + 2..] == s[1..][j + 1..];
  }

  predicate NoDuplicates(s: seq<string>) {
    forall i, j :: 0 <= i < j < |s| ==> s[i] != s[j]
  }

  /** Every recorded label carries the check mark. */
  predicate AllChecked(s: seq<string>) {
    forall i :: 0 <= i < |s| ==> EndsWith(s[i], Check)
  }

  /** One pressed button's label and the recorded labels after the press. */
  datatype Pressed = Pressed(text: string, services: seq<string>)

  /** The effect of pressing the button labelled `text`, whose callback data matches. */
  function Toggle(text: string, services: seq<string>): (p: Pressed)
    ensures EndsWith(text, Cross) ==>
      p.text == Relabel(text, Check) &&
      p.services == if Relabel(text, Check) in services then services else services + [Relabel(text, Check)]
    ensures !EndsWith(text, Cross) && text in services ==>
      p.text == Relabel(text, Cross) && p.services == RemoveFirst(services, text) &&
      multiset(p.services) == multiset(services) - multiset{text}
    ensures !EndsWith(text, Cross) && text !in services ==> p == Pressed(text, services)
  {
    if EndsWith(text, Cross) then
      var checked := Relabel(text, Check);
      Pressed(checked, if checked !in services && !EndsWith(checked, Cross) then services + [checked] else services)
    else if text in services then
      Pressed(Relabel(text, Cross), RemoveFirst(services, text))
    else
      Pressed(text, services)
  }

  /** One button, as the inner loop treats it: only a button carrying the pressed data changes. */
  function PressButton(b: Button, data: string, services: seq<string>): (r: (Button, seq<string>))
    ensures b.callbackData != data ==> r == (b, services)
    ensures r.0.callbackData == b.callbackData
  {
    if b.callbackData == data then
      var p := Toggle(b.text, services);
      (b.(text := p.text), p.services)
    else (b, services)
  }

  /** A row of buttons, left to right. */
  function PressRow(row: seq<Button>, data: string, services: seq<string>): (r: (seq<Button>, seq<string>))
    ensures |r.0| == |row|
  {
    if row == [] then ([], services)
    else
      var (front, s) := PressRow(row[..|row| - 1], data, services);
      var (b, s') := PressButton(row[|row| - 1], data, s);
      (front + [b], s')
  }

  /** The whole keyboard, row by row: the markup `edit_reply_markup` sends back, and the recorded labels. */
  function PressKeyboard(rows: seq<seq<Button>>, data: string, services: seq<string>): (r: (seq<seq<Button>>, seq<string>))
    ensures |r.0| == |rows|
  {
    if rows == [] then ([], services)
    else
      var (front, s) := PressKeyboard(rows[..|rows| - 1], data, services);
      var (row, s') := PressRow(rows[|rows| - 1], data, s);
      (front + [row], s')
  }

  /** A press keeps the recorded labels free of duplicates and all checked. */
  lemma ToggleKeepsSelection(text: string, services: seq<string>)
    requires NoDuplicates(services) && AllChecked(services)
    ensures NoDuplicates(Toggle(text, services).services)
    ensures AllChecked(Toggle(text, services).services)
  {
    if !EndsWith(text, Cross) && text in services {
      RemoveKeepsSelection(services, text);
    }
  }

  lemma {:induction false} RemoveKeepsSelection(s: seq<string>, x: string)
    requires x in s && NoDuplicates(s) && AllChecked(s)
    ensures NoDuplicates(RemoveFirst(s, x)) && AllChecked(RemoveFirst(s, x))
    ensures x !in RemoveFirst(s, x)
    ensures forall y :: y in RemoveFirst(s, x) <==> y in s && y != x
  {
    if s[0] != x {
      assert forall i :: 0 <= i < |s[1..]| ==> s[1..][i] == s[i + 1] != s[0];
      RemoveKeepsSelection(s[1..], x);
      var r := RemoveFirst(s[1..], x);
      assert s[0] !in r;
      assert RemoveFirst(s, x) == [s[0]] + r;
    } else {
      assert forall i :: 0 <= i < |s[1..]| ==> s[1..][i] == s[i + 1] != s[0];
    }
  }

  /** Pressing a crossed button whose checked label is not recorded, then pressing it again, restores label and list. */
  lemma ToggleTwiceRestores(text: string, services: seq<string>)
    requires EndsWith(text, Cross) && Relabel(text, Check) !in services
    ensures Toggle(Toggle(text, services).text, Toggle(text, services).services) == Pressed(text, services)
  {
    var checked := Relabel(text, Check);
    assert Toggle(text, services) == Pressed(checked, services + [checked]);
    RemoveAppended(services, checked);
    assert DropLast(checked) == DropLast(text);
    assert text == DropLast(text) + [Cross];
  }

  lemma {:induction false} RemoveAppended(s: seq<string>, x: string)
    requires x !in s
    ensures x in s + [x] && RemoveFirst(s + [x], x) == s
  {
    if s != [] {
      assert (s + [x])[1..] == s[1..] + [x];
      RemoveAppended(s[1..], x);
      assert [s[0]] + s[1..] == s;
    }
  }

  /** Pressing a checked button whose label is not recorded changes nothing. */
  lemma UnrecordedCheckIsInert(text: string, services: seq<string>)
    requires EndsWith(text, Check) && text !in services
    ensures Toggle(text, services) == Pressed(text, services)
  {
  }

  /** A press changes a label's mark at most: the text before the mark stays. */
  lemma ToggleKeepsName(text: string, services: seq<string>)
    ensures DropLast(Toggle(text, services).text) == DropLast(text)
  {
  }

  /**
   * What a press may do to one button: one with other callback data is left
   * as it was; a pressed one keeps its data and the text before the mark.
   */
  predicate PressedAs(before: Button, after: Button, data: string) {
    if before.callbackData != data then after == before
    else after.callbackData == data && DropLast(after.text) == DropLast(before.text)
  }

  /** Across a row, every button changes as `PressedAs` allows, and the selection stays duplicate-free and checked. */
  lemma PressRowFacts(row: seq<Button>, data: string, services: seq<string>)
    requires NoDuplicates(services) && AllChecked(services)
    ensures NoDuplicates(PressRow(row, data, services).1) && AllChecked(PressRow(row, data, services).1)
    ensures forall j :: 0 <= j < |row| ==> PressedAs(row[j], PressRow(row, data, services).0[j], data)
  {
    PressRowSelection(row, data, services);
    PressRowLabels(row, data, services);
  }

  lemma {:induction false} PressRowSelection(row: seq<Button>, data: string, services: seq<string>)
    requires NoDuplicates(services) && AllChecked(services)
    ensures NoDuplicates(PressRow(row, data, services).1) && AllChecked(PressRow(row, data, services).1)
    decreases |row|
  {
    if row != [] {
      var front := row[..|row| - 1];
      PressRowSelection(front, data, services);
      var s := PressRow(front, data, services).1;
      if row[|row| - 1].callbackData == data {
        ToggleKeepsSelection(row[|row| - 1].text, s);
      }
    }
  }

  lemma {:induction false} PressRowLabels(row: seq<Button>, data: string, services: seq<string>)
    ensures forall j :: 0 <= j < |row| ==> PressedAs(row[j], PressRow(row, data, services).0[j], data)
    decreases |row|
  {
    if row != [] {
      var front := row[..|row| - 1];
      PressRowLabels(front, data, services);
      var (f, s) := PressRow(front, data, services);
      var last := row[|row| - 1];
      var (b, s') := PressButton(last, data, s);
      assert PressRow(row, data, services).0 == f + [b];
      if last.callbackData == data {
        ToggleKeepsName(last.text, s);
      }
      assert PressedAs(last, b, data);
    }
  }

  /** The same across the whole keyboard. */
  lemma {:induction false} PressKeyboardFacts(rows: seq<seq<Button>>, data: string, services: seq<string>)
    requires NoDuplicates(services) && AllChecked(services)
    ensures NoDuplicates(PressKeyboard(rows, data, services).1) && AllChecked(PressKeyboard(rows, data, services).1)
    ensures forall i :: 0 <= i < |rows| ==> |PressKeyboard(rows, data, services).0[i]| == |rows[i]|
    ensures forall i, j :: 0 <= i < |rows| && 0 <= j < |rows[i]| ==>
      PressedAs(rows[i][j], PressKeyboard(rows, data, services).0[i][j], data)
    decreases |rows|
  {
    if rows != [] {
      var front := rows[..|rows| - 1];
      PressKeyboardFacts(front, data, services);
      var (f, s) := PressKeyboard(front, data, services);
      var last := rows[|rows| - 1];
      PressRowFacts(last, data, s);
      var (r, s') := PressRow(last, data, s);
      assert PressKeyboard(rows, data, services).0 == f + [r];
      forall i | 0 <= i < |rows|
        ensures |(f + [r])[i]| == |rows[i]|
        ensures forall j :: 0 <= j < |rows[i]| ==> PressedAs(rows[i][j], (f + [r])[i][j], data)
      {
        if i < |front| {
          assert rows[i] == front[i] && (f + [r])[i] == f[i];
        } else {
          assert rows[i] == last && (f + [r])[i] == r;
        }
      }
    }
  }

  /** The keyboards the calculator sends hold one button; pressing it is one toggle. */
  lemma SingleButton(b: Button, services: seq<string>)
    ensures PressKeyboard([[b]], b.callbackData, services) ==
      ([[b.(text := Toggle(b.text, services).text)]], Toggle(b.text, services).services)
  {
    var row, rows := [b], [[b]];
    assert row[..|row| - 1] == [] && row[|row| - 1] == b;
    assert rows[..|rows| - 1] == [] && rows[|rows| - 1] == row;
    var p := Toggle(b.text, services);
    assert PressButton(b, b.callbackData, services) == (b.(text := p.text), p.services);
    var b' := b.(text := p.text);
    assert PressRow([], b.callbackData, services) == ([], services);
    assert PressRow(row, b.callbackData, services) == ([] + [b'], p.services);
    assert [] + [b'] == [b'];
    assert PressKeyboard([], b.callbackData, services) == ([], services);
    assert PressKeyboard(rows, b.callbackData, services) == ([] + [[b']], p.services);
    assert [] + [[b']] == [[b']];
  }
}
