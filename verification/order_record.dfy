/**
 * The order record of T_bot.py: the insertion-ordered dictionary `Order.order`
 * that `show_summary` fills, the text `saving_order` writes for it (one
 * "key: value" line per entry), and the name of the file it is written to.
 */
module OrderRecord {
  import opened Wrappers
  import opened Strings

  /** One line of the saved order: a key and the text of its value. */
  datatype Entry = Entry(key: string, value: string)

  /**
   * The keys `show_summary` assigns in `Order.order`. The dictionary is only
   * ever assigned these eleven keys, so it is keyed by this enumeration and
   * `Label` gives the text of each key.
   */
  datatype Field =
    | ClientId | ClientName | Place | Area | Style | Design | Date | ClientAddress | Location | Contact | Phone

  function Label(f: Field): string {
    match f
    case ClientId => "Id клиента"
    case ClientName => "Имя клиента"
    case Place => "Ремонт планируется"
    case Area => "Площадь дома/квартиры"
    case Style => "Интерьер в стиле"
    case Design => "Нужен ли дизайн проект?"
    case Date => "Начало ремонта"
    case ClientAddress => "Адрес клиента"
    case Location => "Во время ремонта клиент будет находиться"
    case Contact => "Стоимость ремонта сообщить"
    case Phone => "Телефон клиента"
  }

  /** The keys in the order `show_summary` assigns them. */
  const Fields: seq<Field> := [ClientId, ClientName, Place, Area, Style, Design, Date, ClientAddress, Location, Contact, Phone]

  lemma FieldsDistinct()
    ensures |Fields| == 11
    ensures forall i, j :: 0 <= i < j < |Fields| ==> Fields[i] != Fields[j]
  {
  }

  /** Distinct keys have distinct texts (their lengths already differ), so keying by `Field` loses nothing. */
  lemma LabelsDistinct(f: Field, g: Field)
    requires f != g
    ensures Label(f) != Label(g)
  {
    assert |Label(ClientId)| == 10 && |Label(ClientName)| == 11 && |Label(Place)| == 18;
    assert |Label(Area)| == 21 && |Label(Style)| == 16 && |Label(Design)| == 23;
    assert |Label(Date)| == 14 && |Label(ClientAddress)| == 13 && |Label(Location)| == 40;
    assert |Label(Contact)| == 26 && |Label(Phone)| == 15;
  }

  /** An insertion-ordered dictionary: its keys in insertion order and its mapping. */
  datatype Dict = Dict(keys: seq<Field>, values: map<Field, string>)

  const EmptyDict := Dict([], map[])

  /** The keys listed are exactly the keys mapped (and, in every dictionary built by `Put`, each once). */
  predicate WellFormed(d: Dict) {
    forall k :: k in d.values <==> k in d.keys
  }

  /** The key order after assigning `k`: a key already present keeps its place, a new one goes last. */
  function AddKey(keys: seq<Field>, k: Field): seq<Field> {
    if keys == [] then [k]
    else if keys[0] == k then keys
    else [keys[0]] + AddKey(keys[1..], k)
  }

  lemma {:induction false} AddKeyFacts(keys: seq<Field>, k: Field)
    ensures k in keys ==> AddKey(keys, k) == keys
    ensures k !in keys ==> AddKey(keys, k) == keys + [k]
  {
    if keys != [] && keys[0] != k {
      AddKeyFacts(keys[1..], k);
      assert [keys[0]] + keys[1..] == keys;
      assert [keys[0]] + (keys[1..] + [k]) == keys + [k];
    }
  }

  /** `d[k] = v` */
  function Put(d: Dict, k: Field, v: string): Dict {
    Dict(AddKey(d.keys, k), d.values[k := v])
  }

  /**
   * Assignment as Python's dictionaries do it: `k` maps to `v`, every other
   * key keeps its value, a new key goes to the end of the order and an
   * existing key keeps its place.
   */
  lemma PutFacts(d: Dict, k: Field, v: string)
    ensures WellFormed(d) ==> WellFormed(Put(d, k, v))
    ensures k in Put(d, k, v).values && Put(d, k, v).values[k] == v
    ensures forall j :: j != k && j in d.values ==> j in Put(d, k, v).values && Put(d, k, v).values[j] == d.values[j]
    ensures WellFormed(d) && k in d.keys ==> Put(d, k, v).keys == d.keys
    ensures WellFormed(d) && k !in d.keys ==> Put(d, k, v).keys == d.keys + [k]
  {
    AddKeyFacts(d.keys, k);
  }

  /** The values `show_summary` assigns, key by key: the client's id and full name, then the nine answers in the order they were asked. */
  function SummaryFields(userId: string, fullName: string, answers: seq<string>): (r: seq<string>)
    requires |answers| == 9
    ensures |r| == |Fields|
    ensures r[0] == userId && r[1] == fullName
    ensures forall i :: 0 <= i < 9 ==> r[i + 2] == answers[i]
  {
    [userId, fullName] + answers
  }

  /** `Order.order` after the eleven assignments of `show_summary`, in the order they are made. */
  function Summarize(d: Dict, userId: string, fullName: string, answers: seq<string>): Dict
    requires |answers| == 9
  {
    Put(Put(Put(Put(Put(Put(Put(Put(Put(Put(Put(d,
      ClientId, userId),
      ClientName, fullName),
      Place, answers[0]),
      Area, answers[1]),
      Style, answers[2]),
      Design, answers[3]),
      Date, answers[4]),
      ClientAddress, answers[5]),
      Location, answers[6]),
      Contact, answers[7]),
      Phone, answers[8])
  }

  /** `dict.items()` rendered as entries: each key's text with its value, in insertion order. */
  function Items(d: Dict): seq<Entry>
    requires WellFormed(d)
  {
    seq(|d.keys|, i requires 0 <= i < |d.keys| => Entry(Label(d.keys[i]), d.values[d.keys[i]]))
  }

  /** `items()` after `d[k] = v`: a new key's entry is appended; a present key's entry is replaced where it stands. */
  lemma ItemsOfPut(d: Dict, k: Field, v: string)
    requires WellFormed(d)
    ensures WellFormed(Put(d, k, v))
    ensures k !in d.keys ==> Items(Put(d, k, v)) == Items(d) + [Entry(Label(k), v)]
    ensures k in d.keys ==> |Items(Put(d, k, v))| == |Items(d)|
    ensures k in d.keys ==> forall i :: 0 <= i < |d.keys| ==>
      Items(Put(d, k, v))[i] == if d.keys[i] == k then Entry(Label(k), v) else Items(d)[i]
  {
    PutFacts(d, k, v);
  }

  /** The summary as it should be saved: every key's text, in assignment order, with the value assigned to it. */
  function SummaryRecord(userId: string, fullName: string, answers: seq<string>): (r: seq<Entry>)
    requires |answers| == 9
    ensures |r| == |Fields|
    ensures forall i :: 0 <= i < |Fields| ==> r[i].key == Label(Fields[i])
    ensures r[0].value == userId && r[1].value == fullName
    ensures forall i :: 0 <= i < 9 ==> r[i + 2].value == answers[i]
  {
    var vs := SummaryFields(userId, fullName, answers);
    seq(|Fields|, i requires 0 <= i < |Fields| => Entry(Label(Fields[i]), vs[i]))
  }

  /** After the eleven assignments, the keys stand in assignment order and each holds the value assigned to it. */
  lemma SummarizeShape(d: Dict, userId: string, fullName: string, answers: seq<string>)
    requires |answers| == 9
    requires WellFormed(d) && (d.keys == [] || d.keys == Fields)
    ensures WellFormed(Summarize(d, userId, fullName, answers))
    ensures Summarize(d, userId, fullName, answers).keys == Fields
    ensures forall i :: 0 <= i < |Fields| ==>
      Fields[i] in Summarize(d, userId, fullName, answers).values &&
      Summarize(d, userId, fullName, answers).values[Fields[i]] == SummaryFields(userId, fullName, answers)[i]
  {
    SummaryKeys(d, userId, fullName, answers);
    SummaryValues(d, userId, fullName, answers);
  }

  lemma SummaryKeys(d: Dict, userId: string, fullName: string, a: seq<string>)
    requires |a| == 9
    requires WellFormed(d) && (d.keys == [] || d.keys == Fields)
    ensures WellFormed(Summarize(d, userId, fullName, a)) && Summarize(d, userId, fullName, a).keys == Fields
  {
    if d.keys == [] {
      FirstSummaryKeys(d, userId, fullName, a);
    } else {
      NextSummaryKeys(d, userId, fullName, a);
    }
    SummaryValues(d, userId, fullName, a);
    var s := Summarize(d, userId, fullName, a);
    forall k: Field
      ensures k in s.values && k in s.keys
    {
      var i := FieldIndex(k);
      assert Fields[i] == k;
    }
  }

  /** Where each key stands in `Fields`: every key is one of the eleven. */
  function FieldIndex(f: Field): (i: nat)
    ensures i < |Fields| && Fields[i] == f
  {
    match f
    case ClientId => 0
    case ClientName => 1
    case Place => 2
    case Area => 3
    case Style => 4
    case Design => 5
    case Date => 6
    case ClientAddress => 7
    case Location => 8
    case Contact => 9
    case Phone => 10
  }

  /** Into an empty record the eleven keys go one after another. */
  lemma FirstSummaryKeys(d: Dict, userId: string, fullName: string, a: seq<string>)
    requires |a| == 9 && d.keys == []
    ensures Summarize(d, userId, fullName, a).keys == Fields
  {
    FrontKeys(d, userId, fullName, a);
    var d5 := Put(Put(Put(Put(Put(d, ClientId, userId), ClientName, fullName), Place, a[0]), Area, a[1]), Style, a[2]);
    BackKeys(d5, a);
  }

  lemma FrontKeys(d: Dict, userId: string, fullName: string, a: seq<string>)
    requires |a| == 9 && d.keys == []
    ensures Put(Put(Put(Put(Put(d, ClientId, userId), ClientName, fullName), Place, a[0]), Area, a[1]), Style, a[2]).keys
      == Fields[..5]
  {
    var d1 := Put(d, ClientId, userId);
    var d2 := Put(d1, ClientName, fullName);
    var d3 := Put(d2, Place, a[0]);
    var d4 := Put(d3, Area, a[1]);
    assert d.keys == Fields[..0];
    NewKey(d.keys, 0);
    NewKey(d1.keys, 1);
    NewKey(d2.keys, 2);
    NewKey(d3.keys, 3);
    NewKey(d4.keys, 4);
  }

  lemma BackKeys(d5: Dict, a: seq<string>)
    requires |a| == 9 && d5.keys == Fields[..5]
    ensures Put(Put(Put(Put(Put(Put(d5, Design, a[3]), Date, a[4]), ClientAddress, a[5]), Location, a[6]), Contact, a[7]), Phone, a[8]).keys
      == Fields
  {
    var d6 := Put(d5, Design, a[3]);
    var d7 := Put(d6, Date, a[4]);
    var d8 := Put(d7, ClientAddress, a[5]);
    var d9 := Put(d8, Location, a[6]);
    var d10 := Put(d9, Contact, a[7]);
    NewKey(d5.keys, 5);
    NewKey(d6.keys, 6);
    NewKey(d7.keys, 7);
    NewKey(d8.keys, 8);
    NewKey(d9.keys, 9);
    NewKey(d10.keys, 10);
    assert Fields[..11] == Fields;
  }

  /** Into a record that still holds a previous summary, the assignments overwrite values and move no key. */
  lemma NextSummaryKeys(d: Dict, userId: string, fullName: string, a: seq<string>)
    requires |a| == 9 && d.keys == Fields
    ensures Summarize(d, userId, fullName, a).keys == Fields
  {
    var d1 := Put(d, ClientId, userId);
    var d2 := Put(d1, ClientName, fullName);
    var d3 := Put(d2, Place, a[0]);
    var d4 := Put(d3, Area, a[1]);
    var d5 := Put(d4, Style, a[2]);
    var d6 := Put(d5, Design, a[3]);
    var d7 := Put(d6, Date, a[4]);
    var d8 := Put(d7, ClientAddress, a[5]);
    var d9 := Put(d8, Location, a[6]);
    var d10 := Put(d9, Contact, a[7]);
    KnownKey(ClientId);
    KnownKey(ClientName);
    KnownKey(Place);
    KnownKey(Area);
    KnownKey(Style);
    KnownKey(Design);
    KnownKey(Date);
    KnownKey(ClientAddress);
    KnownKey(Location);
    KnownKey(Contact);
    KnownKey(Phone);
  }

  /** After the first `i` keys, key `i` goes last. */
  lemma NewKey(keys: seq<Field>, i: nat)
    requires i < |Fields| && keys == Fields[..i]
    ensures AddKey(keys, Fields[i]) == Fields[..i + 1]
  {
    FieldsDistinct();
    AddKeyFacts(keys, Fields[i]);
    assert Fields[i] !in Fields[..i];
    assert Fields[..i] + [Fields[i]] == Fields[..i + 1];
  }

  /** Once all keys are present, assigning one moves nothing. */
  lemma KnownKey(k: Field)
    ensures AddKey(Fields, k) == Fields
  {
    AddKeyFacts(Fields, k);
    assert Fields[FieldIndex(k)] == k;
  }

  lemma SummaryValues(d: Dict, userId: string, fullName: string, a: seq<string>)
    requires |a| == 9
    ensures forall i :: 0 <= i < |Fields| ==>
      Fields[i] in Summarize(d, userId, fullName, a).values &&
      Summarize(d, userId, fullName, a).values[Fields[i]] == SummaryFields(userId, fullName, a)[i]
  {
    KeyValues(d, userId, fullName, a);
    forall i | 0 <= i < |Fields|
      ensures Assigned(Fields[i], userId, fullName, a) == SummaryFields(userId, fullName, a)[i]
    {
      AssignedAt(i, userId, fullName, a);
    }
  }

  /** The value `show_summary` assigns to key `k`. */
  function Assigned(k: Field, userId: string, fullName: string, a: seq<string>): string
    requires |a| == 9
  {
    match k
    case ClientId => userId
    case ClientName => fullName
    case Place => a[0]
    case Area => a[1]
    case Style => a[2]
    case Design => a[3]
    case Date => a[4]
    case ClientAddress => a[5]
    case Location => a[6]
    case Contact => a[7]
    case Phone => a[8]
  }

  lemma AssignedAt(i: nat, userId: string, fullName: string, a: seq<string>)
    requires i < |Fields| && |a| == 9
    ensures Assigned(Fields[i], userId, fullName, a) == SummaryFields(userId, fullName, a)[i]
  {
    var vs := SummaryFields(userId, fullName, a);
    if i >= 2 {
      assert vs[i] == a[i - 2];
    }
  }

  /** Each key holds the value `show_summary` assigns to it. */
  lemma KeyValues(d: Dict, userId: string, fullName: string, a: seq<string>)
    requires |a| == 9
    ensures forall k: Field ::
      k in Summarize(d, userId, fullName, a).values &&
      Summarize(d, userId, fullName, a).values[k] == Assigned(k, userId, fullName, a)
  {
    var d5 := Put(Put(Put(Put(Put(d, ClientId, userId), ClientName, fullName), Place, a[0]), Area, a[1]), Style, a[2]);
    FrontValues(d, userId, fullName, a);
    BackValues(d5, a);
    var m := Assign(d.values, userId, fullName, a);
    assert Summarize(d, userId, fullName, a).values == m;
    forall k: Field
      ensures k in m && m[k] == Assigned(k, userId, fullName, a)
    {
      AssignValue(d.values, userId, fullName, a, k);
    }
  }

  /** The eleven assignments of `show_summary`, on the values alone. */
  function Assign(base: map<Field, string>, userId: string, fullName: string, a: seq<string>): map<Field, string>
    requires |a| == 9
  {
    base[ClientId := userId][ClientName := fullName][Place := a[0]][Area := a[1]][Style := a[2]]
      [Design := a[3]][Date := a[4]][ClientAddress := a[5]][Location := a[6]][Contact := a[7]][Phone := a[8]]
  }

  lemma AssignValue(base: map<Field, string>, userId: string, fullName: string, a: seq<string>, k: Field)
    requires |a| == 9
    ensures k in Assign(base, userId, fullName, a) && Assign(base, userId, fullName, a)[k] == Assigned(k, userId, fullName, a)
  {
    match k
    case ClientId =>
    case ClientName =>
    case Place =>
    case Area =>
    case Style =>
    case Design =>
    case Date =>
    case ClientAddress =>
    case Location =>
    case Contact =>
    case Phone =>
  }

  lemma FrontValues(d: Dict, userId: string, fullName: string, a: seq<string>)
    requires |a| == 9
    ensures Put(Put(Put(Put(Put(d, ClientId, userId), ClientName, fullName), Place, a[0]), Area, a[1]), Style, a[2]).values
      == d.values[ClientId := userId][ClientName := fullName][Place := a[0]][Area := a[1]][Style := a[2]]
  {
  }

  lemma BackValues(d5: Dict, a: seq<string>)
    requires |a| == 9
    ensures Put(Put(Put(Put(Put(Put(d5, Design, a[3]), Date, a[4]), ClientAddress, a[5]), Location, a[6]), Contact, a[7]), Phone, a[8]).values
      == d5.values[Design := a[3]][Date := a[4]][ClientAddress := a[5]][Location := a[6]][Contact := a[7]][Phone := a[8]]
  {
  }

  /**
   * Whether `Order.order` was empty (the first order) or still held a previous
   * summary, after `show_summary` its items are exactly this summary, in
   * assignment order: old values are overwritten and no key moves.
   */
  lemma SummaryItems(d: Dict, userId: string, fullName: string, answers: seq<string>)
    requires |answers| == 9
    requires WellFormed(d) && (d.keys == [] || d.keys == Fields)
    ensures WellFormed(Summarize(d, userId, fullName, answers))
    ensures Summarize(d, userId, fullName, answers).keys == Fields
    ensures Items(Summarize(d, userId, fullName, answers)) == SummaryRecord(userId, fullName, answers)
  {
    SummarizeShape(d, userId, fullName, answers);
    ItemsOfSummary(Summarize(d, userId, fullName, answers), userId, fullName, answers);
  }

  lemma ItemsOfSummary(s: Dict, userId: string, fullName: string, answers: seq<string>)
    requires |answers| == 9
    requires WellFormed(s) && s.keys == Fields
    requires forall i :: 0 <= i < |Fields| ==> Fields[i] in s.values && s.values[Fields[i]] == SummaryFields(userId, fullName, answers)[i]
    ensures Items(s) == SummaryRecord(userId, fullName, answers)
  {
    var items, rec := Items(s), SummaryRecord(userId, fullName, answers);
    assert forall i :: 0 <= i < |Fields| ==> items[i] == rec[i];
  }

  /** `f"{key}: {value}"` */
  function Line(e: Entry): string {
    e.key + ": " + e.value
  }

  /** `"\n".join(lines)` */
  function Join(lines: seq<string>): string {
    if |lines| == 0 then ""
    else if |lines| == 1 then lines[0]
    else lines[0] + "\n" + Join(lines[1..])
  }

  /** One "key: value" line per entry, in order. */
  function Lines(rec: seq<Entry>): seq<string> {
    seq(|rec|, i requires 0 <= i < |rec| => Line(rec[i]))
  }

  /** The text `saving_order` writes: one "key: value" line per entry, in order. */
  function Serialize(rec: seq<Entry>): string {
    Join(Lines(rec))
  }

  // Reading the text back: the inverse that shows the written file keeps every entry.

  function IndexOf(s: string, c: char): (i: nat)
    ensures i <= |s|
    ensures i < |s| ==> s[i] == c
    ensures forall j :: 0 <= j < i ==> s[j] != c
  {
    if |s| == 0 then 0 else if s[0] == c then 0 else 1 + IndexOf(s[1..], c)
  }

  function SplitLines(s: string): (r: seq<string>)
    ensures |r| > 0
    decreases |s|
  {
    var i := IndexOf(s, '\n');
    if i == |s| then [s] else [s[..i]] + SplitLines(s[i + 1..])
  }

  function ParseLine(line: string): Option<Entry> {
    var i := IndexOf(line, ':');
    if i + 2 <= |line| && line[i + 1] == ' ' then Some(Entry(line[..i], line[i + 2..])) else None
  }

  function ParseLines(lines: seq<string>): Option<seq<Entry>> {
    if lines == [] then Some([])
    else
      match ParseLine(lines[0])
      case None => None
      case Some(e) =>
        match ParseLines(lines[1..])
        case None => None
        case Some(es) => Some([e] + es)
  }

  function ParseRecord(text: string): Option<seq<Entry>> {
    if text == "" then Some([]) else ParseLines(SplitLines(text))
  }

  /** An entry whose line can be read back: no colon in the key and no line break anywhere. */
  predicate Printable(e: Entry) {
    ':' !in e.key && '\n' !in e.key && '\n' !in e.value
  }

  predicate NoColonOrBreak(s: string) {
    forall i :: 0 <= i < |s| ==> s[i] != ':' && s[i] != '\n'
  }

  /** None of the eleven key texts holds a colon or a line break. */
  lemma LabelPrintable(f: Field)
    ensures ':' !in Label(f) && '\n' !in Label(f)
  {
    match f {
      case ClientId => assert NoColonOrBreak(Label(ClientId));
      case ClientName => assert NoColonOrBreak(Label(ClientName));
      case Place => assert NoColonOrBreak(Label(Place));
      case Area => assert NoColonOrBreak(Label(Area));
      case Style => assert NoColonOrBreak(Label(Style));
      case Design => assert NoColonOrBreak(Label(Design));
      case Date => assert NoColonOrBreak(Label(Date));
      case ClientAddress => assert NoColonOrBreak(Label(ClientAddress));
      case Location => assert NoColonOrBreak(Label(Location));
      case Contact => assert NoColonOrBreak(Label(Contact));
      case Phone => assert NoColonOrBreak(Label(Phone));
    }
  }

  /** The summary's lines read back whenever none of its values holds a line break. */
  lemma SummaryPrintable(userId: string, fullName: string, answers: seq<string>)
    requires |answers| == 9
    requires '\n' !in userId && '\n' !in fullName && forall i :: 0 <= i < 9 ==> '\n' !in answers[i]
    ensures forall i :: 0 <= i < |Fields| ==> Printable(SummaryRecord(userId, fullName, answers)[i])
  {
    var rec := SummaryRecord(userId, fullName, answers);
    forall i | 0 <= i < |Fields|
      ensures Printable(rec[i])
    {
      LabelPrintable(Fields[i]);
      if i >= 2 {
        assert rec[(i - 2) + 2].value == answers[i - 2];
      }
    }
  }

  lemma IndexOfFirst(a: string, c: char, b: string)
    requires c !in a
    ensures IndexOf(a + [c] + b, c) == |a|
  {
    var s := a + [c] + b;
    assert s[|a|] == c;
    assert forall j :: 0 <= j < |a| ==> s[j] == a[j];
  }

  lemma ParseLineOfLine(e: Entry)
    requires Printable(e)
    ensures ParseLine(Line(e)) == Some(e)
  {
    var line := Line(e);
    assert line == e.key + [':'] + (" " + e.value);
    IndexOfFirst(e.key, ':', " " + e.value);
    assert line[..|e.key|] == e.key;
    assert line[|e.key| + 2..] == e.value;
  }

  lemma {:induction false} SplitJoin(lines: seq<string>)
    requires |lines| > 0
    requires forall i :: 0 <= i < |lines| ==> '\n' !in lines[i]
    ensures SplitLines(Join(lines)) == lines
    decreases |lines|
  {
    if |lines| == 1 {
      assert IndexOf(lines[0], '\n') == |lines[0]|;
    } else {
      var rest := Join(lines[1..]);
      var s := lines[0] + "\n" + rest;
      assert s == lines[0] + ['\n'] + rest;
      IndexOfFirst(lines[0], '\n', rest);
      assert s[..|lines[0]|] == lines[0];
      assert s[|lines[0]| + 1..] == rest;
      SplitJoin(lines[1..]);
      assert [lines[0]] + lines[1..] == lines;
    }
  }

  lemma {:induction false} ParseLinesOfLines(rec: seq<Entry>)
    requires forall i :: 0 <= i < |rec| ==> Printable(rec[i])
    ensures ParseLines(Lines(rec)) == Some(rec)
    decreases |rec|
  {
    if rec != [] {
      ParseLineOfLine(rec[0]);
      assert Lines(rec)[1..] == Lines(rec[1..]);
      ParseLinesOfLines(rec[1..]);
      assert [rec[0]] + rec[1..] == rec;
    }
  }

  lemma JoinEmpty(lines: seq<string>)
    requires |lines| > 0 && lines[0] != ""
    ensures Join(lines) != ""
  {
    if |lines| > 1 {
      assert |Join(lines)| >= |lines[0]|;
    }
  }

  /** The written text reads back to the very entries, in order, as long as no line break or key colon gets in the way. */
  lemma ParseSerialize(rec: seq<Entry>)
    requires forall i :: 0 <= i < |rec| ==> Printable(rec[i])
    ensures ParseRecord(Serialize(rec)) == Some(rec)
  {
    if rec != [] {
      var lines := Lines(rec);
      forall i | 0 <= i < |lines|
        ensures '\n' !in lines[i]
      {
        assert lines[i] == rec[i].key + ": " + rec[i].value;
      }
      assert lines[0] != "";
      JoinEmpty(lines);
      SplitJoin(lines);
      ParseLinesOfLines(rec);
    }
  }

  /** The date and time fields `strftime` produces for `%d`, `%m`, `%Y`, `%H` and `%M`. */
  datatype Stamp = Stamp(day: string, month: string, year: string, hour: string, minute: string)

  predicate StampDigits(now: Stamp) {
    IsDigits(now.day) && IsDigits(now.month) && IsDigits(now.year) && IsDigits(now.hour) && IsDigits(now.minute)
  }

  /** The file name template `saving_order` hands to `get_file_name`. */
  const FileTemplate: string := "Order_from_[%TDd][%TDm][%TDY]_[%TDH]_[%TDM].txt"

  /** The five placeholder replacements, in the order `get_file_name` applies them. */
  function Fill(template: string, now: Stamp): string {
    var a := Replace(template, "[%TDd]", now.day);
    var b := Replace(a, "[%TDm]", now.month);
    var c := Replace(b, "[%TDY]", now.year);
    var d := Replace(c, "[%TDH]", now.hour);
    Replace(d, "[%TDM]", now.minute)
  }

  lemma NoBracketInDigits(s: string)
    requires IsDigits(s)
    ensures '[' !in s
  {
    forall i | 0 <= i < |s|
      ensures s[i] != '['
    {
      assert IsDigit(s[i]);
    }
  }

  /** The template cut at its placeholders: fixed text, then the day, month and year, the hour, the minute. */
  function Pieces(d: string, m: string, y: string, h: string, mi: string): seq<string> {
    ["Order_from_", d, m, y, "_", h, "_", mi, ".txt"]
  }
  /** A placeholder such as "[%TDd]": six characters, of which only the first is "[". */
  predicate Placeholder(q: string) {
    |q| == 6 && q[0] == '[' && '[' !in q[1..]
  }

  /** What one `replace` makes of a piece of the cut template. */
  function Swap(piece: string, pat: string, rep: string): string {
    if piece == pat then rep else piece
  }

  /** The fixed parts of the template hold no "[", so no placeholder replacement touches them. */
  lemma FixedTexts(pat: string, rep: string)
    requires Placeholder(pat)
    ensures Separable("Order_from_", pat) && Swap("Order_from_", pat, rep) == "Order_from_"
    ensures Separable("_", pat) && Swap("_", pat, rep) == "_"
    ensures Separable(".txt", pat) && Swap(".txt", pat, rep) == ".txt"
  {
    assert '[' !in "Order_from_" && '[' !in "_" && '[' !in ".txt";
  }

  /** One `replace` on the cut template replaces exactly the pieces equal to the placeholder. */
  lemma FillPiece(d: string, m: string, y: string, h: string, mi: string, pat: string, rep: string)
    requires Placeholder(pat)
    requires Separable(d, pat) && Separable(m, pat) && Separable(y, pat) && Separable(h, pat) && Separable(mi, pat)
    ensures Replace(Concat(Pieces(d, m, y, h, mi)), pat, rep) ==
      Concat(Pieces(Swap(d, pat, rep), Swap(m, pat, rep), Swap(y, pat, rep), Swap(h, pat, rep), Swap(mi, pat, rep)))
  {
    var p := Pieces(d, m, y, h, mi);
    PiecesSeparable(d, m, y, h, mi, pat, rep);
    ReplacePieces(p, pat, rep);
    SubstitutePieces(d, m, y, h, mi, pat, rep);
  }

  lemma PiecesSeparable(d: string, m: string, y: string, h: string, mi: string, pat: string, rep: string)
    requires Placeholder(pat)
    requires Separable(d, pat) && Separable(m, pat) && Separable(y, pat) && Separable(h, pat) && Separable(mi, pat)
    ensures forall i :: 0 <= i < 9 ==> Separable(Pieces(d, m, y, h, mi)[i], pat)
  {
    FixedTexts(pat, rep);
  }

  lemma SubstitutePieces(d: string, m: string, y: string, h: string, mi: string, pat: string, rep: string)
    requires Placeholder(pat)
    ensures Substitute(Pieces(d, m, y, h, mi), pat, rep) ==
      Pieces(Swap(d, pat, rep), Swap(m, pat, rep), Swap(y, pat, rep), Swap(h, pat, rep), Swap(mi, pat, rep))
  {
    FixedTexts(pat, rep);
    var q := Substitute(Pieces(d, m, y, h, mi), pat, rep);
    var want := Pieces(Swap(d, pat, rep), Swap(m, pat, rep), Swap(y, pat, rep), Swap(h, pat, rep), Swap(mi, pat, rep));
    assert q[0] == want[0] && q[1] == want[1] && q[2] == want[2] && q[3] == want[3] && q[4] == want[4];
    assert q[5] == want[5] && q[6] == want[6] && q[7] == want[7] && q[8] == want[8];
  }

  /** The digits of a field never equal a placeholder, which starts with "[". */
  lemma SwapDigits(s: string, pat: string, rep: string)
    requires IsDigits(s) && Placeholder(pat)
    ensures Separable(s, pat) && Swap(s, pat, rep) == s
  {
    NoBracketInDigits(s);
    assert pat[0] !in s;
  }

  lemma TemplatePieces()
    ensures "Order_from_" + "[%TDd]" + "[%TDm]" + "[%TDY]" + "_" + "[%TDH]" + "_" + "[%TDM]" + ".txt" == FileTemplate
  {
  }
  /** The five placeholders: each is a placeholder, and they differ in their fifth character. */
  lemma PlaceholdersDiffer()
    ensures Placeholder("[%TDd]") && Placeholder("[%TDm]") && Placeholder("[%TDY]") && Placeholder("[%TDH]") && Placeholder("[%TDM]")
    ensures "[%TDd]"[4] == 'd' && "[%TDm]"[4] == 'm' && "[%TDY]"[4] == 'Y' && "[%TDH]"[4] == 'H' && "[%TDM]"[4] == 'M'
  {
  }

  lemma FillDay(now: Stamp)
    requires StampDigits(now)
    ensures Replace(FileTemplate, "[%TDd]", now.day) == Concat(Pieces(now.day, "[%TDm]", "[%TDY]", "[%TDH]", "[%TDM]"))
  {
    PlaceholdersDiffer();
    var d, m, y, h, mi := "[%TDd]", "[%TDm]", "[%TDY]", "[%TDH]", "[%TDM]";
    Concat9(Pieces(d, m, y, h, mi));
    TemplatePieces();
    FillPiece(d, m, y, h, mi, d, now.day);
  }

  lemma FillMonth(now: Stamp)
    requires StampDigits(now)
    ensures Replace(Concat(Pieces(now.day, "[%TDm]", "[%TDY]", "[%TDH]", "[%TDM]")), "[%TDm]", now.month) ==
      Concat(Pieces(now.day, now.month, "[%TDY]", "[%TDH]", "[%TDM]"))
  {
    PlaceholdersDiffer();
    var m, y, h, mi := "[%TDm]", "[%TDY]", "[%TDH]", "[%TDM]";
    SwapDigits(now.day, m, now.month);
    FillPiece(now.day, m, y, h, mi, m, now.month);
  }

  lemma FillYear(now: Stamp)
    requires StampDigits(now)
    ensures Replace(Concat(Pieces(now.day, now.month, "[%TDY]", "[%TDH]", "[%TDM]")), "[%TDY]", now.year) ==
      Concat(Pieces(now.day, now.month, now.year, "[%TDH]", "[%TDM]"))
  {
    PlaceholdersDiffer();
    var y, h, mi := "[%TDY]", "[%TDH]", "[%TDM]";
    SwapDigits(now.day, y, now.year);
    SwapDigits(now.month, y, now.year);
    FillPiece(now.day, now.month, y, h, mi, y, now.year);
  }

  lemma FillHour(now: Stamp)
    requires StampDigits(now)
    ensures Replace(Concat(Pieces(now.day, now.month, now.year, "[%TDH]", "[%TDM]")), "[%TDH]", now.hour) ==
      Concat(Pieces(now.day, now.month, now.year, now.hour, "[%TDM]"))
  {
    PlaceholdersDiffer();
    var h, mi := "[%TDH]", "[%TDM]";
    SwapDigits(now.day, h, now.hour);
    SwapDigits(now.month, h, now.hour);
    SwapDigits(now.year, h, now.hour);
    FillPiece(now.day, now.month, now.year, h, mi, h, now.hour);
  }

  lemma FillMinute(now: Stamp)
    requires StampDigits(now)
    ensures Replace(Concat(Pieces(now.day, now.month, now.year, now.hour, "[%TDM]")), "[%TDM]", now.minute) ==
      "Order_from_" + now.day + now.month + now.year + "_" + now.hour + "_" + now.minute + ".txt"
  {
    PlaceholdersDiffer();
    var mi := "[%TDM]";
    SwapDigits(now.day, mi, now.minute);
    SwapDigits(now.month, mi, now.minute);
    SwapDigits(now.year, mi, now.minute);
    SwapDigits(now.hour, mi, now.minute);
    FillPiece(now.day, now.month, now.year, now.hour, mi, mi, now.minute);
    Concat9(Pieces(now.day, now.month, now.year, now.hour, now.minute));
  }

  /** Each placeholder is replaced by its field, whatever the digits; nothing else in the template changes. */
  lemma FillFileTemplate(now: Stamp)
    requires StampDigits(now)
    ensures Fill(FileTemplate, now) ==
      "Order_from_" + now.day + now.month + now.year + "_" + now.hour + "_" + now.minute + ".txt"
  {
    FillDay(now);
    FillMonth(now);
    FillYear(now);
    FillHour(now);
    FillMinute(now);
  }

  /** `get_file_name`: the template with its date placeholders filled in, one `replace` after another. */
  method GetFileName(template: string, now: Stamp) returns (name: string)
    ensures name == Fill(template, now)
    ensures template == FileTemplate && StampDigits(now) ==>
      name == "Order_from_" + now.day + now.month + now.year + "_" + now.hour + "_" + now.minute + ".txt"
  {
    name := template;
    name := Replace(name, "[%TDd]", now.day);
    name := Replace(name, "[%TDm]", now.month);
    name := Replace(name, "[%TDY]", now.year);
    name := Replace(name, "[%TDH]", now.hour);
    name := Replace(name, "[%TDM]", now.minute);
    if template == FileTemplate && StampDigits(now) {
      FillFileTemplate(now);
    }
  }

  /** Where `saving_order` writes the order: the filled-in template under "orders/". */
  function SavePath(now: Stamp): string {
    "orders/" + Fill(FileTemplate, now)
  }
}
