/** The dictionary `current_inputs` of `QRGeneratorApp`: which widgets
    `update_input_fields` and the `create_*_input` helpers put into it for each
    QR type, and how `get_data` reads them back. A widget is reduced to the
    value it holds; layout, packing and labels are not modelled. */
module Form {
  import opened Results
  import opened Strings
  import opened Formatter

  /** The values of the read-only "QR Type" combobox. */
  const QrTypes: seq<string> :=
    ["Plain Text", "URL", "WiFi", "vCard", "Email", "Geo Location", "Phone Number", "SMS"]

  /** The values of the read-only Wi-Fi security combobox. */
  const SecurityTypes: seq<string> := ["WPA", "WEP", "nopass"]

  /** The labels of the vCard entries; each entry is stored under its label in
      lower case. */
  const VCardLabels: seq<string> := ["Name", "Email", "Phone", "Organization", "Address"]

  /** A one-line `ttk.Entry`, a read-only `ttk.Combobox` with its list of
      values, a multi-line `tk.Text`, or the `tk.BooleanVar` of a check button. */
  datatype Widget =
    | Entry(text: string)
    | Combo(text: string, choices: seq<string>)
    | TextBox(text: string)
    | Toggle(checked: bool)

  type Inputs = map<string, Widget>

  /** How `get_data` reads a widget: `.get()` on an entry or a combobox,
      `.get("1.0", tk.END)` on a text widget, `.get()` on a boolean variable. */
  datatype Kind = Line | Lines | Flag

  function KindOf(w: Widget): Kind {
    match w
    case Entry(_) => Line
    case Combo(_, _) => Line
    case TextBox(_) => Lines
    case Toggle(_) => Flag
  }

  /** One read of `get_data`: the key it looks up and how it reads the widget. */
  datatype Slot = Slot(key: string, kind: Kind)

  /** The read succeeds: the key is there and holds a widget of the kind read. */
  predicate Present(inputs: Inputs, s: Slot) {
    s.key in inputs && KindOf(inputs[s.key]) == s.kind
  }

  /** Why a read fails: a `KeyError`, or a widget of another kind than the
      read expects. */
  function SlotError(inputs: Inputs, s: Slot): DataError {
    if s.key in inputs then WrongWidget(s.key) else MissingField(s.key)
  }

  /** The branches of the if/elif chains of `update_input_fields` and
      `get_data`, which test the type name against the same eight strings;
      any other name takes no branch. */
  datatype QrType =
    | PlainTextType | UrlType | WifiType | VCardType | EmailType
    | GeoType | PhoneType | SmsType | OtherType(name: string)

  function TypeOf(name: string): (t: QrType)
    ensures t.OtherType? <==> name !in QrTypes
    ensures t.OtherType? ==> t.name == name
  {
    if name == "Plain Text" then PlainTextType
    else if name == "URL" then UrlType
    else if name == "WiFi" then WifiType
    else if name == "vCard" then VCardType
    else if name == "Email" then EmailType
    else if name == "Geo Location" then GeoType
    else if name == "Phone Number" then PhoneType
    else if name == "SMS" then SmsType
    else OtherType(name)
  }

  // ---------------------------------------------------------------------------
  // What `update_input_fields` creates

  /** The entries the loop of `create_vcard_input` adds, one per label. */
  function LabelledEntries(labels: seq<string>): (m: Inputs)
    ensures forall k :: k in m ==> m[k] == Entry("")
    ensures forall i :: 0 <= i < |labels| ==> Lower(labels[i]) in m
  {
    if labels == [] then map[]
    else LabelledEntries(labels[..|labels| - 1])[Lower(labels[|labels| - 1]) := Entry("")]
  }

  /** A widget as it is created: an empty entry or text widget, a combobox
      showing the first of its values, a check button that is off. */
  predicate Blank(w: Widget) {
    match w
    case Entry(text) => text == ""
    case TextBox(text) => text == ""
    case Combo(text, choices) => choices != [] && text == choices[0]
    case Toggle(checked) => !checked
  }

  /** The freshly created widgets for a type, as `update_input_fields` leaves
      `current_inputs` after clearing it and calling the matching helper. An
      empty text widget holds "", a new entry "", the security combobox "WPA"
      and the hidden-network variable `False`. */
  function Layout(t: QrType): (m: Inputs)
    ensures forall k :: k in m ==> Blank(m[k])
  {
    match t
    case PlainTextType => map["text" := TextBox("")]
    case UrlType => map["url" := Entry("")]
    case WifiType =>
      map["ssid" := Entry(""), "password" := Entry(""),
          "security" := Combo("WPA", SecurityTypes), "hidden" := Toggle(false)]
    case VCardType => LabelledEntries(VCardLabels)
    case EmailType => map["email" := Entry(""), "subject" := Entry(""), "body" := TextBox("")]
    case GeoType => map["lat" := Entry(""), "lon" := Entry("")]
    case PhoneType => map["phone" := Entry("")]
    case SmsType => map["phone" := Entry(""), "message" := TextBox("")]
    case OtherType(_) => map[]
  }

  lemma LabelledEntriesSnoc(labels: seq<string>, last: string)
    ensures LabelledEntries(labels + [last]) == LabelledEntries(labels)[Lower(last) := Entry("")]
  {
    assert (labels + [last])[..|labels|] == labels;
  }

  /** The vCard entries are stored under the keys that `get_data` looks up. */
  lemma VCardLayout()
    ensures LabelledEntries(VCardLabels) ==
      map["name" := Entry(""), "email" := Entry(""), "phone" := Entry(""),
          "organization" := Entry(""), "address" := Entry("")]
  {
    assert Lower("Name") == "name";
    assert Lower("Email") == "email";
    assert Lower("Phone") == "phone";
    assert Lower("Organization") == "organization";
    assert Lower("Address") == "address";
    assert VCardLabels == ["Name", "Email", "Phone", "Organization"] + ["Address"];
    assert ["Name", "Email", "Phone", "Organization"] == ["Name", "Email", "Phone"] + ["Organization"];
    assert ["Name", "Email", "Phone"] == ["Name", "Email"] + ["Phone"];
    assert ["Name", "Email"] == ["Name"] + ["Email"];
    assert ["Name"] == [] + ["Name"];
    LabelledEntriesSnoc([], "Name");
    LabelledEntriesSnoc(["Name"], "Email");
    LabelledEntriesSnoc(["Name", "Email"], "Phone");
    LabelledEntriesSnoc(["Name", "Email", "Phone"], "Organization");
    LabelledEntriesSnoc(["Name", "Email", "Phone", "Organization"], "Address");
  }

  // ---------------------------------------------------------------------------
  // What `get_data` reads

  /** The reads of `get_data` for a type, in the order it makes them. */
  function ReadKeys(t: QrType): (slots: seq<Slot>)
    ensures slots == [] <==> t.OtherType?
    ensures forall i, j :: 0 <= i < j < |slots| ==> slots[i].key != slots[j].key
  {
    match t
    case PlainTextType => [Slot("text", Lines)]
    case UrlType => [Slot("url", Line)]
    case WifiType =>
      [Slot("ssid", Line), Slot("password", Line), Slot("security", Line), Slot("hidden", Flag)]
    case VCardType =>
      [Slot("name", Line), Slot("email", Line), Slot("phone", Line),
       Slot("organization", Line), Slot("address", Line)]
    case EmailType => [Slot("email", Line), Slot("subject", Line), Slot("body", Lines)]
    case GeoType => [Slot("lat", Line), Slot("lon", Line)]
    case PhoneType => [Slot("phone", Line)]
    case SmsType => [Slot("phone", Line), Slot("message", Lines)]
    case OtherType(_) => []
  }

  /** What one read gives: a string, or the state of the check button. */
  datatype Value = Str(text: string) | Bool(checked: bool)

  /** One read of `get_data`: `current_inputs[key].get()` on an entry, a
      combobox or the boolean variable, `current_inputs[key].get("1.0", tk.END)`
      on a text widget, which always returns its contents followed by one
      newline. A missing key raises `KeyError`. A widget of another kind is
      treated as an error: a text widget read with `.get()` or a boolean
      variable read as text would raise, while an entry read as the Wi-Fi flag
      would be taken by its truthiness; none of these arises on the widgets
      `update_input_fields` creates (`ConformingReadSucceeds`). */
  function ReadSlot(inputs: Inputs, s: Slot): (r: Result<Value, DataError>)
    ensures r.Success? <==> Present(inputs, s)
    ensures r.Success? ==> (r.value.Bool? <==> s.kind == Flag)
    ensures r.Failure? ==> r.error == SlotError(inputs, s)
  {
    if s.key !in inputs then Failure(MissingField(s.key))
    else
      match (inputs[s.key], s.kind)
      case (Entry(text), Line) => Success(Str(text))
      case (Combo(text, _), Line) => Success(Str(text))
      case (TextBox(text), Lines) => Success(Str(text + "\n"))
      case (Toggle(checked), Flag) => Success(Bool(checked))
      case _ => Failure(WrongWidget(s.key))
  }

  /** The reads made in order; the first that fails ends `get_data`. */
  function ReadAll(inputs: Inputs, slots: seq<Slot>): (r: Result<seq<Value>, DataError>)
    ensures r.Success? ==> |r.value| == |slots|
    ensures r.Success? ==> forall i :: 0 <= i < |slots| ==> ReadSlot(inputs, slots[i]) == Success(r.value[i])
    ensures r.Failure? ==> r.error.MissingField? || r.error.WrongWidget?
  {
    if slots == [] then Success([])
    else
      var v :- ReadSlot(inputs, slots[0]);
      var vs :- ReadAll(inputs, slots[1..]);
      assert forall i :: 1 <= i < |slots| ==> slots[i] == slots[1..][i - 1];
      Success([v] + vs)
  }

  /** The reads succeed exactly when every slot is present, and otherwise fail
      with the error of the first slot that is not. */
  lemma {:induction false} ReadAllFailsIff(inputs: Inputs, slots: seq<Slot>)
    ensures ReadAll(inputs, slots).Success? <==> AllPresent(inputs, slots)
    ensures ReadAll(inputs, slots).Failure? ==>
      exists i :: FirstAbsent(inputs, slots, i) && ReadAll(inputs, slots).error == SlotError(inputs, slots[i])
  {
    if slots != [] {
      ReadAllFailsIff(inputs, slots[1..]);
      AllPresentCons(inputs, slots);
      if Present(inputs, slots[0]) {
        if ReadAll(inputs, slots).Failure? {
          var j :| FirstAbsent(inputs, slots[1..], j)
            && ReadAll(inputs, slots[1..]).error == SlotError(inputs, slots[1..][j]);
          assert slots[..j + 1][1..] == slots[1..][..j];
          AllPresentCons(inputs, slots[..j + 1]);
          assert FirstAbsent(inputs, slots, j + 1);
        }
      } else {
        assert FirstAbsent(inputs, slots, 0);
      }
    }
  }

  lemma AllPresentCons(inputs: Inputs, slots: seq<Slot>)
    requires slots != []
    ensures AllPresent(inputs, slots) <==> Present(inputs, slots[0]) && AllPresent(inputs, slots[1..])
  {
    if Present(inputs, slots[0]) && AllPresent(inputs, slots[1..]) {
      forall i | 0 <= i < |slots| ensures Present(inputs, slots[i]) {
        if i > 0 { assert slots[i] == slots[1..][i - 1]; }
      }
    }
  }

  /** The branch of the if/elif chains that a record comes from. */
  function TypeOfRecord(rec: Record): QrType {
    match rec
    case PlainText(_) => PlainTextType
    case Url(_) => UrlType
    case Wifi(_, _, _, _) => WifiType
    case VCard(_, _, _, _, _) => VCardType
    case Email(_, _, _) => EmailType
    case Geo(_, _) => GeoType
    case Phone(_) => PhoneType
    case Sms(_, _) => SmsType
    case Unrecognised(name) => OtherType(name)
  }

  function Text(v: Value): string {
    if v.Str? then v.text else ""
  }

  /** The branch of `get_data` for a type, given what its reads returned. */
  function Build(t: QrType, vs: seq<Value>): (rec: Record)
    requires |vs| == |ReadKeys(t)|
    ensures TypeOfRecord(rec) == t
  {
    match t
    case PlainTextType => PlainText(Text(vs[0]))
    case UrlType => Url(Text(vs[0]))
    case WifiType => Wifi(Text(vs[0]), Text(vs[1]), Text(vs[2]), vs[3].Bool? && vs[3].checked)
    case VCardType => VCard(Text(vs[0]), Text(vs[1]), Text(vs[2]), Text(vs[3]), Text(vs[4]))
    case EmailType => Email(Text(vs[0]), Text(vs[1]), Text(vs[2]))
    case GeoType => Geo(Text(vs[0]), Text(vs[1]))
    case PhoneType => Phone(Text(vs[0]))
    case SmsType => Sms(Text(vs[0]), Text(vs[1]))
    case OtherType(name) => Unrecognised(name)
  }

  /** The reads of `get_data`, before anything is stripped or formatted: the
      record of the selected type, or the error of the first read that fails. */
  function ReadRecord(t: QrType, inputs: Inputs): (r: Result<Record, DataError>)
    ensures r.Success? ==> TypeOfRecord(r.value) == t
    ensures r.Failure? ==> r.error.MissingField? || r.error.WrongWidget?
  {
    var vs :- ReadAll(inputs, ReadKeys(t));
    Success(Build(t, vs))
  }

  /** `get_data`: the payload handed to the encoder, `NoData` where the code
      raises `ValueError`, `MissingField` where it catches a `KeyError`. */
  function GetData(t: QrType, inputs: Inputs): (r: Result<string, DataError>)
    ensures r.Success? ==> r.value != ""
  {
    var rec :- ReadRecord(t, inputs);
    Format(rec)
  }

  // ---------------------------------------------------------------------------
  // Reads against creations

  predicate AllPresent(inputs: Inputs, slots: seq<Slot>) {
    forall i :: 0 <= i < |slots| ==> Present(inputs, slots[i])
  }

  /** `slots[i]` is the first read that fails. */
  predicate FirstAbsent(inputs: Inputs, slots: seq<Slot>, i: int) {
    && 0 <= i < |slots|
    && !Present(inputs, slots[i])
    && AllPresent(inputs, slots[..i])
  }

  function KeysOf(slots: seq<Slot>): set<string> {
    set s | s in slots :: s.key
  }

  /** Every read of `get_data` finds a widget of the kind it reads among
      those the matching `create_*_input` made. */
  lemma ReadKeysCreated(t: QrType)
    ensures AllPresent(Layout(t), ReadKeys(t))
  {
    if t == VCardType {
      VCardLayout();
    }
  }

  /** Conversely every created widget is read: the keys of `get_data` are
      exactly those of the matching `create_*_input`. */
  lemma CreatedKeysRead(t: QrType)
    ensures Layout(t).Keys == KeysOf(ReadKeys(t))
  {
    if t == VCardType {
      VCardLayout();
    }
  }

  /** The widgets keep the key set and the kinds that `update_input_fields`
      gave them for a type; typing into them does not change that. */
  predicate Conforms(inputs: Inputs, t: QrType) {
    && inputs.Keys == Layout(t).Keys
    && forall k :: k in inputs ==> KindOf(inputs[k]) == KindOf(Layout(t)[k])
  }

  /** What the user can do to a widget: type into an entry or a text widget,
      pick one of the values of a combobox, tick or untick a check button. */
  predicate CanBecome(w: Widget, w': Widget) {
    match w
    case Entry(_) => w'.Entry?
    case TextBox(_) => w'.TextBox?
    case Combo(_, choices) => w'.Combo? && w'.choices == choices && w'.text in choices
    case Toggle(_) => w'.Toggle?
  }

  /** While the type is unchanged the `KeyError` branch of `get_data` is
      unreachable: every read succeeds on the widgets of the type. */
  lemma ConformingReadSucceeds(t: QrType, inputs: Inputs)
    requires Conforms(inputs, t)
    ensures ReadRecord(t, inputs).Success?
  {
    ReadKeysCreated(t);
    ReadAllFailsIff(inputs, ReadKeys(t));
    var slots := ReadKeys(t);
    forall i | 0 <= i < |slots| ensures Present(inputs, slots[i]) {
      assert Present(Layout(t), slots[i]);
    }
  }

  /** On the widgets of its type `get_data` fails only by raising `ValueError`
      for an empty payload, and that happens exactly for a blank plain text, a
      blank URL and a type name outside the combobox values. */
  lemma ConformingGetDataFailsIff(t: QrType, inputs: Inputs)
    requires Conforms(inputs, t)
    ensures GetData(t, inputs).Failure? ==> GetData(t, inputs).error == NoData
    ensures GetData(t, inputs).Failure? <==>
      || (t == PlainTextType && AllWhitespace(inputs["text"].text))
      || (t == UrlType && AllWhitespace(inputs["url"].text))
      || t.OtherType?
  {
    if t == PlainTextType {
      var text := inputs["text"].text;
      PlainTextFormRecord(inputs);
      FormatFailsIff(PlainText(text + "\n"));
      AllWhitespaceAppend(text, '\n');
    } else if t == UrlType {
      UrlFormRecord(inputs);
      FormatFailsIff(Url(inputs["url"].text));
    } else {
      ConformingReadSucceeds(t, inputs);
      var rec := ReadRecord(t, inputs).value;
      assert TypeOfRecord(rec) == t;
      FormatFailsIff(rec);
    }
  }

  /** On the widgets of its type `get_data` fails only with `NoData`. */
  lemma ConformingGetDataError(t: QrType, inputs: Inputs)
    requires Conforms(inputs, t)
    ensures GetData(t, inputs).Failure? ==> GetData(t, inputs).error == NoData
  {
    ConformingReadSucceeds(t, inputs);
  }

  /** What `get_data` reads from the plain-text form: the text widget's
      contents and the newline Tk appends. */
  lemma PlainTextFormRecord(inputs: Inputs)
    requires Conforms(inputs, PlainTextType)
    ensures ReadRecord(PlainTextType, inputs) == Success(PlainText(inputs["text"].text + "\n"))
  {
    ConformingReadSucceeds(PlainTextType, inputs);
    var vs := ReadAll(inputs, ReadKeys(PlainTextType)).value;
    assert ReadSlot(inputs, Slot("text", Lines)) == Success(vs[0]);
  }

  lemma UrlFormRecord(inputs: Inputs)
    requires Conforms(inputs, UrlType)
    ensures ReadRecord(UrlType, inputs) == Success(Url(inputs["url"].text))
  {
    ConformingReadSucceeds(UrlType, inputs);
    var vs := ReadAll(inputs, ReadKeys(UrlType)).value;
    assert ReadSlot(inputs, Slot("url", Line)) == Success(vs[0]);
  }

  /** The newline a text widget appends is stripped again: a plain-text
      payload is the stripped contents of the text widget. */
  lemma PlainTextFormPayload(inputs: Inputs, contents: string)
    requires Conforms(inputs, PlainTextType) && inputs["text"] == TextBox(contents)
    ensures GetData(PlainTextType, inputs) ==
      if AllWhitespace(contents) then Failure(NoData) else Success(Trim(contents))
  {
    PlainTextFormRecord(inputs);
    PlainTextPayload(contents + "\n");
    TrimAppendWhitespace(contents, '\n');
    AllWhitespaceAppend(contents, '\n');
  }

  /** What `get_data` reads from the widgets of the Wi-Fi form. */
  lemma WifiFormRecord(inputs: Inputs)
    requires Conforms(inputs, WifiType)
    ensures ReadRecord(WifiType, inputs) ==
      Success(Wifi(inputs["ssid"].text, inputs["password"].text, inputs["security"].text, inputs["hidden"].checked))
  {
    ConformingReadSucceeds(WifiType, inputs);
    var slots := ReadKeys(WifiType);
    var vs := ReadAll(inputs, slots).value;
    assert ReadSlot(inputs, slots[0]) == Success(vs[0]);
    assert ReadSlot(inputs, slots[1]) == Success(vs[1]);
    assert ReadSlot(inputs, slots[2]) == Success(vs[2]);
    assert ReadSlot(inputs, slots[3]) == Success(vs[3]);
  }

  /** The Wi-Fi payload in terms of the widgets: the combobox value as it is,
      the stripped SSID and password entries and the check button's state. */
  lemma WifiFormPayload(inputs: Inputs)
    requires Conforms(inputs, WifiType)
    ensures GetData(WifiType, inputs) == Success(
      "WIFI:T:" + inputs["security"].text + ";S:" + Trim(inputs["ssid"].text)
      + ";P:" + Trim(inputs["password"].text)
      + ";H:" + (if inputs["hidden"].checked then "true" else "false") + ";;")
  {
    WifiFormRecord(inputs);
    var ssid, password, security, hidden :=
      inputs["ssid"].text, inputs["password"].text, inputs["security"].text, inputs["hidden"].checked;
    WifiPayload(ssid, password, security, hidden);
  }

  /** What `get_data` reads from the five entries of the vCard form, each
      found under its lower-cased label. */
  lemma VCardFormRecord(inputs: Inputs)
    requires Conforms(inputs, VCardType)
    ensures "name" in inputs && "email" in inputs && "phone" in inputs
      && "organization" in inputs && "address" in inputs
    ensures ReadRecord(VCardType, inputs) == Success(VCard(
      inputs["name"].text, inputs["email"].text, inputs["phone"].text,
      inputs["organization"].text, inputs["address"].text))
  {
    VCardLayout();
    ConformingReadSucceeds(VCardType, inputs);
    var slots := ReadKeys(VCardType);
    var vs := ReadAll(inputs, slots).value;
    assert ReadSlot(inputs, slots[0]) == Success(vs[0]);
    assert ReadSlot(inputs, slots[1]) == Success(vs[1]);
    assert ReadSlot(inputs, slots[2]) == Success(vs[2]);
    assert ReadSlot(inputs, slots[3]) == Success(vs[3]);
    assert ReadSlot(inputs, slots[4]) == Success(vs[4]);
  }

  /** What `get_data` reads from the e-mail form: the address and subject
      entries, and the body text widget with the newline Tk appends. */
  lemma EmailFormRecord(inputs: Inputs)
    requires Conforms(inputs, EmailType)
    ensures ReadRecord(EmailType, inputs) ==
      Success(Email(inputs["email"].text, inputs["subject"].text, inputs["body"].text + "\n"))
  {
    ConformingReadSucceeds(EmailType, inputs);
    var slots := ReadKeys(EmailType);
    var vs := ReadAll(inputs, slots).value;
    assert ReadSlot(inputs, slots[0]) == Success(vs[0]);
    assert ReadSlot(inputs, slots[1]) == Success(vs[1]);
    assert ReadSlot(inputs, slots[2]) == Success(vs[2]);
  }

  lemma GeoFormRecord(inputs: Inputs)
    requires Conforms(inputs, GeoType)
    ensures ReadRecord(GeoType, inputs) == Success(Geo(inputs["lat"].text, inputs["lon"].text))
  {
    ConformingReadSucceeds(GeoType, inputs);
    var slots := ReadKeys(GeoType);
    var vs := ReadAll(inputs, slots).value;
    assert ReadSlot(inputs, slots[0]) == Success(vs[0]);
    assert ReadSlot(inputs, slots[1]) == Success(vs[1]);
  }

  lemma PhoneFormRecord(inputs: Inputs)
    requires Conforms(inputs, PhoneType)
    ensures ReadRecord(PhoneType, inputs) == Success(Phone(inputs["phone"].text))
  {
    ConformingReadSucceeds(PhoneType, inputs);
    var vs := ReadAll(inputs, ReadKeys(PhoneType)).value;
    assert ReadSlot(inputs, Slot("phone", Line)) == Success(vs[0]);
  }

  /** What `get_data` reads from the SMS form: the number entry and the
      message text widget with the newline Tk appends. */
  lemma SmsFormRecord(inputs: Inputs)
    requires Conforms(inputs, SmsType)
    ensures ReadRecord(SmsType, inputs) ==
      Success(Sms(inputs["phone"].text, inputs["message"].text + "\n"))
  {
    ConformingReadSucceeds(SmsType, inputs);
    var slots := ReadKeys(SmsType);
    var vs := ReadAll(inputs, slots).value;
    assert ReadSlot(inputs, slots[0]) == Success(vs[0]);
    assert ReadSlot(inputs, slots[1]) == Success(vs[1]);
  }

  /** The e-mail payload in terms of the widgets: the newline of the body
      text widget is stripped again with the rest of the padding. */
  lemma EmailFormPayload(inputs: Inputs)
    requires Conforms(inputs, EmailType)
    ensures GetData(EmailType, inputs) == Success(
      "mailto:" + Trim(inputs["email"].text) + "?subject=" + Trim(inputs["subject"].text)
      + "&body=" + Trim(inputs["body"].text))
  {
    EmailFormRecord(inputs);
    var to, subject, body := inputs["email"].text, inputs["subject"].text, inputs["body"].text;
    EmailPayload(to, subject, body + "\n");
    TrimAppendWhitespace(body, '\n');
  }

  /** The SMS payload in terms of the widgets: the newline of the message
      text widget is stripped again with the rest of the padding. */
  lemma SmsFormPayload(inputs: Inputs)
    requires Conforms(inputs, SmsType)
    ensures GetData(SmsType, inputs) ==
      Success("sms:" + Trim(inputs["phone"].text) + "?body=" + Trim(inputs["message"].text))
  {
    SmsFormRecord(inputs);
    var number, message := inputs["phone"].text, inputs["message"].text;
    SmsPayload(number, message + "\n");
    TrimAppendWhitespace(message, '\n');
  }

  lemma VCardFormPayload(inputs: Inputs)
    requires Conforms(inputs, VCardType)
    ensures "name" in inputs && "email" in inputs && "phone" in inputs
      && "organization" in inputs && "address" in inputs
    ensures GetData(VCardType, inputs) == Success(
      "BEGIN:VCARD\nVERSION:3.0\nN:" + Trim(inputs["name"].text) + "\nEMAIL:" + Trim(inputs["email"].text)
      + "\nTEL:" + Trim(inputs["phone"].text) + "\nORG:" + Trim(inputs["organization"].text)
      + "\nADR:" + Trim(inputs["address"].text) + "\nEND:VCARD")
  {
    VCardFormRecord(inputs);
    var name, email, phone := inputs["name"].text, inputs["email"].text, inputs["phone"].text;
    var organization, address := inputs["organization"].text, inputs["address"].text;
    VCardPayload(name, email, phone, organization, address);
  }

  lemma GeoFormPayload(inputs: Inputs)
    requires Conforms(inputs, GeoType)
    ensures GetData(GeoType, inputs) ==
      Success("geo:" + Trim(inputs["lat"].text) + "," + Trim(inputs["lon"].text))
  {
    GeoFormRecord(inputs);
    var lat, lon := inputs["lat"].text, inputs["lon"].text;
    GeoPayload(lat, lon);
  }

  lemma PhoneFormPayload(inputs: Inputs)
    requires Conforms(inputs, PhoneType)
    ensures GetData(PhoneType, inputs) == Success("tel:" + Trim(inputs["phone"].text))
  {
    PhoneFormRecord(inputs);
    var number := inputs["phone"].text;
    PhonePayload(number);
  }
}
