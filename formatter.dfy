/** The payload formatter of `QRGeneratorApp.get_data`: the selected QR type
    and the strings read from its input widgets become the one string that is
    handed to the QR encoder. Nothing is percent-encoded or escaped. */
module Formatter {
  import opened Results
  import opened Strings
  import opened Templates

  /** One variant per QR type. The fields hold the strings as read from the
      widgets, before stripping; `security` is the Wi-Fi combobox value and
      `hidden` the state of the "Hidden Network" check button. */
  datatype Record =
    | PlainText(text: string)
    | Url(url: string)
    | Wifi(ssid: string, password: string, security: string, hidden: bool)
    | VCard(name: string, email: string, phone: string, organization: string, address: string)
    | Email(to: string, subject: string, body: string)
    | Geo(lat: string, lon: string)
    | Phone(number: string)
    | Sms(number: string, message: string)
    | Unrecognised(typeName: string)

  /** Why `get_data` yields no payload: the `ValueError` it raises for an
      empty payload, the `KeyError` it catches for a key missing from the input
      dictionary, or the exception a read would raise on a widget of another
      kind than the one it reads. */
  datatype DataError = NoData | MissingField(key: string) | WrongWidget(key: string)

  // The f-strings of `get_data`, one per templated type.
  const WifiTemplate := Template("WIFI:T:", [";S:", ";P:", ";H:", ";;"])
  const VCardTemplate :=
    Template("BEGIN:VCARD\nVERSION:3.0\nN:", ["\nEMAIL:", "\nTEL:", "\nORG:", "\nADR:", "\nEND:VCARD"])
  const EmailTemplate := Template("mailto:", ["?subject=", "&body=", ""])
  const GeoTemplate := Template("geo:", [",", ""])
  const PhoneTemplate := Template("tel:", [""])
  const SmsTemplate := Template("sms:", ["?body=", ""])
  // Plain text and URL: the stripped input itself; an unrecognised type: "".
  const PassThrough := Template("", [""])
  const Nothing := Template("", [])

  function HiddenFlag(hidden: bool): string {
    if hidden then "true" else "false"
  }

  /** The f-string of a record's branch. Every templated type starts with a
      literal scheme or header of its own; plain text and URL are passed
      through with nothing around them, and an unrecognised type has no hole. */
  function TemplateOf(rec: Record): (t: Template)
    ensures t.head == "" <==> rec.PlainText? || rec.Url? || rec.Unrecognised?
    ensures t.tail == [] <==> rec.Unrecognised?
  {
    match rec
    case PlainText(_) => PassThrough
    case Url(_) => PassThrough
    case Wifi(_, _, _, _) => WifiTemplate
    case VCard(_, _, _, _, _) => VCardTemplate
    case Email(_, _, _) => EmailTemplate
    case Geo(_, _) => GeoTemplate
    case Phone(_) => PhoneTemplate
    case Sms(_, _) => SmsTemplate
    case Unrecognised(_) => Nothing
  }

  /** The values substituted into the template: every field stripped, except
      the Wi-Fi security type, which is inserted as the combobox holds it. */
  function ArgsOf(rec: Record): (args: seq<string>)
    ensures |args| == |TemplateOf(rec).tail|
  {
    match rec
    case PlainText(text) => [Trim(text)]
    case Url(url) => [Trim(url)]
    case Wifi(ssid, password, security, hidden) =>
      [security, Trim(ssid), Trim(password), HiddenFlag(hidden)]
    case VCard(name, email, phone, organization, address) =>
      [Trim(name), Trim(email), Trim(phone), Trim(organization), Trim(address)]
    case Email(to, subject, body) => [Trim(to), Trim(subject), Trim(body)]
    case Geo(lat, lon) => [Trim(lat), Trim(lon)]
    case Phone(number) => [Trim(number)]
    case Sms(number, message) => [Trim(number), Trim(message)]
    case Unrecognised(_) => []
  }

  /** The variable `data` of `get_data` once the if/elif chain has run. */
  function Data(rec: Record): (data: string)
    ensures StartsWith(data, TemplateOf(rec).head)
    ensures rec.Unrecognised? ==> data == ""
    ensures data == "" ==> rec.PlainText? || rec.Url? || rec.Unrecognised?
  {
    Fill(TemplateOf(rec), ArgsOf(rec))
  }

  /** `get_data` after the widgets have been read: the payload, or `NoData`
      when it is empty. */
  function Format(rec: Record): (r: Result<string, DataError>)
    ensures r.Success? ==> r.value != ""
    ensures r.Failure? ==> r.error == NoData
  {
    var data := Data(rec);
    if data == "" then Failure(NoData) else Success(data)
  }

  // What each template evaluates to, for arbitrary values.

  lemma PassThroughFill(x: string)
    ensures Fill(PassThrough, [x]) == x
  {
    assert FillHoles([""], [x]) == x;
  }

  lemma WifiFill(a: string, b: string, c: string, d: string)
    ensures Fill(WifiTemplate, [a, b, c, d]) == "WIFI:T:" + a + ";S:" + b + ";P:" + c + ";H:" + d + ";;"
  {
    assert FillHoles([";;"], [d]) == d + ";;";
    assert FillHoles([";H:", ";;"], [c, d]) == c + ";H:" + d + ";;";
    assert FillHoles([";P:", ";H:", ";;"], [b, c, d]) == b + ";P:" + c + ";H:" + d + ";;";
  }

  lemma VCardFill(a: string, b: string, c: string, d: string, e: string)
    ensures Fill(VCardTemplate, [a, b, c, d, e]) ==
      "BEGIN:VCARD\nVERSION:3.0\nN:" + a + "\nEMAIL:" + b + "\nTEL:" + c + "\nORG:" + d + "\nADR:" + e + "\nEND:VCARD"
  {
    VCardTailFill(b, c, d, e);
  }

  lemma VCardTailFill(b: string, c: string, d: string, e: string)
    ensures FillHoles(["\nTEL:", "\nORG:", "\nADR:", "\nEND:VCARD"], [b, c, d, e]) ==
      b + "\nTEL:" + c + "\nORG:" + d + "\nADR:" + e + "\nEND:VCARD"
  {
    assert FillHoles(["\nEND:VCARD"], [e]) == e + "\nEND:VCARD";
    assert FillHoles(["\nADR:", "\nEND:VCARD"], [d, e]) == d + "\nADR:" + e + "\nEND:VCARD";
    assert FillHoles(["\nORG:", "\nADR:", "\nEND:VCARD"], [c, d, e]) == c + "\nORG:" + d + "\nADR:" + e + "\nEND:VCARD";
  }

  lemma EmailFill(a: string, b: string, c: string)
    ensures Fill(EmailTemplate, [a, b, c]) == "mailto:" + a + "?subject=" + b + "&body=" + c
  {
    assert FillHoles([""], [c]) == c;
    assert FillHoles(["&body=", ""], [b, c]) == b + "&body=" + c;
  }

  lemma GeoFill(a: string, b: string)
    ensures Fill(GeoTemplate, [a, b]) == "geo:" + a + "," + b
  {
    assert FillHoles([""], [b]) == b;
  }

  lemma PhoneFill(a: string)
    ensures Fill(PhoneTemplate, [a]) == "tel:" + a
  {
    assert FillHoles([""], [a]) == a;
  }

  lemma SmsFill(a: string, b: string)
    ensures Fill(SmsTemplate, [a, b]) == "sms:" + a + "?body=" + b
  {
    assert FillHoles([""], [b]) == b;
  }

  /** Formatting fails exactly for blank plain text, a blank URL and an
      unrecognised type: every templated type yields a payload even when all
      of its fields are blank. */
  lemma FormatFailsIff(rec: Record)
    ensures Format(rec).Failure? <==>
      || (rec.PlainText? && AllWhitespace(rec.text))
      || (rec.Url? && AllWhitespace(rec.url))
      || rec.Unrecognised?
  {
    match rec
    case PlainText(text) =>
      TrimEmptyIff(text);
      PassThroughFill(Trim(text));
    case Url(url) =>
      TrimEmptyIff(url);
      PassThroughFill(Trim(url));
    case Unrecognised(_) =>
    case _ =>
      var data := Data(rec);
      assert StartsWith(data, TemplateOf(rec).head) && TemplateOf(rec).head != [];
  }

  lemma PlainTextPayload(text: string)
    ensures Format(PlainText(text)) == if AllWhitespace(text) then Failure(NoData) else Success(Trim(text))
  {
    TrimEmptyIff(text);
    PassThroughFill(Trim(text));
  }

  lemma UrlPayload(url: string)
    ensures Format(Url(url)) == if AllWhitespace(url) then Failure(NoData) else Success(Trim(url))
  {
    TrimEmptyIff(url);
    PassThroughFill(Trim(url));
  }

  lemma WifiPayload(ssid: string, password: string, security: string, hidden: bool)
    ensures Format(Wifi(ssid, password, security, hidden)) ==
      Success("WIFI:T:" + security + ";S:" + Trim(ssid) + ";P:" + Trim(password)
              + ";H:" + (if hidden then "true" else "false") + ";;")
  {
    WifiFill(security, Trim(ssid), Trim(password), HiddenFlag(hidden));
  }

  lemma VCardPayload(name: string, email: string, phone: string, organization: string, address: string)
    ensures Format(VCard(name, email, phone, organization, address)) ==
      Success("BEGIN:VCARD\nVERSION:3.0\nN:" + Trim(name) + "\nEMAIL:" + Trim(email) + "\nTEL:" + Trim(phone)
              + "\nORG:" + Trim(organization) + "\nADR:" + Trim(address) + "\nEND:VCARD")
  {
    VCardFill(Trim(name), Trim(email), Trim(phone), Trim(organization), Trim(address));
  }

  lemma EmailPayload(to: string, subject: string, body: string)
    ensures Format(Email(to, subject, body)) ==
      Success("mailto:" + Trim(to) + "?subject=" + Trim(subject) + "&body=" + Trim(body))
  {
    EmailFill(Trim(to), Trim(subject), Trim(body));
  }

  lemma GeoPayload(lat: string, lon: string)
    ensures Format(Geo(lat, lon)) == Success("geo:" + Trim(lat) + "," + Trim(lon))
  {
    GeoFill(Trim(lat), Trim(lon));
  }

  lemma PhonePayload(number: string)
    ensures Format(Phone(number)) == Success("tel:" + Trim(number))
  {
    PhoneFill(Trim(number));
  }

  lemma SmsPayload(number: string, message: string)
    ensures Format(Sms(number, message)) == Success("sms:" + Trim(number) + "?body=" + Trim(message))
  {
    SmsFill(Trim(number), Trim(message));
  }

  /** No substituted value contains the character that starts the literal
      after it, so the payload can be split back into its values. */
  predicate Unambiguous(rec: Record) {
    match rec
    case Wifi(ssid, password, security, _) =>
      ';' !in security && ';' !in Trim(ssid) && ';' !in Trim(password)
    case VCard(name, email, phone, organization, address) =>
      '\n' !in Trim(name) && '\n' !in Trim(email) && '\n' !in Trim(phone)
      && '\n' !in Trim(organization) && '\n' !in Trim(address)
    case Email(to, subject, _) => '?' !in Trim(to) && '&' !in Trim(subject)
    case Geo(lat, _) => ',' !in Trim(lat)
    case Sms(number, _) => '?' !in Trim(number)
    case _ => true
  }

  // When each template's values are separated.

  lemma WifiSeparated(a: string, b: string, c: string, d: string)
    requires ';' !in a && ';' !in b && ';' !in c && ';' !in d
    ensures Separated(WifiTemplate.tail, [a, b, c, d])
  {
  }

  lemma VCardSeparated(a: string, b: string, c: string, d: string, e: string)
    requires '\n' !in a && '\n' !in b && '\n' !in c && '\n' !in d && '\n' !in e
    ensures Separated(VCardTemplate.tail, [a, b, c, d, e])
  {
  }

  lemma EmailSeparated(a: string, b: string, c: string)
    requires '?' !in a && '&' !in b
    ensures Separated(EmailTemplate.tail, [a, b, c])
  {
  }

  lemma GeoSeparated(a: string, b: string)
    requires ',' !in a
    ensures Separated(GeoTemplate.tail, [a, b])
  {
  }

  lemma SmsSeparated(a: string, b: string)
    requires '?' !in a
    ensures Separated(SmsTemplate.tail, [a, b])
  {
  }

  lemma UnambiguousSeparated(rec: Record)
    requires Unambiguous(rec)
    ensures Separated(TemplateOf(rec).tail, ArgsOf(rec))
  {
    match rec
    case Wifi(ssid, password, security, hidden) =>
      assert ';' !in HiddenFlag(hidden);
      WifiSeparated(security, Trim(ssid), Trim(password), HiddenFlag(hidden));
    case VCard(name, email, phone, organization, address) =>
      VCardSeparated(Trim(name), Trim(email), Trim(phone), Trim(organization), Trim(address));
    case Email(to, subject, body) =>
      EmailSeparated(Trim(to), Trim(subject), Trim(body));
    case Geo(lat, lon) =>
      GeoSeparated(Trim(lat), Trim(lon));
    case Sms(number, message) =>
      SmsSeparated(Trim(number), Trim(message));
    case _ =>
  }

  /** When no field holds a delimiter, the payload gives back exactly the
      values put into it: the stripped fields and, for Wi-Fi, the security
      type as it was and the hidden flag. */
  lemma FieldsRecoverable(rec: Record)
    requires Unambiguous(rec)
    ensures Unfill(TemplateOf(rec), Data(rec)) == Some(ArgsOf(rec))
  {
    UnambiguousSeparated(rec);
    UnfillFill(TemplateOf(rec), ArgsOf(rec));
  }

  /** Two records of the same kind without delimiters in their fields give
      the same payload only if their stripped fields agree. */
  lemma PayloadDeterminesFields(r1: Record, r2: Record)
    requires TemplateOf(r1) == TemplateOf(r2)
    requires Unambiguous(r1) && Unambiguous(r2)
    requires Data(r1) == Data(r2)
    ensures ArgsOf(r1) == ArgsOf(r2)
  {
    UnambiguousSeparated(r1);
    UnambiguousSeparated(r2);
    FillInjective(TemplateOf(r1), ArgsOf(r1), ArgsOf(r2));
  }

  lemma ShiftedDelimiterFill(x: string, y: string, security: string, flag: string)
    ensures Fill(WifiTemplate, [security, x + ";P:" + y, "", flag]) == Fill(WifiTemplate, [security, x, y + ";P:", flag])
  {
    WifiFill(security, x + ";P:" + y, "", flag);
    WifiFill(security, x, y + ";P:", flag);
  }

  lemma WifiArgs(ssid: string, password: string, security: string, hidden: bool)
    requires Trim(ssid) == ssid && Trim(password) == password
    ensures ArgsOf(Wifi(ssid, password, security, hidden)) == [security, ssid, password, HiddenFlag(hidden)]
  {
  }

  lemma ShiftedDelimiterData(r1: Record, r2: Record, x: string, y: string, security: string, flag: string)
    requires r1.Wifi? && r2.Wifi?
    requires ArgsOf(r1) == [security, x + ";P:" + y, "", flag]
    requires ArgsOf(r2) == [security, x, y + ";P:", flag]
    ensures Data(r1) == Data(r2)
  {
    ShiftedDelimiterFill(x, y, security, flag);
  }

  lemma WifiDataNonEmpty(rec: Record)
    requires rec.Wifi?
    ensures Data(rec) != ""
  {
    assert StartsWith(Data(rec), WifiTemplate.head);
  }

  /** Without escaping, a delimiter inside a field makes the payload
      ambiguous: the SSID `x;P:y` with an empty password and the SSID `x`
      with the password `y;P:` give the same payload. */
  lemma DelimiterMakesPayloadAmbiguous(x: string, y: string, security: string, hidden: bool)
    requires x != [] && !IsWhitespace(x[0]) && !IsWhitespace(x[|x| - 1])
    requires y != [] && !IsWhitespace(y[0]) && !IsWhitespace(y[|y| - 1])
    ensures var r1, r2 := Wifi(x + ";P:" + y, "", security, hidden), Wifi(x, y + ";P:", security, hidden);
      && Trim(r1.ssid) != Trim(r2.ssid)
      && Format(r1).Success?
      && Format(r1) == Format(r2)
  {
    var ssid, password := x + ";P:" + y, y + ";P:";
    var r1, r2 := Wifi(ssid, "", security, hidden), Wifi(x, password, security, hidden);
    var flag := HiddenFlag(hidden);
    assert ssid[0] == x[0] && ssid[|ssid| - 1] == y[|y| - 1];
    TrimOfUnpadded(ssid);
    TrimOfUnpadded("");
    TrimOfUnpadded(x);
    TrimOfUnpadded(password);
    WifiArgs(ssid, "", security, hidden);
    WifiArgs(x, password, security, hidden);
    ShiftedDelimiterData(r1, r2, x, y, security, flag);
    WifiDataNonEmpty(r1);
  }
}
