# QR code generator: a verified model of the form-to-payload core

`qr_code_generator.py` is a Tk desktop application. It collects the fields of
one of eight QR "types" (plain text, URL, Wi-Fi, vCard, e-mail, geo location,
phone number, SMS) and turns them into one payload string. It hands that string
to the `segno` encoder, optionally pastes a logo into the centre of the
rendered image, and saves the result as PNG or SVG.

This project models the logic between the widgets and the libraries, and
proves the properties listed below:

- `strings.dfy` (module `Strings`) covers the Python string operations the
  code relies on:
  - `str.strip()`, with the exact `str.isspace()` character set;
  - `str.lower()` on ASCII;
  - `str.endswith`.
- `templates.dfy` (module `Templates`) models an f-string as a head literal
  followed by holes, each hole followed by a literal.
  - `Fill` evaluates the template without any escaping, as the code does.
  - `Unfill` parses a payload back into its values.
- `formatter.dfy` (module `Formatter`) is the if/elif chain of `get_data`.
  - It covers one `Record` variant per type, the template of each type and
    `Format`.
  - `Format` strips the fields, fills the template and fails when the payload
    is empty.
- `form.dfy` (module `Form`) is the dictionary `current_inputs`:
  - the widgets `update_input_fields` creates for each type (`Layout`);
  - the reads `get_data` makes (`ReadKeys`, `ReadAll`), including the
    `KeyError` path;
  - the proof that, on the widgets of the selected type, no read fails.
- `logo.dfy` (module `Logo`) is the size and position arithmetic of the
  logo paste.
- `app.dfy` (module `App`) is the class `QrGeneratorApp`.
  - Its fields are the Tk variables, `preview_image`, `qr_data`, `qr_img` and
    `current_inputs`.
  - Its methods are `update_input_fields` and the `create_*_input` helpers,
    `choose_color`, `select_logo`, `generate_preview`, `save_qr` and `reset`.
  - Each method has a `modifies` clause naming exactly the fields it assigns.
- `results.dfy` (module `Results`) holds `Option` and a failure-compatible
  `Result`.

What the libraries and dialogs return is passed in as a parameter:

- `GeneratePreview` receives the size of the image the encoder renders, or
  `None` when the encoder raises.
- It also receives the mode of the logo image, or `None` when the file cannot
  be opened.
- `SaveQr` and `SelectLogo` receive the path the file dialog returned, where
  "" means cancelled.
- `ChooseColor` receives the colour the colour dialog returned.

Some behaviours of the code are worth stating outright, because a reader
might expect otherwise:

- **When formatting fails.** `get_data` raises only when the whole payload is
  empty. Every templated type therefore succeeds even with all fields blank:
  `BEGIN:VCARD` with five empty properties is a valid payload here
  (`Formatter.FormatFailsIff`).
- **Nothing is escaped.** Unlike the escaping of RFC 2426 (vCard) and the
  percent-encoding of RFC 6068 (`mailto:`), the fields are inserted as typed
  and stripped. A delimiter inside a field can make two forms give the same
  payload (`Formatter.DelimiterMakesPayloadAmbiguous`).
- **Security type.** The Wi-Fi security value is the combobox string,
  inserted without stripping, so the model keeps it as a string.
- **Options used by a save.** SVG save uses the scale, border and colours
  current when saving. Image save writes the image stored at generation.
  `SavedSvg` therefore records `CurrentOptions()`.
- **Logo mask.** The logo is its own paste mask only when its mode is exactly
  `"RGBA"`. Other modes with transparency, such as `"LA"` or `"P"`, are
  pasted unmasked.

## Model

| member | source | states |
|---|---|---|
| Strings.TrimStart | qr_code_generator.py:199 | the result is a suffix of the input and does not start with whitespace |
| Strings.TrimEnd | qr_code_generator.py:199 | the result is a prefix of the input and does not end with whitespace |
| Strings.Trim | qr_code_generator.py:199 | `strip()` neither starts nor ends with whitespace and is no longer than its input |
| Strings.TrimSpec | qr_code_generator.py:199 | the stripped string is the input minus a whitespace prefix and a whitespace suffix |
| Strings.TrimEmptyIff | qr_code_generator.py:199-201 | stripping gives "" exactly when every character is whitespace |
| Strings.TrimAppendWhitespace | qr_code_generator.py:199 | appending one whitespace character does not change the stripped string |
| Strings.AllWhitespaceAppend | qr_code_generator.py:199 | appending a whitespace character keeps a string all-whitespace, and only then |
| Strings.TrimStartDropsWhitespace | qr_code_generator.py:199 | what the left strip removes is whitespace |
| Strings.TrimEndDropsWhitespace | qr_code_generator.py:199 | what the right strip removes is whitespace |
| Strings.TrimIdempotent | qr_code_generator.py:199 | stripping twice is stripping once |
| Strings.Lower | qr_code_generator.py:149 | same length, no ASCII capital left, capitals become their small letters, all else kept |
| Templates.Fill | qr_code_generator.py:207 | the filled f-string starts with its head literal |
| Templates.Unfill | qr_code_generator.py:207 | whatever values the parser returns, filling them in gives back the parsed string |
| Templates.UnfillFill | qr_code_generator.py:207 | on separated values, parsing a filled template returns exactly the values filled in |
| Templates.FillInjective | qr_code_generator.py:207 | on separated values, a filled template determines its values |
| Formatter.Format | qr_code_generator.py:230-232 | a payload is never empty; the only formatting failure is the empty payload |
| Formatter.FormatFailsIff | qr_code_generator.py:196-201 | formatting fails iff plain text or URL is all whitespace or the type is unrecognised; templated types never fail |
| Formatter.PlainTextPayload | qr_code_generator.py:198-199 | the payload is the stripped text, or failure when the text is blank |
| Formatter.UrlPayload | qr_code_generator.py:200-201 | the payload is the stripped URL, or failure when it is blank |
| Formatter.WifiPayload | qr_code_generator.py:202-207 | `WIFI:T:<sec>;S:<ssid>;P:<pwd>;H:<true/false>;;` with ssid and password stripped, security as given |
| Formatter.VCardPayload | qr_code_generator.py:208-214 | the eight vCard 3.0 lines joined by newlines, every field stripped, nothing escaped |
| Formatter.EmailPayload | qr_code_generator.py:215-219 | `mailto:<to>?subject=<subject>&body=<body>` with every field stripped, nothing percent-encoded |
| Formatter.GeoPayload | qr_code_generator.py:220-223 | `geo:<lat>,<lon>` with both stripped |
| Formatter.PhonePayload | qr_code_generator.py:224-225 | `tel:<number>` with the number stripped |
| Formatter.SmsPayload | qr_code_generator.py:226-229 | `sms:<number>?body=<message>` with both stripped |
| Formatter.ArgsOf | qr_code_generator.py:203-228 | one substituted value per hole of the type's template |
| Formatter.TemplateOf | qr_code_generator.py:198-229 | the f-string of each branch: a templated type starts with its own scheme or header, plain text and URL pass through, an unrecognised type has no hole; the exact strings are the `*Fill` and `*Payload` lemmas |
| Formatter.Data | qr_code_generator.py:196-229 | the variable `data` after the chain: it starts with the template's head, is "" for an unrecognised type, and can be "" only for plain text, URL or an unrecognised type |
| Formatter.UnambiguousSeparated | qr_code_generator.py:202-229 | without delimiters in the fields every template's values are separated |
| Formatter.FieldsRecoverable | qr_code_generator.py:202-229 | without delimiters in the fields, the payload parses back to the stripped fields |
| Formatter.PayloadDeterminesFields | qr_code_generator.py:202-229 | without delimiters, equal payloads of one type mean equal stripped fields |
| Formatter.DelimiterMakesPayloadAmbiguous | qr_code_generator.py:202-207 | with a `;P:` inside a field, two different SSIDs give the same non-empty Wi-Fi payload |
| Form.TypeOf | qr_code_generator.py:97-119 | the if/elif chains take no branch exactly for names outside the type combobox values |
| Form.LabelledEntries | qr_code_generator.py:145-150 | every label's lower-case form is a key, and every value is an empty entry |
| Form.Layout | qr_code_generator.py:97-182 | every widget `update_input_fields` creates starts blank; its keys are those `get_data` reads (`Form.ReadKeysCreated`, `Form.CreatedKeysRead`) |
| Form.LabelledEntriesSnoc | qr_code_generator.py:147-149 | one more label adds one entry under its lower-case form |
| Form.VCardLayout | qr_code_generator.py:145-150 | the vCard loop creates exactly `name`, `email`, `phone`, `organization`, `address` |
| Form.ReadKeys | qr_code_generator.py:198-229 | the reads of each branch in order: none only for an unrecognised type, and no key read twice |
| Form.ReadSlot | qr_code_generator.py:199-228 | one read succeeds iff the key exists with a widget of the kind read; a missing key is a `KeyError`, another kind is an error |
| Form.ReadAll | qr_code_generator.py:197-229 | the reads return one value per read, each what that read gives |
| Form.ReadAllFailsIff | qr_code_generator.py:197-235 | the reads fail iff some key is absent or of the wrong kind, with the error of the first such read |
| Form.Build | qr_code_generator.py:198-229 | the values of a type's reads become a record of that type; which read fills which field is stated per type by the `*FormRecord` lemmas |
| Form.ReadRecord | qr_code_generator.py:194-229 | a read record has the selected type; a read failure is a missing or unusable widget; the fields by widget name are the `*FormRecord` lemmas |
| Form.GetData | qr_code_generator.py:194-235 | `get_data` returns only non-empty payloads |
| Form.ReadKeysCreated | qr_code_generator.py:97-229 | every key `get_data` reads for a type was created by that type's `create_*_input`, as the widget kind read |
| Form.CreatedKeysRead | qr_code_generator.py:97-229 | the keys created for a type are exactly the keys read for it |
| Form.ConformingReadSucceeds | qr_code_generator.py:233-235 | on the widgets of the selected type no read fails, so the `KeyError` branch is unreachable |
| Form.ConformingGetDataFailsIff | qr_code_generator.py:196-235 | on those widgets `get_data` fails only for a blank plain text, a blank URL or an unknown type |
| Form.ConformingGetDataError | qr_code_generator.py:230-235 | on the widgets of the selected type the only failure of `get_data` is the empty payload |
| Form.PlainTextFormRecord | qr_code_generator.py:121-124 | the plain-text read is the text widget's contents plus the newline Tk appends |
| Form.UrlFormRecord | qr_code_generator.py:126-129 | the URL read is the entry's contents |
| Form.PlainTextFormPayload | qr_code_generator.py:198-199 | the newline of the text widget is stripped again: the payload is the stripped contents |
| Form.WifiFormRecord | qr_code_generator.py:203-206 | the Wi-Fi reads are the two entries, the combobox value and the check button state |
| Form.WifiFormPayload | qr_code_generator.py:131-143 | the Wi-Fi payload in terms of the form's widgets |
| Form.VCardFormRecord | qr_code_generator.py:209-213 | the vCard reads are the entries `name`, `email`, `phone`, `organization` and `address`, in that order, and they exist |
| Form.VCardFormPayload | qr_code_generator.py:208-214 | the vCard payload in terms of the five entries, each stripped |
| Form.EmailFormRecord | qr_code_generator.py:216-218 | the e-mail reads are the `email` and `subject` entries and the `body` text widget with the newline Tk appends |
| Form.EmailFormPayload | qr_code_generator.py:215-219 | the `mailto:` payload in terms of the widgets; the body's appended newline is stripped again |
| Form.GeoFormRecord | qr_code_generator.py:221-222 | the geo reads are the `lat` and `lon` entries |
| Form.GeoFormPayload | qr_code_generator.py:220-223 | the `geo:` payload in terms of the two entries, each stripped |
| Form.PhoneFormRecord | qr_code_generator.py:225 | the phone read is the `phone` entry |
| Form.PhoneFormPayload | qr_code_generator.py:224-225 | the `tel:` payload is the stripped `phone` entry |
| Form.SmsFormRecord | qr_code_generator.py:227-228 | the SMS reads are the `phone` entry and the `message` text widget with the newline Tk appends |
| Form.SmsFormPayload | qr_code_generator.py:226-229 | the `sms:` payload in terms of the widgets; the message's appended newline is stripped again |
| Logo.LogoSide | qr_code_generator.py:256 | the logo side s satisfies 3·s ≤ min(w, h) < 3·(s + 1) |
| Logo.LogoSideUnique | qr_code_generator.py:256 | no other side satisfies those bounds |
| Logo.Offset | qr_code_generator.py:258 | the logo fits on the axis and its two margins differ by at most one pixel |
| Logo.Place | qr_code_generator.py:256-259 | the logo lies inside the image, is centred to within a pixel on both axes, and is masked iff its mode is RGBA |
| Logo.Compose | qr_code_generator.py:254-259 | pasting keeps the image size; a logo is placed iff one was given |
| Logo.SquarePlacement | qr_code_generator.py:256-258 | on a square image x = y and the margins sum to at least twice the side |
| App.QrGeneratorApp.GetData | qr_code_generator.py:194-235 | on the current widgets `get_data` can only fail with an empty payload |
| App.QrGeneratorApp.constructor | qr_code_generator.py:22-50 | the initial variables, no code or preview, the plain-text widgets |
| App.QrGeneratorApp.UpdateInputFields | qr_code_generator.py:97-119 | the dictionary is cleared and holds exactly the widgets of the selected type |
| App.QrGeneratorApp.CreateTextInput | qr_code_generator.py:121-124 | adds an empty text widget under `text` |
| App.QrGeneratorApp.CreateUrlInput | qr_code_generator.py:126-129 | adds an empty entry under `url` |
| App.QrGeneratorApp.CreateWifiInput | qr_code_generator.py:131-143 | adds `ssid`, `password`, the security combobox at "WPA" and the hidden flag at false |
| App.QrGeneratorApp.CreateVcardInput | qr_code_generator.py:145-150 | the loop adds one empty entry per label, under the lower-cased label |
| App.QrGeneratorApp.CreateEmailInput | qr_code_generator.py:152-161 | adds `email`, `subject` and the text widget `body` |
| App.QrGeneratorApp.CreateGeoInput | qr_code_generator.py:163-169 | adds `lat` and `lon` |
| App.QrGeneratorApp.CreatePhoneInput | qr_code_generator.py:171-174 | adds `phone` |
| App.QrGeneratorApp.CreateSmsInput | qr_code_generator.py:176-182 | adds `phone` and the text widget `message` |
| App.QrGeneratorApp.SelectType | qr_code_generator.py:41-44 | selecting a type rebuilds the widgets of that type and keeps the state valid |
| App.QrGeneratorApp.Edit | qr_code_generator.py:121-182 | editing a widget changes only that widget and keeps the widgets those of the type |
| App.QrGeneratorApp.SetErrorLevel | qr_code_generator.py:57-59 | stores one of L, M, Q, H |
| App.QrGeneratorApp.SetScale | qr_code_generator.py:62-63 | stores the scale |
| App.QrGeneratorApp.SetBorder | qr_code_generator.py:64-65 | stores the border |
| App.QrGeneratorApp.ChooseColor | qr_code_generator.py:184-187 | only a non-empty picked colour replaces the chosen variable; the other colours are kept |
| App.QrGeneratorApp.SelectLogo | qr_code_generator.py:189-192 | a cancelled dialog keeps the logo path |
| App.QrGeneratorApp.GeneratePreview | qr_code_generator.py:237-265 | succeeds and commits the code, image and preview exactly when the payload, encoding and logo all succeed; otherwise fails with the first failure and changes nothing |
| App.QrGeneratorApp.Commit | qr_code_generator.py:262-265 | the preview, the code and the image are stored, and the state stays valid |
| App.QrGeneratorApp.SaveQr | qr_code_generator.py:267-283 | refuses without a code, does nothing when cancelled, writes SVG iff the name ends in `.svg` (with a notice iff a logo is set), else writes the stored image |
| App.QrGeneratorApp.Reset | qr_code_generator.py:285-289 | clears the preview, the code and the logo path, and keeps the type, widgets, options and stored image |

## Left out

- Window construction, styles, layout, labels and widget destruction
  (lines 8-95 and the packing in 121-182) are UI plumbing. A widget is
  reduced to the value it holds.
- QR encoding by `segno.make` and `qr.save` (lines 243-249, 275-277) is a
  foreign library. The rendered image enters `GeneratePreview` as its size,
  or as `None` when the encoder raises.
- PIL (`Image.open`, LANCZOS resampling, pixel-level `paste`, lines 251,
  255-259, 282) is a foreign library. The model keeps the logo's side,
  position and mask choice. `ImageTk.PhotoImage` becomes the stored image.
- Logo.Compose: does not model PIL's behaviour when the image is under three
  pixels on a side and the logo side is 0. The encoder never renders an image
  that small.
- Message boxes, the file and colour dialogs and the file writes are user
  I/O. What the dialogs return are method parameters. `SaveOutcome` says
  what would be written.
- Exceptions are not modelled as control flow. Each one that ends an
  operation without a state change becomes an error result:
  - the uncaught `ValueError` of line 231;
  - a read on a widget of another kind than the read expects. Python would
    raise on most of these, but an entry read as the Wi-Fi flag would be taken
    by its truthiness. None of them arises on the widgets the form creates;
  - the encoder raising;
  - an unreadable logo.
- `save_qr` tests the truthiness of the segno code object (line 268). In the
  model a code is present or absent.
- Strings.Lower: models `str.lower()` on ASCII letters only. It is applied
  only to the ASCII labels of line 146 and the error levels of line 59.
- App.QrGeneratorApp.SetScale: does not bound the value to the spin box
  range, because Tk accepts typed values outside it. Non-integer input, on
  which `IntVar.get` raises, is not modelled.
- The `defaultextension=".png"` of the save dialog (line 272) is dialog
  behaviour. The dialog's answer is a parameter.
- The format of the image save (line 282) is chosen by PIL from the file
  name's extension, and an unknown extension raises. `SavedImage` records the
  file name and the image; the encoding and that error are left to the
  library.
