/** `QRGeneratorApp`: the state the window keeps between button presses and
    how "Generate Preview", "Save QR Code", "Reset" and the option widgets
    change it. The QR encoder, the image library and the dialogs are outside
    the model: what they return is passed in as a parameter. */
module App {
  import opened Results
  import opened Strings
  import opened Formatter
  import opened Form
  import opened Logo

  /** What `segno.make(data, error=error)` returns, reduced to its arguments. */
  datatype QrCode = QrCode(payload: string, error: string)

  /** The rendering options `qr.save` is given: scale, border and the three colours. */
  datatype Options = Options(scale: int, border: int, dark: string, light: string, quietZone: string)

  /** Why "Generate Preview" leaves the state as it was: `get_data` gave no
      payload, the encoder raised, or the logo file could not be opened. */
  datatype PreviewError = NoPayload(reason: DataError) | EncodingFailed | LogoUnreadable

  /** What "Save QR Code" does: refuse before a code is generated, nothing
      when the dialog is cancelled, write the code as SVG with the options
      current at saving (and tell that a set logo is left out), or write the
      stored image in the format the file name's extension selects. */
  datatype SaveOutcome =
    | NotGenerated
    | Cancelled
    | SavedSvg(file: string, code: QrCode, options: Options, logoNotice: bool)
    | SavedImage(file: string, image: Image)

  /** The three colour buttons. */
  datatype ColorTarget = Dark | Light | QuietZone

  /** The values of the read-only error-correction combobox. */
  const ErrorLevels: seq<string> := ["L", "M", "Q", "H"]

  class QrGeneratorApp {
    var qrType: string
    var errorLevel: string
    var scale: int
    var border: int
    var darkColor: string
    var lightColor: string
    var quietZoneColor: string
    var logoPath: string
    var previewImage: Option<Image>
    var qrData: Option<QrCode>
    var qrImg: Option<Image>
    var currentInputs: Inputs

    /** The widgets are those of the selected type, and a preview is shown
        exactly when a code is stored, next to the image it was drawn from. */
    predicate Valid()
      reads this
    {
      && Conforms(currentInputs, TypeOf(qrType))
      && (previewImage.Some? <==> qrData.Some?)
      && (qrData.Some? ==> qrImg.Some? && previewImage == qrImg && qrData.value.payload != "")
    }

    /** `get_data` on the current widgets. */
    function GetData(): (r: Result<string, DataError>)
      reads this
      requires Valid()
      ensures r.Failure? ==> r.error == NoData
      ensures r.Success? ==> r.value != ""
    {
      ConformingGetDataError(TypeOf(qrType), currentInputs);
      Form.GetData(TypeOf(qrType), currentInputs)
    }

    function CurrentOptions(): Options
      reads this
    {
      Options(scale, border, darkColor, lightColor, quietZoneColor)
    }

    /** The variables of `__init__` with their initial values, then the
        first `update_input_fields`. */
    constructor ()
      ensures Valid()
      ensures qrType == "Plain Text" && errorLevel == "M" && scale == 5 && border == 4
      ensures darkColor == "#000000" && lightColor == "#FFFFFF" && quietZoneColor == "#FFFFFF"
      ensures logoPath == "" && previewImage == None && qrData == None && qrImg == None
      ensures currentInputs == Layout(PlainTextType)
    {
      qrType := "Plain Text";
      errorLevel := "M";
      scale := 5;
      border := 4;
      darkColor := "#000000";
      lightColor := "#FFFFFF";
      quietZoneColor := "#FFFFFF";
      logoPath := "";
      previewImage := None;
      qrData := None;
      qrImg := None;
      currentInputs := map[];
      new;
      UpdateInputFields();
    }

    /** Clears the widgets and creates those of the selected type. */
    method UpdateInputFields()
      modifies this`currentInputs
      ensures currentInputs == Layout(TypeOf(qrType))
    {
      currentInputs := map[];
      match TypeOf(qrType)
      case PlainTextType => CreateTextInput();
      case UrlType => CreateUrlInput();
      case WifiType => CreateWifiInput();
      case VCardType =>
        CreateVcardInput();
        assert map[] + LabelledEntries(VCardLabels) == LabelledEntries(VCardLabels);
      case EmailType => CreateEmailInput();
      case GeoType => CreateGeoInput();
      case PhoneType => CreatePhoneInput();
      case SmsType => CreateSmsInput();
      case OtherType(_) =>
    }

    method CreateTextInput()
      modifies this`currentInputs
      ensures currentInputs == old(currentInputs)["text" := TextBox("")]
    {
      currentInputs := currentInputs["text" := TextBox("")];
    }

    method CreateUrlInput()
      modifies this`currentInputs
      ensures currentInputs == old(currentInputs)["url" := Entry("")]
    {
      currentInputs := currentInputs["url" := Entry("")];
    }

    method CreateWifiInput()
      modifies this`currentInputs
      ensures currentInputs == old(currentInputs)["ssid" := Entry("")]["password" := Entry("")]
        ["security" := Combo("WPA", SecurityTypes)]["hidden" := Toggle(false)]
    {
      currentInputs := currentInputs["ssid" := Entry("")];
      currentInputs := currentInputs["password" := Entry("")];
      currentInputs := currentInputs["security" := Combo("WPA", SecurityTypes)];
      currentInputs := currentInputs["hidden" := Toggle(false)];
    }

    /** One entry per label, stored under the label in lower case. */
    method CreateVcardInput()
      modifies this`currentInputs
      ensures currentInputs == old(currentInputs) + LabelledEntries(VCardLabels)
    {
      var fields := VCardLabels;
      for i := 0 to |fields|
        invariant currentInputs == old(currentInputs) + LabelledEntries(fields[..i])
      {
        assert fields[..i + 1] == fields[..i] + [fields[i]];
        LabelledEntriesSnoc(fields[..i], fields[i]);
        currentInputs := currentInputs[Lower(fields[i]) := Entry("")];
      }
      assert fields[..|fields|] == fields;
    }

    method CreateEmailInput()
      modifies this`currentInputs
      ensures currentInputs == old(currentInputs)["email" := Entry("")]["subject" := Entry("")]["body" := TextBox("")]
    {
      currentInputs := currentInputs["email" := Entry("")];
      currentInputs := currentInputs["subject" := Entry("")];
      currentInputs := currentInputs["body" := TextBox("")];
    }

    method CreateGeoInput()
      modifies this`currentInputs
      ensures currentInputs == old(currentInputs)["lat" := Entry("")]["lon" := Entry("")]
    {
      currentInputs := currentInputs["lat" := Entry("")];
      currentInputs := currentInputs["lon" := Entry("")];
    }

    method CreatePhoneInput()
      modifies this`currentInputs
      ensures currentInputs == old(currentInputs)["phone" := Entry("")]
    {
      currentInputs := currentInputs["phone" := Entry("")];
    }

    method CreateSmsInput()
      modifies this`currentInputs
      ensures currentInputs == old(currentInputs)["phone" := Entry("")]["message" := TextBox("")]
    {
      currentInputs := currentInputs["phone" := Entry("")];
      currentInputs := currentInputs["message" := TextBox("")];
    }

    /** Picking a type in the type combobox, which fires `update_input_fields`. */
    method SelectType(name: string)
      requires Valid() && name in QrTypes
      modifies this`qrType, this`currentInputs
      ensures Valid()
      ensures qrType == name && currentInputs == Layout(TypeOf(name))
    {
      qrType := name;
      UpdateInputFields();
    }

    /** The user types into a widget, picks a combobox value or ticks the
        check button. */
    method Edit(key: string, w: Widget)
      requires Valid() && key in currentInputs && CanBecome(currentInputs[key], w)
      modifies this`currentInputs
      ensures Valid()
      ensures currentInputs == old(currentInputs)[key := w]
    {
      currentInputs := currentInputs[key := w];
    }

    method SetErrorLevel(level: string)
      requires level in ErrorLevels
      modifies this`errorLevel
      ensures errorLevel == level
    {
      errorLevel := level;
    }

    /** The scale and border spin boxes. Tk lets a value outside their ranges
        be typed in, so any integer can arrive here. */
    method SetScale(n: int)
      modifies this`scale
      ensures scale == n
    {
      scale := n;
    }

    method SetBorder(n: int)
      modifies this`border
      ensures border == n
    {
      border := n;
    }

    /** `choose_color`: `picked` is what the colour dialog returned, `None`
        when it was cancelled; only a non-empty colour is stored. */
    method ChooseColor(target: ColorTarget, picked: Option<string>)
      modifies this`darkColor, this`lightColor, this`quietZoneColor
      ensures var chosen := picked.Some? && picked.value != "";
        && darkColor == (if chosen && target == Dark then picked.value else old(darkColor))
        && lightColor == (if chosen && target == Light then picked.value else old(lightColor))
        && quietZoneColor == (if chosen && target == QuietZone then picked.value else old(quietZoneColor))
    {
      if picked.Some? && picked.value != "" {
        match target
        case Dark => darkColor := picked.value;
        case Light => lightColor := picked.value;
        case QuietZone => quietZoneColor := picked.value;
      }
    }

    /** `select_logo`: `path` is what the file dialog returned, "" when it
        was cancelled; a cancelled dialog keeps the previous logo. */
    method SelectLogo(path: string)
      modifies this`logoPath
      ensures logoPath == if path != "" then path else old(logoPath)
    {
      if path != "" {
        logoPath := path;
      }
    }

    /** `generate_preview`. `rendered` is the size of the PNG the encoder
        draws for the payload, `None` when it raises; `logoMode` is the mode
        of the image at the logo path, `None` when it cannot be opened. The
        state changes only once the payload, the code and the image all exist. */
    method GeneratePreview(rendered: Option<Size>, logoMode: Option<string>) returns (r: Result<QrCode, PreviewError>)
      requires Valid()
      modifies this`previewImage, this`qrData, this`qrImg
      ensures Valid()
      ensures old(GetData()).Failure? ==> r == Failure(NoPayload(old(GetData()).error))
      ensures old(GetData()).Success? && rendered.None? ==> r == Failure(EncodingFailed)
      ensures old(GetData()).Success? && rendered.Some? && logoPath != "" && logoMode.None? ==>
        r == Failure(LogoUnreadable)
      ensures old(GetData()).Success? && rendered.Some? && (logoPath == "" || logoMode.Some?) ==> r.Success?
      ensures r.Failure? ==> previewImage == old(previewImage) && qrData == old(qrData) && qrImg == old(qrImg)
      ensures r.Success? ==>
        && old(GetData()).Success? && rendered.Some?
        && r.value == QrCode(old(GetData()).value, Lower(errorLevel))
        && qrData == Some(r.value)
        && qrImg == Some(Compose(rendered.value, if logoPath != "" then logoMode else None))
        && previewImage == qrImg
    {
      var data := GetData();
      if data.Failure? {
        return Failure(NoPayload(data.error));
      }
      var code := QrCode(data.value, Lower(errorLevel));
      if rendered.None? {
        return Failure(EncodingFailed);
      }
      var mode: Option<string> := None;
      if logoPath != "" {
        if logoMode.None? {
          return Failure(LogoUnreadable);
        }
        mode := logoMode;
      }
      var img := Compose(rendered.value, mode);
      Commit(code, img);
      return Success(code);
    }

    /** The last lines of `generate_preview`: the image is shown and kept,
        and the code is kept for saving. */
    method Commit(code: QrCode, img: Image)
      requires Valid() && code.payload != ""
      modifies this`previewImage, this`qrData, this`qrImg
      ensures Valid()
      ensures previewImage == Some(img) && qrData == Some(code) && qrImg == Some(img)
    {
      previewImage := Some(img);
      qrData := Some(code);
      qrImg := Some(img);
    }

    /** `save_qr`. `file` is what the save dialog returned, "" when it was
        cancelled; the dialog is opened only once a code exists. */
    method SaveQr(file: string) returns (o: SaveOutcome)
      requires Valid()
      ensures qrData.None? ==> o == NotGenerated
      ensures qrData.Some? && file == "" ==> o == Cancelled
      ensures qrData.Some? && file != "" && EndsWith(file, ".svg") ==>
        o == SavedSvg(file, qrData.value, CurrentOptions(), logoPath != "")
      ensures qrData.Some? && file != "" && !EndsWith(file, ".svg") ==> o == SavedImage(file, qrImg.value)
    {
      if qrData.None? {
        return NotGenerated;
      }
      if file == "" {
        return Cancelled;
      }
      if EndsWith(file, ".svg") {
        o := SavedSvg(file, qrData.value, CurrentOptions(), logoPath != "");
      } else {
        o := SavedImage(file, qrImg.value);
      }
    }

    /** `reset`: the preview, the stored code and the logo path are cleared;
        the type, the widgets, the options and the stored image are kept. */
    method Reset()
      requires Valid()
      modifies this`previewImage, this`qrData, this`logoPath
      ensures Valid()
      ensures previewImage == None && qrData == None && logoPath == ""
      ensures qrType == old(qrType) && currentInputs == old(currentInputs) && qrImg == old(qrImg)
      ensures errorLevel == old(errorLevel) && scale == old(scale) && border == old(border)
      ensures CurrentOptions() == old(CurrentOptions())
    {
      previewImage := None;
      qrData := None;
      logoPath := "";
    }
  }
}
