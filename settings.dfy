/** src/settingspanel.ts: typed option cells (`SettingsOption`) and the
    insertion-ordered registry that holds them (`SettingsPanel`). The DOM
    control of an option is modelled as a tagged value. */
module Settings {
  import opened Wrappers
  import opened Sequences

  /** A JavaScript value as it crosses the settings surface (`any`). */
  datatype JsValue = JsNull | JsBool(b: bool) | JsNumber(n: real) | JsString(s: string)

  /** `SettingsOptionType`. */
  datatype OptionKind = NumberRaw | NumberKnob | Text | Boolean | Select

  function OptionKindName(k: OptionKind): string {
    match k
    case NumberRaw => "number-raw"
    case NumberKnob => "number-knob"
    case Text => "string"
    case Boolean => "boolean"
    case Select => "select"
  }

  /** The kind a type string names, if any. */
  function ParseOptionKind(s: string): (r: Option<OptionKind>)
    ensures r.Some? ==> OptionKindName(r.value) == s
  {
    if s == "number-raw" then Some(NumberRaw)
    else if s == "number-knob" then Some(NumberKnob)
    else if s == "string" then Some(Text)
    else if s == "boolean" then Some(Boolean)
    else if s == "select" then Some(Select)
    else None
  }

  /** Every kind's name parses back to that kind. */
  lemma ParseOptionKindName(k: OptionKind)
    ensures ParseOptionKind(OptionKindName(k)) == Some(k)
  {
  }

  /** The host's value conversions, which this model does not define:
      `parseFloat`, and the string an input element's `value` property turns
      any assigned value into. */
  datatype Coercions = Coercions(parseFloat: JsValue -> JsValue, toText: JsValue -> string)

  /** The state of an option's input control. */
  datatype ControlState =
    | Checkbox(checked: bool)        // <input type="checkbox">
    | KnobDial(reading: JsValue)     // the toolkit's knob
    | NumberInput(text: string)      // <input type="number">
    | TextInput(text: string)        // <input>

  /** What the settings operations can throw. */
  datatype SettingsError =
    | NotImplemented(typeName: string)   // the "select" kind
    | NotHandled(typeName: string)       // any other unknown type string
    | AlreadyAdded
    | JsonNotImplemented

  /** The kinds the option constructor can build. */
  predicate Buildable(typeName: string) {
    ParseOptionKind(typeName).Some? && ParseOptionKind(typeName).value != Select
  }

  /** The control a newly built option of each buildable kind starts with. */
  function InitialControl(k: OptionKind): ControlState
    requires k != Select
  {
    match k
    case Boolean => Checkbox(false)
    case NumberKnob => KnobDial(JsNumber(0.0))
    case NumberRaw => NumberInput("")
    case Text => TextInput("")
  }

  /** A control state belongs to an option kind. */
  predicate Fits(k: OptionKind, c: ControlState) {
    match k
    case Boolean => c.Checkbox?
    case NumberKnob => c.KnobDial?
    case NumberRaw => c.NumberInput?
    case Text => c.TextInput?
    case Select => true
  }

  /** `SettingsOptionJSON`. */
  datatype SettingsOptionJSON = SettingsOptionJSON(typeName: string)

  class SettingsOption {
    const kind: OptionKind
    var control: ControlState
    /** The label's text. */
    var name: string
    /** The element id, the key the registry looks options up by. */
    var id: string

    ghost predicate Valid()
      reads this
    {
      Fits(kind, control)
    }

    constructor Mounted(k: OptionKind, c: ControlState)
      requires Fits(k, c)
      ensures Valid() && kind == k && control == c && name == "" && id == ""
    {
      kind := k;
      control := c;
      name := "";
      id := "";
    }

    /** `new SettingsOption(type)`: "select" and unknown type strings throw. */
    static method New(typeName: string) returns (r: Result<SettingsOption, SettingsError>)
      ensures r.Success? <==> Buildable(typeName)
      ensures ParseOptionKind(typeName) == Some(Select) ==> r == Failure(NotImplemented(typeName))
      ensures ParseOptionKind(typeName).None? ==> r == Failure(NotHandled(typeName))
      ensures r.Success? ==> fresh(r.value) && r.value.Valid()
      ensures r.Success? ==> Some(r.value.kind) == ParseOptionKind(typeName)
      ensures r.Success? ==> r.value.control == InitialControl(r.value.kind)
      ensures r.Success? ==> r.value.name == "" && r.value.id == ""
    {
      var k := ParseOptionKind(typeName);
      if k.None? {
        return Failure(NotHandled(typeName));
      } else if k.value == Select {
        return Failure(NotImplemented(typeName));
      }
      var option := new SettingsOption.Mounted(k.value, InitialControl(k.value));
      r := Success(option);
    }

    /** `getName()`: the label's text. */
    function GetName(): (r: string)
      reads this
      ensures r == name
    {
      name
    }

    /** `setName(s)`: writes the label's text, which `getName` reads back. */
    method SetName(s: string)
      modifies this`name
      ensures GetName() == s
    {
      name := s;
    }

    method SetId(s: string)
      modifies this`id
      ensures id == s
    {
      id := s;
    }

    /** `getValue()`: the control's current value; the "select" kind throws. */
    function GetValue(): (r: Result<JsValue, SettingsError>)
      requires Valid()
      reads this
      ensures r.Failure? <==> kind == Select
      ensures r.Failure? ==> r.error == NotImplemented("select")
      ensures kind == Boolean ==> r == Success(JsBool(control.checked))
      ensures kind == NumberRaw || kind == Text ==> r == Success(JsString(control.text))
      ensures kind == NumberKnob ==> r == Success(control.reading)
    {
      match kind
      case Boolean => Success(JsBool(control.checked))
      case NumberKnob => Success(control.reading)
      case NumberRaw => Success(JsString(control.text))
      case Text => Success(JsString(control.text))
      case Select => Failure(NotImplemented(OptionKindName(kind)))
    }

    /** The value `getValue` reads back after `setValue(v)` on an option of
        kind `k`. */
    static function Written(k: OptionKind, v: JsValue, host: Coercions): JsValue
      requires k != Select
    {
      match k
      case Boolean => JsBool(false)
      case NumberKnob => host.parseFloat(v)
      case NumberRaw => JsString(host.toText(host.parseFloat(v)))
      case Text => JsString(host.toText(v))
    }

    /** `setValue(v)`: a boolean option stores `false` whatever `v` is, since
        the stored expression is `true ? false : v`; the knob stores
        `parseFloat(v)`, the number input the text of `parseFloat(v)`, the text
        input `v` as text; "select" throws. */
    method SetValue(v: JsValue, host: Coercions) returns (outcome: Outcome<SettingsError>)
      requires Valid()
      modifies this`control
      ensures Valid()
      ensures outcome.Fail? <==> kind == Select
      ensures outcome.Fail? ==> outcome.error == NotImplemented("select") && control == old(control)
      ensures kind == Boolean ==> control == Checkbox(false)
      ensures kind != Select ==> GetValue() == Success(Written(kind, v, host))
    {
      match kind
      case Boolean =>
        control := Checkbox(false);
        outcome := Pass;
      case NumberKnob =>
        control := KnobDial(host.parseFloat(v));
        outcome := Pass;
      case NumberRaw =>
        control := NumberInput(host.toText(host.parseFloat(v)));
        outcome := Pass;
      case Text =>
        control := TextInput(host.toText(v));
        outcome := Pass;
      case Select =>
        outcome := Fail(NotImplemented(OptionKindName(kind)));
    }

    /** The option `create` builds: a fresh option with its label text and id
        set and the default written unless it is `null`. */
    static method Build(id: string, typeName: string, name: string, defaultValue: JsValue, host: Coercions)
      returns (r: Result<SettingsOption, SettingsError>)
      ensures r.Failure? <==> !Buildable(typeName)
      ensures r.Success? ==> fresh(r.value) && r.value.Valid()
      ensures r.Success? ==> r.value.id == id && r.value.name == name
      ensures r.Success? ==> Some(r.value.kind) == ParseOptionKind(typeName)
      ensures r.Success? && defaultValue == JsNull ==> r.value.control == InitialControl(r.value.kind)
      ensures r.Success? && defaultValue != JsNull ==>
                r.value.GetValue() == Success(SettingsOption.Written(r.value.kind, defaultValue, host))
    {
      r := New(typeName);
      if r.Failure? {
        return;
      }
      var option := r.value;
      option.SetName(name);
      option.SetId(id);
      if defaultValue != JsNull {
        var written := option.SetValue(defaultValue, host);
      }
    }

    /** `SettingsOption.fromJSON(json)`: always throws; the constructor's own
        error comes first when the type string cannot be built. */
    static method FromJSON(json: SettingsOptionJSON) returns (r: Result<SettingsOption, SettingsError>)
      ensures r.Failure?
      ensures Buildable(json.typeName) ==> r.error == JsonNotImplemented
      ensures ParseOptionKind(json.typeName) == Some(Select) ==> r.error == NotImplemented(json.typeName)
      ensures ParseOptionKind(json.typeName).None? ==> r.error == NotHandled(json.typeName)
    {
      var built := New(json.typeName);
      if built.Failure? {
        return Failure(built.error);
      }
      r := Failure(JsonNotImplemented);
    }
  }

  /** The index of the first option whose id is `id`, in insertion order. */
  function FirstWithId(options: seq<SettingsOption>, id: string): (r: Option<nat>)
    reads options
    ensures r.Some? ==> r.value < |options| && options[r.value].id == id
    ensures r.Some? ==> forall j :: 0 <= j < r.value ==> options[j].id != id
    ensures r.None? ==> forall j :: 0 <= j < |options| ==> options[j].id != id
    decreases |options|
  {
    if options == [] then None
    else if options[0].id == id then Some(0)
    else match FirstWithId(options[1..], id)
      case None => None
      case Some(j) => Some(j + 1)
  }

  /** Appending an option never hides an earlier match: it is found only when
      no earlier option has the id. */
  lemma {:induction false} FirstWithIdAppend(options: seq<SettingsOption>, o: SettingsOption, id: string)
    ensures FirstWithId(options + [o], id)
            == if FirstWithId(options, id).Some? then FirstWithId(options, id)
               else if o.id == id then Some(|options|)
               else None
  {
    var extended := options + [o];
    assert forall j :: 0 <= j < |options| ==> extended[j] == options[j];
    assert extended[|options|] == o;
  }

  class SettingsPanel {
    /** The options, in insertion order (the iteration order of a JavaScript `Set`). */
    var settings: seq<SettingsOption>

    ghost predicate Valid()
      reads this, settings
    {
      Distinct(settings) && forall o :: o in settings ==> o.Valid()
    }

    constructor ()
      ensures Valid() && settings == []
    {
      settings := [];
    }

    /** `get(id)`: a scan in insertion order that stops at the first option with
        that id; `null` when there is none. */
    method Get(id: string) returns (r: Option<SettingsOption>)
      ensures r.None? <==> FirstWithId(settings, id).None?
      ensures r.Some? ==> r.value == settings[FirstWithId(settings, id).value]
      ensures r.Some? ==> r.value.id == id && r.value in settings
    {
      r := None;
      var i := 0;
      while i < |settings|
        invariant 0 <= i <= |settings|
        invariant forall j :: 0 <= j < i ==> settings[j].id != id
      {
        if settings[i].id == id {
          r := Some(settings[i]);
          break;
        }
        i := i + 1;
      }
    }

    /** `getValue(id)`: the first matching option's value, or `null` (not a
        throw) when no option has that id. */
    method GetValue(id: string) returns (r: Result<JsValue, SettingsError>)
      requires Valid()
      ensures FirstWithId(settings, id).None? ==> r == Success(JsNull)
      ensures FirstWithId(settings, id).Some? ==> r == settings[FirstWithId(settings, id).value].GetValue()
    {
      var option := Get(id);
      if option.None? {
        return Success(JsNull);
      }
      r := option.value.GetValue();
    }

    /** `has(option)`: membership by object identity. A registered option's
        id is always found by `get`, though possibly on an earlier option. */
    predicate Has(option: SettingsOption)
      reads this, settings
      ensures Has(option) ==> FirstWithId(settings, option.id).Some?
    {
      option in settings
    }

    /** `add(option)`: the same object twice throws and changes nothing; an
        option with an id already present is still added. */
    method Add(option: SettingsOption) returns (outcome: Outcome<SettingsError>)
      requires Valid() && option.Valid()
      modifies this`settings
      ensures Valid()
      ensures outcome.Fail? <==> old(Has(option))
      ensures outcome.Fail? ==> outcome.error == AlreadyAdded && settings == old(settings)
      ensures outcome.Pass? ==> settings == old(settings) + [option]
    {
      if Has(option) {
        return Fail(AlreadyAdded);
      }
      settings := settings + [option];
      outcome := Pass;
    }

    /** `create(id, type, name, default)`: builds a new option, gives it its
        label and id, writes the default unless it is `null`, and adds it. It
        throws only for a type the option constructor cannot build; a repeated
        id is accepted and the earlier option keeps answering `get`. */
    method Create(id: string, typeName: string, name: string, defaultValue: JsValue, host: Coercions)
      returns (r: Result<SettingsOption, SettingsError>)
      requires Valid()
      modifies this`settings
      ensures Valid()
      ensures r.Failure? <==> !Buildable(typeName)
      ensures r.Failure? ==> settings == old(settings)
      ensures r.Success? ==> fresh(r.value) && settings == old(settings) + [r.value]
      ensures r.Success? ==> r.value.id == id && r.value.name == name
      ensures r.Success? ==> Some(r.value.kind) == ParseOptionKind(typeName)
      ensures r.Success? && defaultValue == JsNull ==> r.value.control == InitialControl(r.value.kind)
      ensures r.Success? && defaultValue != JsNull ==>
                r.value.GetValue() == Success(SettingsOption.Written(r.value.kind, defaultValue, host))
      ensures r.Success? ==>
                FirstWithId(settings, id) == if old(FirstWithId(settings, id)).Some? then old(FirstWithId(settings, id))
                                             else Some(|old(settings)|)
    {
      r := SettingsOption.Build(id, typeName, name, defaultValue, host);
      if r.Failure? {
        return;
      }
      FirstWithIdAppend(settings, r.value, id);
      var added := Add(r.value);
    }
  }
}
