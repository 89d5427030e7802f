/**
 * pydeck/button.py: a deck button. Construction stores the label template
 * and the action as given and fills each unset or empty style argument from
 * the style defaults; `as_dict` projects the four display fields; `format`
 * expands the label template in place and `formatted` returns the
 * expansion without touching the button.
 */
module Button {
  import opened PyTypes
  import opened PyFormat

  /** `defaults["button"]`: the style a button falls back to. */
  datatype StyleDefaults = StyleDefaults(align: string, font: string, size: string)

  /**
   * The names the statements of `pydeck/config.py` bind at module level:
   * its imports, its settings and the paths of the files it reads. The
   * module's own dunder attributes are left aside.
   */
  const ConfigNames: set<string> :=
    {"__all__", "json", "pathlib", "shutil", "Any", "PATH", "_DEFAULT_CONFIG_FILE", "_CONFIG_FILE",
     "_DEFAULTS_FILE", "f", "DEFAULT_CONFIG", "CONFIG", "DEFAULTS"}

  /** `from pydeck.config import name`: the name when the module binds it, otherwise ImportError. */
  function ImportFromConfig(name: string): (r: Result<string>)
    ensures r.Ok? <==> name in ConfigNames
    ensures r.Ok? ==> r.value == name
    ensures r.Err? ==> r.error == ImportFailed("pydeck.config")
  {
    if name in ConfigNames then Ok(name) else Err(ImportFailed("pydeck.config"))
  }

  /** As written, `button.py` imports `defaults`, which `config.py` does not bind: importing the module raises ImportError. */
  lemma ImportAsWritten()
    ensures ImportFromConfig("defaults").Err?
  {
    assert "defaults" !in ConfigNames;
  }

  /** The intended `DEFAULTS`, whose `"button"` entry `StyleDefaults` stands for, is bound. */
  lemma ImportCorrected()
    ensures ImportFromConfig("DEFAULTS") == Ok("DEFAULTS")
  {
  }

  /** Python's `arg or default` for an optional string: None and "" are falsy. */
  function Or(arg: Option<string>, default: string): string
  {
    if arg.Some? && arg.value != "" then arg.value else default
  }

  /** The fields of a button, as a value. */
  datatype ButtonData = ButtonData(
    text: string,
    textAlign: string,
    fontFamily: string,
    fontSize: string,
    action: Option<string>,
    actionArgs: map<string, Value>)
  {
    /**
     * `as_dict()`: exactly the label and the three style fields; the action
     * and its arguments are not part of it.
     */
    function AsDict(): (d: map<string, string>)
      ensures d.Keys == {"text", "text_align", "font_family", "font_size"}
      ensures d["text"] == text && d["text_align"] == textAlign
      ensures d["font_family"] == fontFamily && d["font_size"] == fontSize
      ensures "action" !in d && "action_args" !in d
    {
      map["text" := text, "text_align" := textAlign, "font_family" := fontFamily, "font_size" := fontSize]
    }
  }

  /**
   * `Button(text, text_align, font_family, font_size, action, action_args)`
   * as a value: the text and action verbatim, each style the argument when
   * it is truthy and the default otherwise, and the action arguments the
   * given map or the empty one.
   */
  function Construct(text: string, textAlign: Option<string>, fontFamily: Option<string>, fontSize: Option<string>,
                     action: Option<string>, actionArgs: Option<map<string, Value>>, defaults: StyleDefaults): (b: ButtonData)
    ensures b.text == text && b.action == action
    ensures textAlign.Some? && textAlign.value != "" ==> b.textAlign == textAlign.value
    ensures textAlign.None? || textAlign.value == "" ==> b.textAlign == defaults.align
    ensures fontFamily.Some? && fontFamily.value != "" ==> b.fontFamily == fontFamily.value
    ensures fontFamily.None? || fontFamily.value == "" ==> b.fontFamily == defaults.font
    ensures fontSize.Some? && fontSize.value != "" ==> b.fontSize == fontSize.value
    ensures fontSize.None? || fontSize.value == "" ==> b.fontSize == defaults.size
    ensures b.actionArgs == if actionArgs.Some? then actionArgs.value else map[]
  {
    ButtonData(text, Or(textAlign, defaults.align), Or(fontFamily, defaults.font), Or(fontSize, defaults.size),
               action, if actionArgs.Some? && actionArgs.value != map[] then actionArgs.value else map[])
  }

  /** A button with only its label given, like `DeckButton("...")`. */
  function Labelled(text: string, defaults: StyleDefaults): ButtonData
  {
    Construct(text, None, None, None, None, None, defaults)
  }

  class Button {
    var text: string
    var textAlign: string
    var fontFamily: string
    var fontSize: string
    var action: Option<string>
    var actionArgs: map<string, Value>

    function Data(): ButtonData
      reads this
    {
      ButtonData(text, textAlign, fontFamily, fontSize, action, actionArgs)
    }

    /** `Button(...)` */
    constructor(text: string, textAlign: Option<string>, fontFamily: Option<string>, fontSize: Option<string>,
                action: Option<string>, actionArgs: Option<map<string, Value>>, defaults: StyleDefaults)
      ensures Data() == Construct(text, textAlign, fontFamily, fontSize, action, actionArgs, defaults)
    {
      this.text := text;
      this.textAlign := Or(textAlign, defaults.align);
      this.fontFamily := Or(fontFamily, defaults.font);
      this.fontSize := Or(fontSize, defaults.size);
      this.action := action;
      this.actionArgs := if actionArgs.Some? && actionArgs.value != map[] then actionArgs.value else map[];
    }

    /** A new button object holding the given fields: one object of `copy.deepcopy`. */
    constructor FromData(d: ButtonData)
      ensures Data() == d
    {
      text := d.text;
      textAlign := d.textAlign;
      fontFamily := d.fontFamily;
      fontSize := d.fontSize;
      action := d.action;
      actionArgs := d.actionArgs;
    }

    /**
     * `formatted(**kw)`: the expansion of the label template, read-only. A
     * label without braces expands to itself, and a KeyError names a
     * placeholder that `kw` lacks.
     */
    function Formatted(kw: map<string, Value>): (r: Result<string>)
      reads this
      ensures NoBraces(text) ==> r == Ok(text)
      ensures r.Err? && r.error.KeyError? ==> r.error.key !in kw
    {
      var r := PyFormat.Format(text, kw);
      if NoBraces(text) then
        FormatNoBraces(text, kw); r
      else if r.Err? && r.error.KeyError? then
        FormatKeyErrorIsMissing(text, kw); r
      else
        r
    }

    /**
     * `format(**kw)`: on success the label becomes what `formatted(**kw)`
     * returned beforehand; on failure the label is untouched. No other
     * field ever changes.
     */
    method Format(kw: map<string, Value>) returns (r: Result<()>)
      modifies this
      ensures r.Ok? <==> old(Formatted(kw)).Ok?
      ensures r.Ok? ==> text == old(Formatted(kw)).value
      ensures r.Err? ==> text == old(text) && r.error == old(Formatted(kw)).error
      ensures Data() == old(Data()).(text := text)
    {
      var expanded := PyFormat.Format(text, kw);
      if expanded.Err? {
        return Err(expanded.error);
      }
      text := expanded.value;
      r := Ok(());
    }
  }
}
