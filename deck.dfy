/**
 * pydeck/pydeck.py without its threads and web server: the deck's button
 * definitions, the base grid of position labels, the rendered copies built
 * by `update()`, click dispatch, and the data behind `/api/buttons` and
 * `/api/event`.
 */
module Deck {
  import opened PyTypes
  import opened PyStr
  import opened PyDict
  import opened PyFormat
  import opened Utils
  import opened Plugin
  import opened PluginRegistry
  import opened Button

  /** A grid position `(row, column)`. */
  type ButtonId = (int, int)

  // ------------------------------------------------------- definitions

  /** `f"{x}:{y}"`: a position written the way the web client sends it back. */
  function IdText(id: ButtonId): string
  {
    Display(Int(id.0)) + ":" + Display(Int(id.1))
  }

  /** The definitions `Deck.__init__` installs, in its order. */
  function InitialButtons(defaults: StyleDefaults): Dict<ButtonId, ButtonData>
  {
    [((0, 0), Labelled("Button 1\n{media_control_title}", defaults)),
     ((1, 1), Labelled("Button 2\n{media_control_artist}", defaults)),
     ((2, 4), Labelled("Button 3\n{media_control_artist}", defaults)),
     ((2, 2), Labelled("time: {builtin_time}", defaults)),
     ((2, 3), Construct("pause", None, None, None, Some("media_control_toggle_pause"), None, defaults))]
  }

  lemma InitialButtonsUnique(defaults: StyleDefaults)
    ensures UniqueKeys(InitialButtons(defaults))
  {
  }

  /** Row `x` of `product(range(rows), range(cols))`: `(x, 0)` .. `(x, cols - 1)`. */
  function RowPositions(x: nat, cols: nat): seq<ButtonId>
  {
    seq(cols, y requires 0 <= y < cols => (x, y))
  }

  /** `product(range(rows), range(cols))`, row by row. */
  function Positions(rows: nat, cols: nat): seq<ButtonId>
    decreases rows
  {
    if rows == 0 then [] else Positions(rows - 1, cols) + RowPositions(rows - 1, cols)
  }

  /** One button per position, labelled with the position, default style and no action. */
  function LabelAll(ps: seq<ButtonId>, defaults: StyleDefaults): (d: Dict<ButtonId, ButtonData>)
    ensures Keys(d) == ps
    ensures forall i :: 0 <= i < |d| ==> d[i].1 == Labelled(IdText(d[i].0), defaults)
  {
    seq(|ps|, i requires 0 <= i < |ps| => (ps[i], Labelled(IdText(ps[i]), defaults)))
  }

  /** `buttons_base`: one labelled button per position of `product(range(rows), range(cols))`. */
  function BaseGrid(rows: nat, cols: nat, defaults: StyleDefaults): Dict<ButtonId, ButtonData>
  {
    LabelAll(Positions(rows, cols), defaults)
  }

  /** Row-major order on positions, the order `product` yields them in. */
  predicate Before(a: ButtonId, b: ButtonId)
  {
    a.0 < b.0 || (a.0 == b.0 && a.1 < b.1)
  }

  lemma MulSucc(a: nat, b: nat)
    ensures (a + 1) * b == a * b + b
  {
  }

  lemma {:induction false} PositionsLength(rows: nat, cols: nat)
    ensures |Positions(rows, cols)| == rows * cols
    decreases rows
  {
    if rows > 0 {
      PositionsLength(rows - 1, cols);
      MulSucc(rows - 1, cols);
    }
  }

  lemma {:induction false} PositionsMembers(rows: nat, cols: nat)
    ensures forall id :: id in Positions(rows, cols) <==> 0 <= id.0 < rows && 0 <= id.1 < cols
    decreases rows
  {
    if rows > 0 {
      PositionsMembers(rows - 1, cols);
      var row := RowPositions(rows - 1, cols);
      forall id: ButtonId
        ensures id in row <==> id.0 == rows - 1 && 0 <= id.1 < cols
      {
        if id.0 == rows - 1 && 0 <= id.1 < cols {
          assert row[id.1] == id;
        }
      }
    }
  }

  /** Every position lies in one of the first `rows` rows. */
  lemma {:induction false} PositionsRows(rows: nat, cols: nat)
    ensures forall i :: 0 <= i < |Positions(rows, cols)| ==> Positions(rows, cols)[i].0 < rows
    decreases rows
  {
    if rows > 0 {
      PositionsRows(rows - 1, cols);
    }
  }

  /** Appending a row-major run of row `x` to a row-major run of earlier rows keeps row-major order. */
  lemma OrderedConcat(a: seq<ButtonId>, b: seq<ButtonId>, x: int)
    requires forall i, j :: 0 <= i < j < |a| ==> Before(a[i], a[j])
    requires forall i, j :: 0 <= i < j < |b| ==> Before(b[i], b[j])
    requires forall i :: 0 <= i < |a| ==> a[i].0 < x
    requires forall j :: 0 <= j < |b| ==> b[j].0 == x
    ensures forall i, j :: 0 <= i < j < |a + b| ==> Before((a + b)[i], (a + b)[j])
  {
    forall i, j | 0 <= i < j < |a + b|
      ensures Before((a + b)[i], (a + b)[j])
    {
      if j < |a| {
        assert (a + b)[i] == a[i] && (a + b)[j] == a[j];
      } else if |a| <= i {
        assert (a + b)[i] == b[i - |a|] && (a + b)[j] == b[j - |a|];
      } else {
        assert (a + b)[i] == a[i] && (a + b)[j] == b[j - |a|];
      }
    }
  }

  lemma {:induction false} PositionsOrder(rows: nat, cols: nat)
    ensures forall i, j :: 0 <= i < j < |Positions(rows, cols)| ==> Before(Positions(rows, cols)[i], Positions(rows, cols)[j])
    decreases rows
  {
    if rows > 0 {
      PositionsOrder(rows - 1, cols);
      PositionsRows(rows - 1, cols);
      OrderedConcat(Positions(rows - 1, cols), RowPositions(rows - 1, cols), rows - 1);
    }
  }

  /**
   * The base grid holds exactly the positions `(x, y)` with `0 <= x < rows`
   * and `0 <= y < cols`, once each, in row-major order, each labelled
   * `f"{x}:{y}"` with default style and no action.
   */
  lemma BaseGridExact(rows: nat, cols: nat, defaults: StyleDefaults)
    ensures |BaseGrid(rows, cols, defaults)| == rows * cols
    ensures forall id :: id in Keys(BaseGrid(rows, cols, defaults)) <==> 0 <= id.0 < rows && 0 <= id.1 < cols
    ensures forall i :: 0 <= i < |BaseGrid(rows, cols, defaults)| ==>
      BaseGrid(rows, cols, defaults)[i].1 == Labelled(IdText(BaseGrid(rows, cols, defaults)[i].0), defaults)
    ensures forall i, j :: 0 <= i < j < |BaseGrid(rows, cols, defaults)| ==>
      Before(BaseGrid(rows, cols, defaults)[i].0, BaseGrid(rows, cols, defaults)[j].0)
    ensures UniqueKeys(BaseGrid(rows, cols, defaults))
  {
    var g := BaseGrid(rows, cols, defaults);
    var ps := Positions(rows, cols);
    PositionsLength(rows, cols);
    PositionsMembers(rows, cols);
    PositionsOrder(rows, cols);
    assert forall i :: 0 <= i < |g| ==> g[i].0 == ps[i];
    assert forall i, j :: 0 <= i < |g| && 0 <= j < |g| && i != j ==> Before(ps[i], ps[j]) || Before(ps[j], ps[i]);
  }

  // ----------------------------------------------------------- objects

  function Objects(bs: Dict<ButtonId, Button>): set<Button>
  {
    set i | 0 <= i < |bs| :: bs[i].1
  }

  /** No button object appears under two positions. */
  predicate Distinct(bs: Dict<ButtonId, Button>)
  {
    forall i, j :: 0 <= i < |bs| && 0 <= j < |bs| && i != j ==> bs[i].1 != bs[j].1
  }

  /** The fields of every button in a dict of button objects, position by position. */
  function Snapshot(bs: Dict<ButtonId, Button>): (d: Dict<ButtonId, ButtonData>)
    reads Objects(bs)
    ensures |d| == |bs| && Keys(d) == Keys(bs)
  {
    seq(|bs|, i requires 0 <= i < |bs| reads Objects(bs) => (bs[i].0, bs[i].1.Data()))
  }

  /** New, distinct button objects holding the given fields: `copy.deepcopy` of a dict of distinct buttons. */
  method Build(data: Dict<ButtonId, ButtonData>) returns (bs: Dict<ButtonId, Button>)
    ensures Snapshot(bs) == data
    ensures Distinct(bs) && forall i :: 0 <= i < |bs| ==> fresh(bs[i].1)
  {
    bs := [];
    var i := 0;
    while i < |data|
      invariant 0 <= i <= |data| && |bs| == i
      invariant forall j :: 0 <= j < i ==> bs[j].0 == data[j].0 && bs[j].1.Data() == data[j].1 && fresh(bs[j].1)
      invariant Distinct(bs)
    {
      var b := new Button.FromData(data[i].1);
      bs := bs + [(data[i].0, b)];
      i := i + 1;
    }
  }

  // ------------------------------------------------------------ update

  /** The position of the first definition whose label fails to expand under `kw`, or `|defs|` when none does. */
  function FirstFailure(defs: Dict<ButtonId, ButtonData>, kw: map<string, Value>): (f: nat)
    ensures f <= |defs|
    ensures forall j :: 0 <= j < f ==> Format(defs[j].1.text, kw).Ok?
    ensures f < |defs| ==> Format(defs[f].1.text, kw).Err?
    decreases |defs|
  {
    if defs == [] then 0
    else if Format(defs[0].1.text, kw).Err? then 0
    else
      var rest := defs[1..];
      assert forall j :: 0 <= j < |rest| ==> rest[j] == defs[j + 1];
      1 + FirstFailure(rest, kw)
  }

  /** A button whose label has been expanded by `format(**kw)`: unchanged when the expansion fails. */
  function Expanded(d: ButtonData, kw: map<string, Value>): ButtonData
  {
    var r := Format(d.text, kw);
    if r.Ok? then d.(text := r.value) else d
  }

  /**
   * `buttons_rendered` after `update()`: the copies in order, formatted up
   * to the first label that fails, and left raw from that one on.
   */
  function Rendered(defs: Dict<ButtonId, ButtonData>, kw: map<string, Value>): Dict<ButtonId, ButtonData>
  {
    var f := FirstFailure(defs, kw);
    seq(|defs|, j requires 0 <= j < |defs| =>
      if j < f then (defs[j].0, Expanded(defs[j].1, kw)) else defs[j])
  }

  /** How `update()` ends: normally, or with the exception of the first label that fails. */
  function RenderResult(defs: Dict<ButtonId, ButtonData>, kw: map<string, Value>): Result<()>
  {
    var f := FirstFailure(defs, kw);
    if f == |defs| then Ok(()) else Err(Format(defs[f].1.text, kw).error)
  }

  /**
   * The rendered dict has exactly the definitions' positions in their
   * order; `update()` ends normally exactly when every label expands, and
   * then every rendered label is the expansion of its definition's label
   * with all other fields copied.
   */
  lemma RenderedShape(defs: Dict<ButtonId, ButtonData>, kw: map<string, Value>)
    ensures Keys(Rendered(defs, kw)) == Keys(defs)
    ensures RenderResult(defs, kw).Ok? <==> forall j :: 0 <= j < |defs| ==> Format(defs[j].1.text, kw).Ok?
    ensures RenderResult(defs, kw).Ok? ==> forall j :: 0 <= j < |defs| ==>
      Rendered(defs, kw)[j].1 == defs[j].1.(text := Format(defs[j].1.text, kw).value)
  {
    assert Keys(Rendered(defs, kw)) == Keys(defs);
  }

  /**
   * When a label fails, `update()` raises that label's exception; the
   * buttons before it are rendered, it and every later one stay raw. A
   * KeyError names a placeholder missing from `kw`.
   */
  lemma RenderFailure(defs: Dict<ButtonId, ButtonData>, kw: map<string, Value>)
    requires RenderResult(defs, kw).Err?
    ensures exists f :: (0 <= f < |defs| && Format(defs[f].1.text, kw) == Err(RenderResult(defs, kw).error) &&
      (forall j :: 0 <= j < f ==> (Format(defs[j].1.text, kw).Ok? &&
        Rendered(defs, kw)[j].1 == defs[j].1.(text := Format(defs[j].1.text, kw).value))) &&
      (forall j :: f <= j < |defs| ==> Rendered(defs, kw)[j] == defs[j]))
    ensures RenderResult(defs, kw).error.KeyError? ==> RenderResult(defs, kw).error.key !in kw
  {
    var f := FirstFailure(defs, kw);
    if Format(defs[f].1.text, kw).error.KeyError? {
      FormatKeyErrorIsMissing(defs[f].1.text, kw);
    }
  }

  /** A template is "Literal{name}" with the placeholder at its end. */
  lemma FormatTrailingField(literal: string, name: string, kw: map<string, Value>)
    requires NoBraces(literal) && NoBraces(name) && IsKeywordField(name) && name !in kw
    ensures Format(literal + "{" + name + "}", kw) == Err(KeyError(name))
  {
    assert literal + "{" + name + "}" == literal + ("{" + name + "}" + "");
    FormatLiteralPrefix(literal, "{" + name + "}" + "", kw);
    FormatField(name, "", kw);
  }

  /**
   * The deck as shipped can never render: its first label asks for
   * `media_control_title`, with a single underscore, while every variable
   * the registry publishes has `__` in its key. So whatever the plugins
   * publish, `update()` raises KeyError("media_control_title") at the
   * first button and every rendered button keeps its raw label.
   */
  lemma InitialUpdateFails(defaults: StyleDefaults, kw: map<string, Value>)
    requires forall k :: k in kw ==> Contains(k, PLUGIN_SEP)
    ensures RenderResult(InitialButtons(defaults), kw) == Err(KeyError("media_control_title"))
    ensures Rendered(InitialButtons(defaults), kw) == InitialButtons(defaults)
  {
    var defs := InitialButtons(defaults);
    FirstLabelFails(kw);
    assert defs[0].1.text == "Button 1\n{media_control_title}";
    assert FirstFailure(defs, kw) == 0;
  }

  lemma FirstLabelFails(kw: map<string, Value>)
    requires forall k :: k in kw ==> Contains(k, PLUGIN_SEP)
    ensures Format("Button 1\n{media_control_title}", kw) == Err(KeyError("media_control_title"))
  {
    TitleIsKeyword();
    TitleNotPublished(kw);
    FormatTrailingField("Button 1\n", "media_control_title", kw);
    FirstLabelSplits();
  }

  lemma FirstLabelSplits()
    ensures "Button 1\n{media_control_title}" == "Button 1\n" + "{" + "media_control_title" + "}"
  {
  }

  lemma TitleIsKeyword()
    ensures NoBraces("media_control_title") && IsKeywordField("media_control_title")
  {
    LowerSnakeIsKeyword("media_control_title");
  }

  /** A lower-case snake_case name is a plain keyword field. */
  lemma LowerSnakeIsKeyword(name: string)
    requires name != [] && forall i :: 0 <= i < |name| ==> 'a' <= name[i] <= 'z' || name[i] == '_'
    ensures NoBraces(name) && IsKeywordField(name)
  {
    assert !IsDigit(name[0]);
  }

  lemma TitleNotPublished(kw: map<string, Value>)
    requires forall k :: k in kw ==> Contains(k, PLUGIN_SEP)
    ensures "media_control_title" !in kw
  {
    NoDoubledChar("media_control_title", '_');
  }

  // ------------------------------------------------------------- clicks

  /** What a click leads to. */
  datatype Dispatch =
    | NotClick          // the event was not a click
    | NoButton          // no button is defined at the clicked position
    | NoAction          // the button has no (or an empty) action
    | Invoke(callable: Callable)  // the action called, with no arguments

  /** `map(int, parts)` consumed by `tuple(...)`: left to right, the first bad part raises. */
  function ParseInts(parts: seq<string>): (r: Result<seq<int>>)
    ensures r.Ok? ==> |r.value| == |parts| && forall i :: 0 <= i < |parts| ==> ParseInt(parts[i]) == Ok(r.value[i])
    ensures r.Err? ==> r.error.ValueError? && exists i :: 0 <= i < |parts| && ParseInt(parts[i]) == Err(r.error)
    decreases |parts|
  {
    if parts == [] then Ok([])
    else match ParseInt(parts[0])
      case Err(e) => Err(e)
      case Ok(n) =>
        match ParseInts(parts[1..])
        case Err(e) => Err(e)
        case Ok(ns) => Ok([n] + ns)
  }

  /** `tuple(map(int, str_id.split(":")))` */
  function ParseButtonId(s: string): Result<seq<int>>
  {
    ParseInts(Split(s, ':'))
  }

  lemma DisplayIntNoColon(n: int)
    ensures ':' !in Display(Int(n))
  {
    var d := NatToDecimal(if n < 0 then -n else n);
    assert forall i :: 0 <= i < |d| ==> IsDigit(d[i]);
  }

  /** A position's label parses back to the position: `f"{x}:{y}"` round-trips through `_handle_click`'s parser. */
  lemma ParseIdText(id: ButtonId)
    ensures ParseButtonId(IdText(id)) == Ok([id.0, id.1])
  {
    DisplayIntNoColon(id.0);
    DisplayIntNoColon(id.1);
    SplitPair(Display(Int(id.0)), Display(Int(id.1)), ':');
    assert IdText(id) == Display(Int(id.0)) + [':'] + Display(Int(id.1));
    ParseIntDisplay(id.0);
    ParseIntDisplay(id.1);
    var parts := [Display(Int(id.0)), Display(Int(id.1))];
    var last := [Display(Int(id.1))];
    assert last[0] == Display(Int(id.1)) && last[1..] == [];
    assert ParseInts(last[1..]) == Ok([]);
    assert [id.1] + [] == [id.1];
    assert ParseInts(last) == Ok([id.1]);
    assert parts[0] == Display(Int(id.0)) && parts[1..] == last;
    assert [id.0] + [id.1] == [id.0, id.1];
    assert ParseInts(parts) == Ok([id.0, id.1]);
    assert Split(IdText(id), ':') == parts;
  }

  /** `self.buttons.get(tuple_id)`: only a pair of integers can name a position. */
  function Lookup(buttons: Dict<ButtonId, ButtonData>, t: seq<int>): Option<ButtonData>
  {
    if |t| == 2 then Get(buttons, (t[0], t[1])) else None
  }

  /** The tail of `_handle_click`: `if button: if button.action: self.actions[button.action]()`. */
  function Dispatched(button: Option<ButtonData>, actions: Option<map<string, Callable>>): Result<Dispatch>
  {
    match button
    case None => Ok(NoButton)
    case Some(b) =>
      if b.action.None? || b.action.value == "" then Ok(NoAction)
      else if actions.None? then Err(AttributeError("actions"))
      else if b.action.value !in actions.value then Err(KeyError(b.action.value))
      else Ok(Invoke(actions.value[b.action.value]))
  }

  /**
   * `_handle_click(data)`. `actions` is None until `run()` has set
   * `self.actions`. Missing data or a missing or non-string `button_id`
   * raises AttributeError, a part that is not an integer ValueError.
   */
  function Click(buttons: Dict<ButtonId, ButtonData>, actions: Option<map<string, Callable>>,
                 data: Option<map<string, Value>>): Result<Dispatch>
  {
    if data.None? then Err(AttributeError("get"))
    else if "button_id" !in data.value || !data.value["button_id"].Str? then Err(AttributeError("split"))
    else match ParseButtonId(data.value["button_id"].s)
      case Err(e) => Err(e)
      case Ok(t) => Dispatched(Lookup(buttons, t), actions)
  }

  /**
   * A click on a position's own label: nothing happens when no button is
   * defined there or its action is falsy; otherwise the named action is
   * invoked, and an action name the registry lacks raises KeyError.
   */
  lemma ClickPosition(buttons: Dict<ButtonId, ButtonData>, actions: Option<map<string, Callable>>, id: ButtonId)
    ensures Click(buttons, actions, Some(map["button_id" := Str(IdText(id))])) == Dispatched(Get(buttons, id), actions)
    ensures Get(buttons, id).None? ==> Click(buttons, actions, Some(map["button_id" := Str(IdText(id))])) == Ok(NoButton)
  {
    ParseIdText(id);
  }

  /**
   * Whatever the data, a click invokes only an action that a defined
   * button names and the registry has, and then exactly that callable,
   * with the button's `action_args` ignored.
   */
  lemma ClickInvokesOnlyRegistered(buttons: Dict<ButtonId, ButtonData>, actions: Option<map<string, Callable>>,
                                   data: Option<map<string, Value>>, c: Callable)
    requires Click(buttons, actions, data) == Ok(Invoke(c))
    ensures exists id :: (id in Keys(buttons) && Get(buttons, id).value.action.Some? &&
      actions.Some? && Get(buttons, id).value.action.value in actions.value &&
      c == actions.value[Get(buttons, id).value.action.value])
  {
    var t := ParseButtonId(data.value["button_id"].s).value;
    var id := (t[0], t[1]);
    assert id in Keys(buttons);
  }

  /**
   * A click that raises raises AttributeError (no data, no usable id, or
   * no `self.actions` yet), ValueError (an id part that is not an integer)
   * or KeyError for an action name the registry lacks.
   */
  lemma ClickErrors(buttons: Dict<ButtonId, ButtonData>, actions: Option<map<string, Callable>>, data: Option<map<string, Value>>)
    requires Click(buttons, actions, data).Err?
    ensures var e := Click(buttons, actions, data).error;
      e.AttributeError? || e.ValueError? || (e.KeyError? && actions.Some? && e.key !in actions.value)
  {
  }

  /**
   * The shipped pause button can never fire: its action
   * `media_control_toggle_pause` has a single underscore and so is not a
   * key of any registry's actions; clicking it raises KeyError (once
   * `run()` has set the actions).
   */
  lemma InitialPauseFails(defaults: StyleDefaults, actions: map<string, Callable>)
    requires forall k :: k in actions ==> Contains(k, PLUGIN_SEP)
    ensures Click(InitialButtons(defaults), Some(actions), Some(map["button_id" := Str(IdText((2, 3)))])) ==
      Err(KeyError("media_control_toggle_pause"))
  {
    PauseHasNoSep();
    ClickPosition(InitialButtons(defaults), Some(actions), (2, 3));
    InitialPauseLookup(defaults);
  }

  lemma InitialPauseLookup(defaults: StyleDefaults)
    ensures Get(InitialButtons(defaults), (2, 3)) == Some(InitialButtons(defaults)[4].1)
    ensures InitialButtons(defaults)[4].1.action == Some("media_control_toggle_pause")
  {
    InitialButtonsUnique(defaults);
    assert InitialButtons(defaults)[4].0 == (2, 3);
  }

  lemma PauseHasNoSep()
    ensures !Contains("media_control_toggle_pause", PLUGIN_SEP)
  {
    NoDoubledChar("media_control_toggle_pause", '_');
  }

  /** `/api/event`: only an event whose `type` is exactly "click" reaches `_handle_click`. */
  function Event(buttons: Dict<ButtonId, ButtonData>, actions: Option<map<string, Callable>>,
                 kind: Option<Value>, data: Option<map<string, Value>>): (r: Result<Dispatch>)
    ensures r == Ok(NotClick) <==> kind != Some(Str("click"))
    ensures kind == Some(Str("click")) ==> r == Click(buttons, actions, data)
  {
    if kind == Some(Str("click")) then Click(buttons, actions, data) else Ok(NotClick)
  }

  // --------------------------------------------------- /api/buttons

  /**
   * `base | rendered`: every base position and every rendered position,
   * base positions first in their order, with the rendered button winning
   * where both have one.
   */
  lemma Overlay<V>(base: Dict<ButtonId, V>, rendered: Dict<ButtonId, V>, id: ButtonId)
    requires UniqueKeys(base) && UniqueKeys(rendered)
    ensures UniqueKeys(UpdateAll(base, rendered))
    ensures Keys(base) <= Keys(UpdateAll(base, rendered))
    ensures id in Keys(UpdateAll(base, rendered)) <==> id in Keys(base) || id in Keys(rendered)
    ensures Get(UpdateAll(base, rendered), id) == if Get(rendered, id).Some? then Get(rendered, id) else Get(base, id)
  {
    GetUpdateAll(base, rendered, id);
    LastValueUnique(rendered, id);
    KeysUpdateAll(base, rendered);
  }

  /** A JSON value in a serialised button: a string field or the position, which JSON shows as a pair. */
  datatype Json = JStr(s: string) | JPosition(id: ButtonId)

  /** `{"id": k} | v.as_dict()` */
  function Entry(id: ButtonId, b: ButtonData): (e: map<string, Json>)
    ensures e.Keys == {"id", "text", "text_align", "font_family", "font_size"}
    ensures e["id"] == JPosition(id) && e["text"] == JStr(b.text) && e["text_align"] == JStr(b.textAlign)
    ensures e["font_family"] == JStr(b.fontFamily) && e["font_size"] == JStr(b.fontSize)
  {
    var d := b.AsDict();
    map["id" := JPosition(id)] + (map k | k in d :: JStr(d[k]))
  }

  /**
   * `prep_buttons(obj)` with `as_dict()`: a single "buttons" list holding
   * one entry per button, in the dict's order.
   */
  method PrepButtons(obj: Dict<ButtonId, Button>) returns (payload: map<string, seq<map<string, Json>>>)
    ensures payload.Keys == {"buttons"} && |payload["buttons"]| == |obj|
    ensures forall i :: 0 <= i < |obj| ==> payload["buttons"][i] == Entry(obj[i].0, obj[i].1.Data())
  {
    var buttons: seq<map<string, Json>> := [];
    for i := 0 to |obj|
      invariant |buttons| == i
      invariant forall j :: 0 <= j < i ==> buttons[j] == Entry(obj[j].0, obj[j].1.Data())
    {
      var (k, v) := obj[i];
      buttons := buttons + [Entry(k, v.Data())];
    }
    payload := map["buttons" := buttons];
  }

  /**
   * `prep_buttons(obj)` as written: it calls `v.dict()`, which a button
   * does not have, so the first entry raises AttributeError and only an
   * empty dict serialises.
   */
  method PrepButtonsAsWritten(obj: Dict<ButtonId, Button>) returns (r: Result<map<string, seq<map<string, Json>>>>)
    ensures r.Ok? <==> obj == []
    ensures r.Ok? ==> r.value == map["buttons" := []]
    ensures r.Err? ==> r.error == AttributeError("dict")
  {
    if obj != [] {
      return Err(AttributeError("dict"));
    }
    r := Ok(map["buttons" := []]);
  }

  /**
   * `for button in buttons_rendered.values(): button.format(**kw)`: each
   * copy formatted in place, in order, until the first that raises.
   */
  method FormatAll(copies: Dict<ButtonId, Button>, kw: map<string, Value>, ghost defs: Dict<ButtonId, ButtonData>)
    returns (r: Result<()>)
    requires Distinct(copies) && Holds(copies, defs)
    modifies Objects(copies)
    ensures Holds(copies, Rendered(defs, kw))
    ensures r == RenderResult(defs, kw)
  {
    ghost var f := FirstFailure(defs, kw);
    var i := 0;
    while i < |copies|
      invariant 0 <= i <= |copies| == |defs| && i <= f
      invariant forall j :: 0 <= j < i ==> copies[j].1.Data() == Expanded(defs[j].1, kw)
      invariant forall j :: i <= j < |copies| ==> copies[j].1.Data() == defs[j].1
    {
      var result := copies[i].1.Format(kw);
      if result.Err? {
        r := Err(result.error);
        RenderedFrom(defs, kw, i);
        return;
      }
      i := i + 1;
    }
    RenderedFrom(defs, kw, i);
    r := Ok(());
  }

  /** The button objects `bs` hold, position by position, the fields `d`. */
  ghost predicate Holds(bs: Dict<ButtonId, Button>, d: Dict<ButtonId, ButtonData>)
    reads Objects(bs)
  {
    |bs| == |d| && forall j :: 0 <= j < |bs| ==> bs[j].0 == d[j].0 && bs[j].1.Data() == d[j].1
  }

  lemma SnapshotHolds(bs: Dict<ButtonId, Button>, d: Dict<ButtonId, ButtonData>)
    ensures Holds(bs, d) <==> Snapshot(bs) == d
  {
    if Holds(bs, d) {
      assert forall j :: 0 <= j < |bs| ==> Snapshot(bs)[j] == d[j];
    }
  }

  /**
   * Formatting the first `i` definitions and leaving the others raw gives
   * `Rendered`, when `i` is the first failure.
   */
  lemma RenderedFrom(defs: Dict<ButtonId, ButtonData>, kw: map<string, Value>, i: nat)
    requires i == FirstFailure(defs, kw)
    ensures |Rendered(defs, kw)| == |defs|
    ensures forall j :: 0 <= j < i ==> Rendered(defs, kw)[j] == (defs[j].0, Expanded(defs[j].1, kw))
    ensures forall j :: i <= j < |defs| ==> Rendered(defs, kw)[j] == defs[j]
  {
  }

  /** `self.buttons` as `Deck.__init__` builds it. */
  method BuildDefinitions(defaults: StyleDefaults) returns (bs: Dict<ButtonId, Button>)
    ensures Snapshot(bs) == InitialButtons(defaults) && UniqueKeys(bs)
    ensures Distinct(bs) && forall i :: 0 <= i < |bs| ==> fresh(bs[i].1)
  {
    bs := Build(InitialButtons(defaults));
    InitialButtonsUnique(defaults);
    UniqueKeysOfKeys(bs, InitialButtons(defaults));
  }

  /** `self.buttons_base` as `Deck.__init__` builds it. */
  method BuildBase(rows: nat, cols: nat, defaults: StyleDefaults) returns (bs: Dict<ButtonId, Button>)
    ensures Snapshot(bs) == BaseGrid(rows, cols, defaults) && UniqueKeys(bs) && |bs| == rows * cols
    ensures Distinct(bs) && forall i :: 0 <= i < |bs| ==> fresh(bs[i].1)
  {
    bs := Build(BaseGrid(rows, cols, defaults));
    BaseGridExact(rows, cols, defaults);
    UniqueKeysOfKeys(bs, BaseGrid(rows, cols, defaults));
  }

  // -------------------------------------------------------- the deck

  class Deck {
    /** `self.buttons`: the definitions, never changed after construction */
    var buttons: Dict<ButtonId, Button>
    /** `self.buttons_rendered`: the formatted copies of the last `update()` */
    var buttonsRendered: Dict<ButtonId, Button>
    /** `self.buttons_base`: one placeholder button per grid position */
    var buttonsBase: Dict<ButtonId, Button>
    /** `self.config["dimensions"]` */
    const rows: nat
    const cols: nat
    var variables: map<string, Value>
    /** `self.actions`: absent until `run()` sets it */
    var actions: Option<map<string, Callable>>
    const pluginManager: PluginManager

    ghost predicate Valid()
      reads this, pluginManager
    {
      UniqueKeys(buttons) && UniqueKeys(buttonsRendered) && UniqueKeys(buttonsBase) &&
      Distinct(buttons) && Distinct(buttonsRendered) && Objects(buttons) !! Objects(buttonsRendered) &&
      |buttonsBase| == rows * cols && rows == 3 && cols == 5 &&
      pluginManager.Valid() &&
      (forall k :: k in variables ==> Contains(k, PLUGIN_SEP)) &&
      (actions.Some? ==> forall k :: k in actions.value ==> Contains(k, PLUGIN_SEP))
    }

    /**
     * `Deck()`; `moduleFile` is the module's `__file__`, whose directory
     * (`PATH`) holds the `plugins` directory.
     */
    constructor(moduleFile: string, defaults: StyleDefaults)
      ensures Valid() && fresh(pluginManager)
      ensures Snapshot(buttons) == InitialButtons(defaults)
      ensures buttonsRendered == [] && variables == map[] && actions.None?
      ensures Snapshot(buttonsBase) == BaseGrid(3, 5, defaults)
      ensures pluginManager.pluginDir == GetPath(moduleFile) + "/plugins" && pluginManager.plugins == []
    {
      var defs := BuildDefinitions(defaults);
      var base := BuildBase(3, 5, defaults);
      buttons := defs;
      buttonsRendered := [];
      buttonsBase := base;
      rows := 3;
      cols := 5;
      variables := map[];
      actions := None;
      pluginManager := new PluginManager(GetPath(moduleFile) + "/plugins");
    }

    /** `run()` up to the start of its threads: load the plugins, then take the registry's actions. */
    method Run(listing: seq<string>, loader: Loader) returns (r: Result<()>, ghost consulted: seq<string>)
      requires Valid()
      modifies this, pluginManager
      ensures Valid()
      ensures LoadOutcome(pluginManager.plugins, consulted, if r.Err? then Some(r.error) else None) ==
        LoadPass(old(pluginManager.plugins), listing, loader)
      ensures r.Ok? ==> actions == Some(Flatten(ActionsOf(pluginManager.plugins)))
      ensures r.Err? ==> actions == old(actions)
      ensures buttons == old(buttons) && buttonsRendered == old(buttonsRendered) && buttonsBase == old(buttonsBase)
      ensures variables == old(variables)
    {
      r, consulted := pluginManager.Load(listing, loader);
      if r.Err? {
        return;
      }
      var registered := pluginManager.Actions();
      forall k | k in registered
        ensures Contains(k, PLUGIN_SEP)
      {
        FlattenKeysNamespaced(ActionsOf(pluginManager.plugins), k);
      }
      actions := Some(registered);
    }

    /**
     * `update()`: tick every plugin, merge the registry's variables into
     * `self.variables`, replace `buttons_rendered` by a deep copy of the
     * definitions and format the copies in order; the first label that
     * fails ends the update with its exception.
     */
    method Update() returns (r: Result<()>)
      requires Valid()
      modifies this, pluginManager
      ensures Valid()
      ensures pluginManager.plugins == TickAll(old(pluginManager.plugins))
      ensures forall k :: k in variables <==> k in old(variables) || k in Flatten(VariablesOf(pluginManager.plugins))
      ensures forall k :: k in Flatten(VariablesOf(pluginManager.plugins)) ==>
        variables[k] == Flatten(VariablesOf(pluginManager.plugins))[k]
      ensures forall k :: k in old(variables) && k !in Flatten(VariablesOf(pluginManager.plugins)) ==>
        variables[k] == old(variables)[k]
      ensures buttons == old(buttons) && Snapshot(buttons) == old(Snapshot(buttons))
      ensures Keys(buttonsRendered) == Keys(buttons)
      ensures Snapshot(buttonsRendered) == Rendered(Snapshot(buttons), variables)
      ensures r == RenderResult(Snapshot(buttons), variables)
      ensures buttonsBase == old(buttonsBase) && actions == old(actions)
    {
      Tick();
      r := Render();
    }

    /** The first half of `update()`: tick the plugins and merge the registry's variables. */
    method Tick()
      requires Valid()
      modifies this, pluginManager
      ensures Valid()
      ensures pluginManager.plugins == TickAll(old(pluginManager.plugins))
      ensures variables == old(variables) + Flatten(VariablesOf(pluginManager.plugins))
      ensures buttons == old(buttons) && buttonsRendered == old(buttonsRendered)
      ensures buttonsBase == old(buttonsBase) && actions == old(actions)
    {
      var _ := pluginManager.Update();
      var registry := pluginManager.Variables();
      forall k | k in registry
        ensures Contains(k, PLUGIN_SEP)
      {
        FlattenKeysNamespaced(VariablesOf(pluginManager.plugins), k);
      }
      variables := variables + registry;
    }

    /** The second half of `update()`: deep-copy the definitions and format the copies. */
    method Render() returns (r: Result<()>)
      requires Valid()
      modifies this
      ensures Valid()
      ensures buttons == old(buttons) && Snapshot(buttons) == old(Snapshot(buttons))
      ensures Keys(buttonsRendered) == Keys(buttons)
      ensures Snapshot(buttonsRendered) == Rendered(Snapshot(buttons), variables)
      ensures r == RenderResult(Snapshot(buttons), variables)
      ensures variables == old(variables) && buttonsBase == old(buttonsBase) && actions == old(actions)
    {
      var defs := Snapshot(buttons);
      SnapshotHolds(buttons, defs);
      var copies := Build(defs);
      UniqueKeysOfKeys(copies, buttons);
      assert Objects(buttons) !! Objects(copies);
      buttonsRendered := copies;
      SnapshotHolds(copies, defs);
      r := FormatAll(copies, variables, defs);
      SnapshotHolds(copies, Rendered(defs, variables));
      assert Holds(buttons, defs);
      SnapshotHolds(buttons, defs);
    }

    /** The fields of the definitions. */
    function Definitions(): Dict<ButtonId, ButtonData>
      reads this, Objects(buttons)
    {
      Snapshot(buttons)
    }

    /** `/api/event` with body `{"type": kind, "data": data}`. */
    function HandleEvent(kind: Option<Value>, data: Option<map<string, Value>>): Result<Dispatch>
      reads this, Objects(buttons)
    {
      Event(Definitions(), actions, kind, data)
    }

    /** The dict `/api/buttons` serialises: `buttons_base | buttons_rendered`. */
    function View(): Dict<ButtonId, Button>
      reads this
    {
      UpdateAll(buttonsBase, buttonsRendered)
    }

    /** `/api/buttons` with `prep_buttons` corrected: one entry per visible position. */
    method ApiButtons() returns (payload: map<string, seq<map<string, Json>>>)
      requires Valid()
      ensures payload.Keys == {"buttons"} && |payload["buttons"]| == |View()|
      ensures forall i :: 0 <= i < |View()| ==> payload["buttons"][i] == Entry(View()[i].0, View()[i].1.Data())
    {
      payload := PrepButtons(View());
    }

    /** `/api/buttons` as written: the base grid is never empty, so it always raises. */
    method ApiButtonsAsWritten() returns (r: Result<map<string, seq<map<string, Json>>>>)
      requires Valid()
      ensures r == Err(AttributeError("dict"))
    {
      KeysUpdateAll(buttonsBase, buttonsRendered);
      assert |View()| >= |buttonsBase| == 15;
      r := PrepButtonsAsWritten(View());
    }
  }
}
