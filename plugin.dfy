/**
 * pydeck/plugin.py: the shape every plugin has. A plugin class (the
 * module's `Main`) may declare a `plugin_id`; an instance owns `variables`,
 * `actions` and `config` mappings and is driven through `load()` and
 * `update()`. What those two calls do is plugin code the host cannot see
 * (clocks, HTTP, subprocesses), so a plugin class carries it as a script:
 * the effect of `load()` and the effect of each successive `update()`.
 */
module Plugin {
  import opened PyTypes

  type Vars = map<string, Value>

  /** An action: the bound method `member` of the plugin named `owner`. */
  datatype Callable = Callable(owner: string, member: string)

  type Actions = map<string, Callable>

  /** The mappings a call into plugin code reassigns (None: left alone). */
  datatype Effect = Effect(variables: Option<Vars>, actions: Option<Actions>, config: Option<Vars>)

  /**
   * One call into plugin code: it makes its assignments and returns, or
   * makes some assignments and then raises. Python has no rollback, so
   * what a raising call already assigned stays on the instance.
   */
  datatype Step =
    | Returns(effect: Effect)
    | Raises(effect: Effect)

  /** The step that changes nothing, like `def update(self) -> None: ...`. */
  const NoOp: Step := Returns(Effect(None, None, None))

  /** A plugin class as the loader returns it. */
  datatype PluginClass = PluginClass(
    pluginId: Option<string>,  // the optional class attribute `plugin_id`
    name: string,
    onLoad: Step,
    onUpdate: seq<Step>)       // the effect of the first, second, ... `update()`; NoOp after the script ends

  /**
   * A live plugin. `config` is None while the instance has no `config`
   * attribute: `DeckPlugin.__init__` creates only `actions` and `variables`.
   * `loads` and `ticks` count the calls of `load()` and `update()`.
   */
  datatype Instance = Instance(
    cls: PluginClass,
    variables: Vars,
    actions: Actions,
    config: Option<Vars>,
    loads: nat,
    ticks: nat)

  /** `plugin_main()`: a fresh instance as `DeckPlugin.__init__` leaves it. */
  function Instantiate(cls: PluginClass): (p: Instance)
    ensures p.cls == cls && p.loads == 0 && p.ticks == 0
    ensures p.variables == map[] && p.actions == map[] && p.config.None?
  {
    Instance(cls, map[], map[], None, 0, 0)
  }

  /** The instance after plugin code reassigned some of its mappings. */
  function Assign(p: Instance, e: Effect): (q: Instance)
    ensures q.cls == p.cls && q.loads == p.loads && q.ticks == p.ticks
    ensures q.variables == if e.variables.Some? then e.variables.value else p.variables
    ensures q.actions == if e.actions.Some? then e.actions.value else p.actions
    ensures q.config == if e.config.Some? then e.config else p.config
  {
    p.(variables := if e.variables.Some? then e.variables.value else p.variables,
       actions := if e.actions.Some? then e.actions.value else p.actions,
       config := if e.config.Some? then e.config else p.config)
  }

  /**
   * `obj.load()`: raises when the plugin's load raises, otherwise applies
   * its effect. A raising load's partial effect is on an instance nobody
   * keeps, so only the exception is returned.
   */
  function Load(p: Instance): (r: Result<Instance>)
    ensures r.Err? <==> p.cls.onLoad.Raises?
    ensures r.Err? ==> r.error == PluginRaised(p.cls.name)
    ensures r.Ok? ==> r.value.cls == p.cls && r.value.loads == p.loads + 1 && r.value.ticks == p.ticks
    ensures r.Ok? ==> r.value.(loads := p.loads) == Assign(p, p.cls.onLoad.effect)
  {
    match p.cls.onLoad
    case Raises(_) => Err(PluginRaised(p.cls.name))
    case Returns(e) => Ok(Assign(p, e).(loads := p.loads + 1))
  }

  /** The effect of the instance's next `update()`. */
  function NextUpdate(p: Instance): Step
  {
    if p.ticks < |p.cls.onUpdate| then p.cls.onUpdate[p.ticks] else NoOp
  }

  datatype Ticked = Ticked(instance: Instance, ok: bool)

  /**
   * `plugin.update()`: the call is counted whether or not it raises, and
   * whatever it assigned before raising stays on the instance; only a
   * returning update reports success.
   */
  function Update(p: Instance): (r: Ticked)
    ensures r.instance.cls == p.cls && r.instance.loads == p.loads && r.instance.ticks == p.ticks + 1
    ensures r.ok <==> NextUpdate(p).Returns?
    ensures r.instance.(ticks := p.ticks) == Assign(p, NextUpdate(p).effect)
  {
    var s := NextUpdate(p);
    Ticked(Assign(p, s.effect).(ticks := p.ticks + 1), s.Returns?)
  }
}
