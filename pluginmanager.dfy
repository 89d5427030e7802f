/**
 * pydeck/pluginmanager.py: the plugin registry. It keeps the loaded
 * plugins in an insertion-ordered dict from plugin id to instance, loads
 * them from a directory listing, merges user settings into their configs,
 * ticks them with per-plugin failure containment, and flattens their
 * variables and actions into one mapping keyed `plugin_id + "__" + key`.
 *
 * `os.listdir` and `_load_module` are inputs: the listing is a sequence of
 * entry names and the loader maps an entry name to the plugin class found
 * there, to None when the entry is not a plugin, or to the exception it
 * raised (`rsplit` of a file name without a dot, an archive without
 * `Main`, an error while the module is imported).
 */
module PluginRegistry {
  import opened PyTypes
  import opened PyStr
  import opened PyDict
  import opened Plugin

  /** Separator between a plugin id and a local variable or action name. */
  const PLUGIN_SEP: string := "__"

  /** `_load_module(name, plugins_path)` for the fixed plugin directory. */
  type Loader = string -> Result<Option<PluginClass>>

  /** A namespaced key: `f"{plugin_id}{PLUGIN_SEP}{key}"`. */
  function Ns(pluginId: string, key: string): string
  {
    pluginId + PLUGIN_SEP + key
  }

  function NamespaceKeys<V>(pluginId: string, m: map<string, V>): set<string>
  {
    set k | k in m :: Ns(pluginId, k)
  }

  /** The part of a namespaced key after its plugin id and separator. */
  function LocalPart(pluginId: string, key: string): string
    requires |key| >= |pluginId| + 2
  {
    key[|pluginId| + 2..]
  }

  /** `{f"{plugin_id}{PLUGIN_SEP}{k}": v for k, v in m.items()}` */
  function Namespace<V>(pluginId: string, m: map<string, V>): (r: map<string, V>)
    ensures forall k :: k in m ==> Ns(pluginId, k) in r && r[Ns(pluginId, k)] == m[k]
    ensures forall key :: key in r ==> exists k :: k in m && key == Ns(pluginId, k)
  {
    var r := map key | key in NamespaceKeys(pluginId, m) :: m[LocalPart(pluginId, key)];
    assert forall k :: k in m ==> LocalPart(pluginId, Ns(pluginId, k)) == k;
    r
  }

  /** The same local key under two different plugin ids gives two different namespaced keys. */
  lemma NsDistinctIds(id1: string, id2: string, key: string)
    requires id1 != id2
    ensures Ns(id1, key) != Ns(id2, key)
  {
    if |id1| == |id2| {
      assert Ns(id1, key)[..|id1|] == id1 && Ns(id2, key)[..|id1|] == id2;
    } else {
      assert |Ns(id1, key)| != |Ns(id2, key)|;
    }
  }

  /** Every namespaced key holds the separator, so a bare name without it never is one. */
  lemma NsContainsSep(pluginId: string, key: string)
    ensures Contains(Ns(pluginId, key), PLUGIN_SEP)
  {
    assert OccursAt(Ns(pluginId, key), PLUGIN_SEP, |pluginId|);
  }

  /** `variables.update(...)` for every entry in turn: the aggregation of `variables` and `actions`. */
  function Flatten<V>(e: seq<(string, map<string, V>)>): map<string, V>
    decreases |e|
  {
    if e == [] then map[] else Flatten(e[..|e| - 1]) + Namespace(e[|e| - 1].0, e[|e| - 1].1)
  }

  /**
   * A key is in the aggregation exactly when it is `id + "__" + k` for a
   * plugin `id` exposing local key `k`.
   */
  lemma {:induction false} FlattenKeys<V>(e: seq<(string, map<string, V>)>, key: string)
    ensures key in Flatten(e) <==> exists i, k :: 0 <= i < |e| && k in e[i].1 && key == Ns(e[i].0, k)
    decreases |e|
  {
    if e != [] {
      var init := e[..|e| - 1];
      FlattenKeys(init, key);
      if key in Flatten(e) && key !in Flatten(init) {
        var k :| k in e[|e| - 1].1 && key == Ns(e[|e| - 1].0, k);
      }
      if exists i, k :: 0 <= i < |e| && k in e[i].1 && key == Ns(e[i].0, k) {
        var i, k :| 0 <= i < |e| && k in e[i].1 && key == Ns(e[i].0, k);
        if i < |e| - 1 {
          assert init[i] == e[i];
        }
      }
    }
  }

  /**
   * The value of an aggregated key comes from the last plugin, in
   * iteration order, that produces that key.
   */
  lemma {:induction false} FlattenLastWriter<V>(e: seq<(string, map<string, V>)>, key: string)
    requires key in Flatten(e)
    ensures exists i :: LastWriterAt(e, key, i)
    decreases |e|
  {
    var last := |e| - 1;
    if key !in Namespace(e[last].0, e[last].1) {
      var init := e[..last];
      FlattenLastWriter(init, key);
      var i :| LastWriterAt(init, key, i);
      assert e[i] == init[i];
      NoLaterWriter(e, init, key, i);
      assert LastWriterAt(e, key, i);
    } else {
      assert LastWriterAt(e, key, last);
    }
  }

  /** No entry after `i` produces `key` when none in `init` does and the last entry does not. */
  lemma NoLaterWriter<V>(e: seq<(string, map<string, V>)>, init: seq<(string, map<string, V>)>, key: string, i: int)
    requires 0 <= i && e != [] && init == e[..|e| - 1] && key !in Namespace(e[|e| - 1].0, e[|e| - 1].1)
    requires forall j :: i < j < |init| ==> key !in Namespace(init[j].0, init[j].1)
    ensures forall j :: i < j < |e| ==> key !in Namespace(e[j].0, e[j].1)
  {
    forall j | i < j < |e|
      ensures key !in Namespace(e[j].0, e[j].1)
    {
      if j < |init| { assert init[j] == e[j]; }
    }
  }

  /** Entry `i` produces `key`, its value is the aggregated one, and no later entry produces `key`. */
  ghost predicate LastWriterAt<V>(e: seq<(string, map<string, V>)>, key: string, i: int)
    requires key in Flatten(e)
  {
    0 <= i < |e| && key in Namespace(e[i].0, e[i].1)
    && Flatten(e)[key] == Namespace(e[i].0, e[i].1)[key]
    && forall j :: i < j < |e| ==> key !in Namespace(e[j].0, e[j].1)
  }

  /**
   * Two plugin ids can only produce the same namespaced key when one of the
   * local keys holds an underscore.
   */
  lemma NsCollision(id1: string, k1: string, id2: string, k2: string)
    requires id1 != id2 && Ns(id1, k1) == Ns(id2, k2)
    ensures '_' in k1 || '_' in k2
  {
    var s := Ns(id1, k1);
    assert s[..|id1|] == id1 && Ns(id2, k2)[..|id2|] == id2;
    if |id1| == |id2| {
      assert false;
    } else if |id1| < |id2| {
      assert s[|id2| + 1] == '_';
      assert k1[|id2| + 1 - (|id1| + 2)] == s[|id2| + 1];
    } else if |id1| > |id2| {
      assert s[|id1| + 1] == '_';
      assert k2[|id1| + 1 - (|id2| + 2)] == s[|id1| + 1];
    }
  }

  /**
   * Two plugins with different ids that both expose the same local key
   * (one without underscores, like `title`) keep both values apart in the
   * aggregation.
   */
  lemma NoCollision<V>(idA: string, a: map<string, V>, idB: string, b: map<string, V>, key: string)
    requires idA != idB && key in a && key in b
    requires '_' !in key && forall k :: k in b ==> '_' !in k
    ensures Ns(idA, key) in Flatten([(idA, a), (idB, b)]) && Ns(idB, key) in Flatten([(idA, a), (idB, b)])
    ensures Flatten([(idA, a), (idB, b)])[Ns(idA, key)] == a[key]
    ensures Flatten([(idA, a), (idB, b)])[Ns(idB, key)] == b[key]
  {
    var e := [(idA, a), (idB, b)];
    assert e[..1] == [(idA, a)] && e[..1][..0] == [];
    if Ns(idA, key) in Namespace(idB, b) {
      var k :| k in b && Ns(idA, key) == Ns(idB, k);
      NsCollision(idA, key, idB, k);
    }
  }

  /** Every key of the aggregation holds the separator: no bare local key ever appears there. */
  lemma {:induction false} FlattenKeysNamespaced<V>(e: seq<(string, map<string, V>)>, key: string)
    requires key in Flatten(e)
    ensures Contains(key, PLUGIN_SEP)
  {
    FlattenKeys(e, key);
    var i, k :| 0 <= i < |e| && k in e[i].1 && key == Ns(e[i].0, k);
    NsContainsSep(e[i].0, k);
  }

  // ---------------------------------------------------------------- load

  /** The key `load` registers a plugin under: its `plugin_id`, else the entry name without ".py". */
  function RegistryId(entry: string, p: Instance): string
  {
    match p.cls.pluginId
    case Some(id) => id
    case None => Replace(entry, ".py", "")
  }

  /** Entries `load` does not skip outright: those not starting with an underscore. */
  function Visible(listing: seq<string>): (r: seq<string>)
    ensures forall n :: n in r <==> n in listing && !StartsWith(n, "_")
    ensures |r| <= |listing|
    decreases |listing|
  {
    if listing == [] then []
    else if StartsWith(listing[0], "_") then Visible(listing[1..])
    else [listing[0]] + Visible(listing[1..])
  }

  /**
   * Skipping keeps listing order: the visible entries of two listings one
   * after the other are those of the first, then those of the second.
   */
  lemma {:induction false} VisibleConcat(a: seq<string>, b: seq<string>)
    ensures Visible(a + b) == Visible(a) + Visible(b)
    decreases |a|
  {
    if a == [] {
      assert a + b == b;
    } else {
      assert (a + b)[0] == a[0] && (a + b)[1..] == a[1..] + b;
      VisibleConcat(a[1..], b);
    }
  }

  /** A single entry is visible exactly when it does not start with an underscore. */
  lemma VisibleSingle(n: string)
    ensures Visible([n]) == if StartsWith(n, "_") then [] else [n]
  {
    assert [n][1..] == [];
  }

  /**
   * The result of a load pass: the registry afterwards, the entry names
   * handed to the loader, in order, and the exception that ended the pass
   * early, if any (neither the loader's exceptions nor a plugin's `load()`
   * raising are caught).
   */
  datatype LoadOutcome = LoadOutcome(plugins: Dict<string, Instance>, consulted: seq<string>, raised: Option<Exception>)

  function Consulted(name: string, o: LoadOutcome): LoadOutcome
  {
    o.(consulted := [name] + o.consulted)
  }

  /** `PluginManager.load` over a listing, starting from the registry `plugins`. */
  function LoadPass(plugins: Dict<string, Instance>, listing: seq<string>, loader: Loader): LoadOutcome
    decreases |listing|
  {
    if listing == [] then LoadOutcome(plugins, [], None)
    else
      var name := listing[0];
      if StartsWith(name, "_") then LoadPass(plugins, listing[1..], loader)
      else match loader(name)
        case Err(e) => LoadOutcome(plugins, [name], Some(e))
        case Ok(None) => Consulted(name, LoadPass(plugins, listing[1..], loader))
        case Ok(Some(cls)) =>
          match Plugin.Load(Instantiate(cls))
          case Err(e) => LoadOutcome(plugins, [name], Some(e))
          case Ok(p) => Consulted(name, LoadPass(Set(plugins, RegistryId(name, p), p), listing[1..], loader))
  }

  /** The rest of a load pass over `rest`, after the names in `c` have been consulted. */
  function Resume(plugins: Dict<string, Instance>, rest: seq<string>, loader: Loader,
                  c: seq<string>): LoadOutcome
  {
    var o := LoadPass(plugins, rest, loader);
    o.(consulted := c + o.consulted)
  }

  lemma ResumeSkipped(plugins: Dict<string, Instance>, rest: seq<string>, loader: Loader,
                      c: seq<string>)
    requires rest != [] && StartsWith(rest[0], "_")
    ensures Resume(plugins, rest, loader, c) == Resume(plugins, rest[1..], loader, c)
  {
  }

  lemma ResumeMissing(plugins: Dict<string, Instance>, rest: seq<string>, loader: Loader,
                      c: seq<string>)
    requires rest != [] && !StartsWith(rest[0], "_") && loader(rest[0]) == Ok(None)
    ensures Resume(plugins, rest, loader, c) == Resume(plugins, rest[1..], loader, c + [rest[0]])
  {
    var o := LoadPass(plugins, rest[1..], loader);
    assert (c + [rest[0]]) + o.consulted == c + ([rest[0]] + o.consulted);
  }

  lemma ResumeLoaderRaised(plugins: Dict<string, Instance>, rest: seq<string>, loader: Loader, c: seq<string>)
    requires rest != [] && !StartsWith(rest[0], "_") && loader(rest[0]).Err?
    ensures Resume(plugins, rest, loader, c) == LoadOutcome(plugins, c + [rest[0]], Some(loader(rest[0]).error))
  {
  }

  lemma ResumeRaised(plugins: Dict<string, Instance>, rest: seq<string>, loader: Loader,
                     c: seq<string>)
    requires rest != [] && !StartsWith(rest[0], "_") && loader(rest[0]).Ok? && loader(rest[0]).value.Some?
    requires Plugin.Load(Instantiate(loader(rest[0]).value.value)).Err?
    ensures Resume(plugins, rest, loader, c) ==
      LoadOutcome(plugins, c + [rest[0]], Some(Plugin.Load(Instantiate(loader(rest[0]).value.value)).error))
  {
  }

  lemma ResumeLoaded(plugins: Dict<string, Instance>, rest: seq<string>, loader: Loader,
                     c: seq<string>)
    requires rest != [] && !StartsWith(rest[0], "_") && loader(rest[0]).Ok? && loader(rest[0]).value.Some?
    requires Plugin.Load(Instantiate(loader(rest[0]).value.value)).Ok?
    ensures var p := Plugin.Load(Instantiate(loader(rest[0]).value.value)).value;
      Resume(plugins, rest, loader, c) == Resume(Set(plugins, RegistryId(rest[0], p), p), rest[1..], loader, c + [rest[0]])
  {
    var p := Plugin.Load(Instantiate(loader(rest[0]).value.value)).value;
    var o := LoadPass(Set(plugins, RegistryId(rest[0], p), p), rest[1..], loader);
    assert (c + [rest[0]]) + o.consulted == c + ([rest[0]] + o.consulted);
  }

  /** The (id, instance) assignments a load pass performs, in order, up to an exception. */
  function Registrations(listing: seq<string>, loader: Loader): seq<(string, Instance)>
    decreases |listing|
  {
    if listing == [] then []
    else
      var name := listing[0];
      if StartsWith(name, "_") then Registrations(listing[1..], loader)
      else match loader(name)
        case Err(_) => []
        case Ok(None) => Registrations(listing[1..], loader)
        case Ok(Some(cls)) =>
          match Plugin.Load(Instantiate(cls))
          case Err(_) => []
          case Ok(p) => [(RegistryId(name, p), p)] + Registrations(listing[1..], loader)
  }

  /**
   * The loader is only ever asked about entries that do not start with an
   * underscore, in listing order; when no plugin's `load()` raises, it is
   * asked about every one of them, so a rejected entry never stops the pass.
   */
  lemma {:induction false} LoadConsults(plugins: Dict<string, Instance>, listing: seq<string>, loader: Loader)
    ensures LoadPass(plugins, listing, loader).consulted <= Visible(listing)
    ensures LoadPass(plugins, listing, loader).raised.None? ==> LoadPass(plugins, listing, loader).consulted == Visible(listing)
    ensures forall n :: n in LoadPass(plugins, listing, loader).consulted ==> n in listing && !StartsWith(n, "_")
    decreases |listing|
  {
    if listing != [] {
      var name := listing[0];
      if !StartsWith(name, "_") && loader(name).Ok? && loader(name).value.Some? && Plugin.Load(Instantiate(loader(name).value.value)).Ok? {
        var p := Plugin.Load(Instantiate(loader(name).value.value)).value;
        LoadConsults(Set(plugins, RegistryId(name, p), p), listing[1..], loader);
      } else {
        LoadConsults(plugins, listing[1..], loader);
      }
    }
  }

  /** The exception handling a visible entry raises, if any: the loader's own, or that of the plugin's `load()`. */
  function RaisedBy(loader: Loader, name: string): Option<Exception>
  {
    match loader(name)
    case Err(e) => Some(e)
    case Ok(None) => None
    case Ok(Some(cls)) =>
      match Plugin.Load(Instantiate(cls))
      case Err(e) => Some(e)
      case Ok(_) => None
  }

  /** The registry after handling a visible entry that did not raise. */
  function After(plugins: Dict<string, Instance>, loader: Loader, name: string): Dict<string, Instance>
    requires RaisedBy(loader, name).None?
  {
    match loader(name)
    case Ok(Some(cls)) => var p := Plugin.Load(Instantiate(cls)).value; Set(plugins, RegistryId(name, p), p)
    case _ => plugins
  }

  /** A visible entry that does not raise is consulted and the pass goes on from `After`. */
  lemma LoadPassStep(plugins: Dict<string, Instance>, listing: seq<string>, loader: Loader)
    requires listing != [] && !StartsWith(listing[0], "_") && RaisedBy(loader, listing[0]).None?
    ensures LoadPass(plugins, listing, loader) == Consulted(listing[0], LoadPass(After(plugins, loader, listing[0]), listing[1..], loader))
  {
  }

  /** A visible entry that raises ends the pass at once, with its exception and the registry as it was. */
  lemma LoadPassRaises(plugins: Dict<string, Instance>, listing: seq<string>, loader: Loader)
    requires listing != [] && !StartsWith(listing[0], "_") && RaisedBy(loader, listing[0]).Some?
    ensures LoadPass(plugins, listing, loader) == LoadOutcome(plugins, [listing[0]], RaisedBy(loader, listing[0]))
  {
  }

  /**
   * An outcome that stops at the first raising entry: when it raised, the
   * exception is that of the last entry consulted, and every entry
   * consulted before that one went through.
   */
  ghost predicate StopsAtFirstRaise(o: LoadOutcome, loader: Loader)
  {
    (o.raised.Some? ==> o.consulted != [] && o.raised == RaisedBy(loader, o.consulted[|o.consulted| - 1]))
    && forall j :: 0 <= j < |o.consulted| - 1 ==> RaisedBy(loader, o.consulted[j]).None?
  }

  /** A load pass stops at the first visible entry whose handling raises, and with that exception. */
  lemma {:induction false} LoadStopsAtFirstRaise(plugins: Dict<string, Instance>, listing: seq<string>, loader: Loader)
    ensures StopsAtFirstRaise(LoadPass(plugins, listing, loader), loader)
    decreases |listing|
  {
    if listing != [] {
      var name := listing[0];
      if StartsWith(name, "_") {
        LoadStopsAtFirstRaise(plugins, listing[1..], loader);
      } else if RaisedBy(loader, name).None? {
        var next := After(plugins, loader, name);
        LoadStopsAtFirstRaise(next, listing[1..], loader);
        LoadPassStep(plugins, listing, loader);
        StopsCons(LoadPass(next, listing[1..], loader), loader, name);
      } else {
        LoadPassRaises(plugins, listing, loader);
      }
    }
  }

  /** Consulting an entry that went through in front of an outcome keeps it stopping at the first raise. */
  lemma StopsCons(o: LoadOutcome, loader: Loader, name: string)
    requires StopsAtFirstRaise(o, loader) && RaisedBy(loader, name).None?
    ensures StopsAtFirstRaise(Consulted(name, o), loader)
  {
    var c := [name] + o.consulted;
    forall j | 0 <= j < |c| - 1
      ensures RaisedBy(loader, c[j]).None?
    {
      if j > 0 { assert c[j] == o.consulted[j - 1]; }
    }
    if o.consulted != [] {
      assert c[|c| - 1] == o.consulted[|o.consulted| - 1];
    }
  }

  /** A load pass that ends normally met no visible entry whose handling raises. */
  lemma {:induction false} LoadCleanPass(plugins: Dict<string, Instance>, listing: seq<string>, loader: Loader)
    requires LoadPass(plugins, listing, loader).raised.None?
    ensures forall n :: n in Visible(listing) ==> RaisedBy(loader, n).None?
    decreases |listing|
  {
    if listing != [] {
      var name := listing[0];
      if StartsWith(name, "_") {
        LoadCleanPass(plugins, listing[1..], loader);
      } else {
        assert RaisedBy(loader, name).None?;
        LoadPassStep(plugins, listing, loader);
        LoadCleanPass(After(plugins, loader, name), listing[1..], loader);
      }
    }
  }

  /** A load pass performs exactly its registrations as dict assignments, in order. */
  lemma {:induction false} LoadPassUpdates(plugins: Dict<string, Instance>, listing: seq<string>, loader: Loader)
    ensures LoadPass(plugins, listing, loader).plugins == UpdateAll(plugins, Registrations(listing, loader))
    decreases |listing|
  {
    if listing != [] {
      var name := listing[0];
      if !StartsWith(name, "_") && loader(name).Ok? && loader(name).value.Some? && Plugin.Load(Instantiate(loader(name).value.value)).Ok? {
        var p := Plugin.Load(Instantiate(loader(name).value.value)).value;
        var id := RegistryId(name, p);
        LoadPassUpdates(Set(plugins, id, p), listing[1..], loader);
        var regs := [(id, p)] + Registrations(listing[1..], loader);
        assert regs[0] == (id, p) && regs[1..] == Registrations(listing[1..], loader);
      } else {
        LoadPassUpdates(plugins, listing[1..], loader);
      }
    }
  }

  /**
   * Every registration is a fresh instance on which `load()` was called
   * exactly once and `update()` not yet, filed under the id `RegistryId`
   * derives from the visible entry whose class the loader returned.
   */
  lemma {:induction false} RegistrationsAreLoaded(listing: seq<string>, loader: Loader)
    ensures forall r :: r in Registrations(listing, loader) ==>
      r.1.loads == 1 && r.1.ticks == 0 &&
      exists n :: n in listing && !StartsWith(n, "_") && loader(n) == Ok(Some(r.1.cls)) && r.0 == RegistryId(n, r.1)
    decreases |listing|
  {
    if listing != [] {
      RegistrationsAreLoaded(listing[1..], loader);
      forall n | n in listing[1..] ensures n in listing { }
    }
  }

  /**
   * After a load pass, an id maps to the instance of the last entry that
   * registered under it (a later entry with the same id overwrites an
   * earlier one); ids nobody registered keep their old instance.
   */
  lemma LoadLastWins(plugins: Dict<string, Instance>, listing: seq<string>, loader: Loader, id: string)
    requires UniqueKeys(plugins)
    ensures UniqueKeys(LoadPass(plugins, listing, loader).plugins)
    ensures Get(LoadPass(plugins, listing, loader).plugins, id) ==
      if LastValue(Registrations(listing, loader), id).Some? then LastValue(Registrations(listing, loader), id)
      else Get(plugins, id)
  {
    LoadPassUpdates(plugins, listing, loader);
    GetUpdateAll(plugins, Registrations(listing, loader), id);
  }

  /**
   * An entry that starts with an underscore, or one the loader rejects,
   * makes no difference to the registry: the pass without it registers
   * the same plugins and ends the same way.
   */
  lemma {:induction false} LoadSkipsEntry(plugins: Dict<string, Instance>, listing: seq<string>, loader: Loader, i: nat)
    requires i < |listing|
    requires StartsWith(listing[i], "_") || loader(listing[i]) == Ok(None)
    ensures LoadPass(plugins, listing[..i] + listing[i + 1..], loader).plugins == LoadPass(plugins, listing, loader).plugins
    ensures LoadPass(plugins, listing[..i] + listing[i + 1..], loader).raised == LoadPass(plugins, listing, loader).raised
    decreases i
  {
    var shorter := listing[..i] + listing[i + 1..];
    if i == 0 {
      assert shorter == listing[1..];
    } else {
      assert shorter[0] == listing[0];
      assert shorter[1..] == listing[1..][..i - 1] + listing[1..][i..];
      var name := listing[0];
      if !StartsWith(name, "_") && loader(name).Ok? && loader(name).value.Some? && Plugin.Load(Instantiate(loader(name).value.value)).Ok? {
        var p := Plugin.Load(Instantiate(loader(name).value.value)).value;
        LoadSkipsEntry(Set(plugins, RegistryId(name, p), p), listing[1..], loader, i - 1);
      } else {
        LoadSkipsEntry(plugins, listing[1..], loader, i - 1);
      }
    }
  }

  /**
   * A module file `stem.py` without `plugin_id` is registered under its
   * stem, e.g. "builtin.py" under "builtin".
   */
  lemma {:induction false} RegistryIdOfFile(stem: string, p: Instance)
    requires p.cls.pluginId.None? && '.' !in stem
    ensures RegistryId(stem + ".py", p) == stem
    decreases |stem|
  {
    var s := stem + ".py";
    if stem == [] {
      assert s == ".py";
      assert s[3..] == [];
    } else {
      assert s[0] == stem[0] != '.';
      assert s[..3] != ".py";
      assert s[1..] == stem[1..] + ".py";
      RegistryIdOfFile(stem[1..], p);
      assert [stem[0]] + stem[1..] == stem;
    }
  }

  /** An entry name without ".py" in it, such as a package directory, is its own id when no `plugin_id` is declared. */
  lemma RegistryIdOfDirectory(entry: string, p: Instance)
    requires p.cls.pluginId.None? && !Contains(entry, ".py")
    ensures RegistryId(entry, p) == entry
  {
    ReplaceAbsent(entry, ".py", "");
  }

  // ---------------------------------------------------------- set_config

  /** A shallow merge of `settings` into the plugin's config: new keys added, existing keys overwritten. */
  function Merge(p: Instance, settings: Vars): (q: Instance)
    requires p.config.Some?
    ensures q.config.Some? && q.config.value.Keys == p.config.value.Keys + settings.Keys
    ensures forall k :: k in q.config.value ==> q.config.value[k] == if k in settings then settings[k] else p.config.value[k]
    ensures q.(config := p.config) == p
  {
    p.(config := Some(p.config.value + settings))
  }

  datatype ConfigOutcome = ConfigOutcome(plugins: Dict<string, Instance>, result: Result<()>)

  /**
   * `set_config(config)`: for each (plugin id, settings) in order, merge
   * the settings into that plugin's config; unknown ids are skipped, and a
   * plugin that has no `config` attribute raises AttributeError.
   */
  function SetConfigPass(plugins: Dict<string, Instance>, config: seq<(string, Vars)>): ConfigOutcome
    decreases |config|
  {
    if config == [] then ConfigOutcome(plugins, Ok(()))
    else
      var name := config[0].0;
      match Get(plugins, name)
      case None => SetConfigPass(plugins, config[1..])
      case Some(p) =>
        if p.config.None? then ConfigOutcome(plugins, Err(AttributeError("config")))
        else SetConfigPass(Set(plugins, name, Merge(p, config[0].1)), config[1..])
  }

  /** `set_config` never adds, removes or reorders plugins. */
  lemma {:induction false} SetConfigKeys(plugins: Dict<string, Instance>, config: seq<(string, Vars)>)
    requires UniqueKeys(plugins)
    ensures UniqueKeys(SetConfigPass(plugins, config).plugins)
    ensures Keys(SetConfigPass(plugins, config).plugins) == Keys(plugins)
    decreases |config|
  {
    if config != [] {
      var name := config[0].0;
      if Get(plugins, name).Some? && Get(plugins, name).value.config.Some? {
        SetConfigKeys(Set(plugins, name, Merge(Get(plugins, name).value, config[0].1)), config[1..]);
      } else {
        SetConfigKeys(plugins, config[1..]);
      }
    }
  }

  /**
   * After a `set_config` that did not raise, each named plugin's config is
   * its old config merged with its settings, every other plugin is as it
   * was, and ids with no loaded plugin are ignored.
   */
  lemma {:induction false} SetConfigMerges(plugins: Dict<string, Instance>, config: seq<(string, Vars)>, id: string)
    requires UniqueKeys(plugins) && UniqueKeys(config)
    requires SetConfigPass(plugins, config).result.Ok?
    ensures Get(plugins, id).None? ==> Get(SetConfigPass(plugins, config).plugins, id).None?
    ensures Get(plugins, id).Some? && Get(config, id).None? ==>
      Get(SetConfigPass(plugins, config).plugins, id) == Get(plugins, id)
    ensures Get(plugins, id).Some? && Get(config, id).Some? ==>
      Get(plugins, id).value.config.Some? &&
      Get(SetConfigPass(plugins, config).plugins, id) == Some(Merge(Get(plugins, id).value, Get(config, id).value))
    decreases |config|
  {
    if config != [] {
      var name := config[0].0;
      var rest := config[1..];
      assert UniqueKeys(rest) by {
        forall i, j | 0 <= i < |rest| && 0 <= j < |rest| && i != j ensures rest[i].0 != rest[j].0 {
          assert rest[i] == config[i + 1] && rest[j] == config[j + 1];
        }
      }
      assert Get(config, id) == if name == id then Some(config[0].1) else Get(rest, id) by {
        if name != id {
          assert forall i :: 0 <= i < |rest| ==> rest[i] == config[i + 1];
          assert id in Keys(config) <==> id in Keys(rest) by {
            assert Keys(config) == [name] + Keys(rest);
          }
        }
      }
      if name == id {
        assert Get(rest, id).None? by {
          assert forall i :: 0 <= i < |rest| ==> rest[i] == config[i + 1] && config[i + 1].0 != config[0].0;
        }
      }
      match Get(plugins, name)
      case None =>
        SetConfigMerges(plugins, rest, id);
      case Some(p) =>
        var plugins' := Set(plugins, name, Merge(p, config[0].1));
        GetSet(plugins, name, Merge(p, config[0].1), id);
        SetConfigMerges(plugins', rest, id);
    }
  }

  /** A `set_config` that raises names a loaded plugin that has no config. */
  lemma {:induction false} SetConfigRaises(plugins: Dict<string, Instance>, config: seq<(string, Vars)>)
    requires UniqueKeys(plugins)
    requires SetConfigPass(plugins, config).result.Err?
    ensures SetConfigPass(plugins, config).result.error == AttributeError("config")
    ensures exists i :: 0 <= i < |config| && Get(plugins, config[i].0).Some? && Get(plugins, config[i].0).value.config.None?
    decreases |config|
  {
    var name := config[0].0;
    match Get(plugins, name)
    case None =>
      SetConfigRaises(plugins, config[1..]);
      var i :| 0 <= i < |config[1..]| && Get(plugins, config[1..][i].0).Some? && Get(plugins, config[1..][i].0).value.config.None?;
      assert config[1..][i] == config[i + 1];
    case Some(p) =>
      if p.config.Some? {
        var plugins' := Set(plugins, name, Merge(p, config[0].1));
        SetConfigRaises(plugins', config[1..]);
        var i :| 0 <= i < |config[1..]| && Get(plugins', config[1..][i].0).Some? && Get(plugins', config[1..][i].0).value.config.None?;
        assert config[1..][i] == config[i + 1];
        GetSet(plugins, name, Merge(p, config[0].1), config[i + 1].0);
      }
  }

  // -------------------------------------------------------------- update

  /** Every plugin after one `update()` call each. */
  function TickAll(plugins: Dict<string, Instance>): Dict<string, Instance>
  {
    seq(|plugins|, i requires 0 <= i < |plugins| => (plugins[i].0, Plugin.Update(plugins[i].1).instance))
  }

  /** The names of the plugins whose `update()` raised, in registry order: what gets logged. */
  function Failures(plugins: Dict<string, Instance>): (r: seq<string>)
    ensures |r| <= |plugins|
    decreases |plugins|
  {
    if plugins == [] then []
    else
      var last := plugins[|plugins| - 1].1;
      Failures(plugins[..|plugins| - 1]) + if Plugin.Update(last).ok then [] else [last.cls.name]
  }

  /**
   * One tick updates every plugin exactly once and in place: same ids in
   * the same order, each instance one `update()` further on and carrying
   * what that update assigned, including the assignments a raising update
   * made before it raised (nothing is rolled back). Each entry depends on
   * its own plugin only, so a raising plugin does not disturb any other.
   */
  lemma TickAllEachOnce(plugins: Dict<string, Instance>)
    requires UniqueKeys(plugins)
    ensures UniqueKeys(TickAll(plugins)) && Keys(TickAll(plugins)) == Keys(plugins)
    ensures forall i :: 0 <= i < |plugins| ==>
      var (p, q) := (plugins[i].1, TickAll(plugins)[i].1);
      q.cls == p.cls && q.loads == p.loads && q.ticks == p.ticks + 1 &&
      q == Assign(p, NextUpdate(p).effect).(ticks := p.ticks + 1)
    ensures forall i :: 0 <= i < |plugins| ==>
      VariablesOf(TickAll(plugins))[i] ==
        (plugins[i].0, if NextUpdate(plugins[i].1).effect.variables.Some? then NextUpdate(plugins[i].1).effect.variables.value
                      else plugins[i].1.variables)
  {
    assert Keys(TickAll(plugins)) == Keys(plugins);
  }

  lemma FailuresStep(plugins: Dict<string, Instance>, i: nat)
    requires i < |plugins|
    ensures Failures(plugins[..i + 1]) ==
      Failures(plugins[..i]) + if Plugin.Update(plugins[i].1).ok then [] else [plugins[i].1.cls.name]
  {
    assert plugins[..i + 1][..i] == plugins[..i];
  }

  /** A plugin's name is logged exactly when its `update()` raised. */
  lemma {:induction false} FailuresLogged(plugins: Dict<string, Instance>, name: string)
    ensures name in Failures(plugins) <==>
      exists i :: 0 <= i < |plugins| && NextUpdate(plugins[i].1).Raises? && plugins[i].1.cls.name == name
    decreases |plugins|
  {
    if plugins != [] {
      var init := plugins[..|plugins| - 1];
      FailuresLogged(init, name);
      assert forall i :: 0 <= i < |init| ==> init[i] == plugins[i];
    }
  }

  /**
   * Nothing is rolled back: a plugin whose update assigns its variables and
   * then raises is logged as failed, and the next `variables` publishes
   * what it assigned.
   */
  lemma RaisingUpdatePublished(id: string, p: Instance, k: string)
    requires NextUpdate(p).Raises? && NextUpdate(p).effect.variables.Some?
    requires k in NextUpdate(p).effect.variables.value
    ensures Failures([(id, p)]) == [p.cls.name]
    ensures Ns(id, k) in Flatten(VariablesOf(TickAll([(id, p)])))
    ensures Flatten(VariablesOf(TickAll([(id, p)])))[Ns(id, k)] == NextUpdate(p).effect.variables.value[k]
  {
    var e := VariablesOf(TickAll([(id, p)]));
    assert e == [(id, NextUpdate(p).effect.variables.value)];
    assert e[..0] == [];
    assert [(id, p)][..0] == [];
  }

  // ------------------------------------------------------------ the class

  /** `(id, plugin.variables)` for every registered plugin, in order. */
  function VariablesOf(plugins: Dict<string, Instance>): seq<(string, Vars)>
  {
    seq(|plugins|, i requires 0 <= i < |plugins| => (plugins[i].0, plugins[i].1.variables))
  }

  /** `(id, plugin.actions)` for every registered plugin, in order. */
  function ActionsOf(plugins: Dict<string, Instance>): seq<(string, Actions)>
  {
    seq(|plugins|, i requires 0 <= i < |plugins| => (plugins[i].0, plugins[i].1.actions))
  }

  class PluginManager {
    const pluginDir: string
    /** `self.plugins`: plugin id -> instance, in insertion order */
    var plugins: Dict<string, Instance>

    ghost predicate Valid()
      reads this
    {
      UniqueKeys(plugins)
    }

    constructor(pluginDir: string)
      ensures Valid() && this.pluginDir == pluginDir && plugins == []
    {
      this.pluginDir := pluginDir;
      plugins := [];
    }

    /**
     * `load()`: walk the directory listing, skip entries starting with an
     * underscore and entries the loader rejects, instantiate and `load()`
     * each plugin class, and register it under its id. `consulted` records
     * the names handed to the loader.
     */
    method Load(listing: seq<string>, loader: Loader) returns (r: Result<()>, ghost consulted: seq<string>)
      requires Valid()
      modifies this
      ensures Valid()
      ensures LoadOutcome(plugins, consulted, if r.Err? then Some(r.error) else None) == LoadPass(old(plugins), listing, loader)
    {
      ghost var whole := LoadPass(plugins, listing, loader);
      consulted := [];
      var rest := listing;
      while rest != []
        invariant UniqueKeys(plugins)
        invariant whole == Resume(plugins, rest, loader, consulted)
        decreases |rest|
      {
        var name := rest[0];
        if StartsWith(name, "_") {
          ResumeSkipped(plugins, rest, loader, consulted);
          rest := rest[1..];
          continue;
        }
        var found := loader(name);
        if found.Err? {
          ResumeLoaderRaised(plugins, rest, loader, consulted);
          consulted := consulted + [name];
          r := Err(found.error);
          return;
        }
        var pluginMain := found.value;
        if pluginMain.None? {
          ResumeMissing(plugins, rest, loader, consulted);
          consulted := consulted + [name];
          rest := rest[1..];
          continue;
        }
        var obj := Instantiate(pluginMain.value);
        var loaded := Plugin.Load(obj);
        if loaded.Err? {
          ResumeRaised(plugins, rest, loader, consulted);
          consulted := consulted + [name];
          r := Err(loaded.error);
          return;
        }
        ResumeLoaded(plugins, rest, loader, consulted);
        consulted := consulted + [name];
        plugins := Set(plugins, RegistryId(name, loaded.value), loaded.value);
        rest := rest[1..];
      }
      r := Ok(());
    }

    /** `set_config(config)`, with the settings as an insertion-ordered dict of plugin id to settings. */
    method SetConfig(config: Dict<string, Vars>) returns (r: Result<()>)
      requires Valid()
      modifies this
      ensures Valid()
      ensures ConfigOutcome(plugins, r) == SetConfigPass(old(plugins), config)
    {
      SetConfigKeys(plugins, config);
      var i := 0;
      while i < |config|
        invariant 0 <= i <= |config|
        invariant UniqueKeys(plugins)
        invariant SetConfigPass(plugins, config[i..]) == SetConfigPass(old(plugins), config)
      {
        var (name, settings) := config[i];
        assert config[i..][0] == config[i] && config[i..][1..] == config[i + 1..];
        var plugin := Get(plugins, name);
        if plugin.Some? {
          if plugin.value.config.None? {
            r := Err(AttributeError("config"));
            return;
          }
          plugins := Set(plugins, name, Merge(plugin.value, settings));
        }
        i := i + 1;
      }
      r := Ok(());
    }

    /**
     * `update()`: call every plugin's `update()` in registry order; an
     * exception is caught and the plugin's name logged (returned here),
     * and the remaining plugins are still updated.
     */
    method Update() returns (failed: seq<string>)
      requires Valid()
      modifies this
      ensures Valid()
      ensures plugins == TickAll(old(plugins)) && failed == Failures(old(plugins))
    {
      ghost var before := plugins;
      var ps := plugins;
      failed := [];
      var i := 0;
      while i < |ps|
        invariant 0 <= i <= |ps| == |before|
        invariant forall j :: 0 <= j < i ==> ps[j] == TickAll(before)[j]
        invariant forall j :: i <= j < |ps| ==> ps[j] == before[j]
        invariant failed == Failures(before[..i])
      {
        var (id, plugin) := ps[i];
        var ticked := Plugin.Update(plugin);
        if !ticked.ok {
          failed := failed + [plugin.cls.name];
        }
        ps := ps[i := (id, ticked.instance)];
        FailuresStep(before, i);
        i := i + 1;
      }
      assert before[..i] == before;
      assert ps == TickAll(before);
      TickAllEachOnce(before);
      plugins := ps;
    }

    /** The `variables` property: every plugin's variables under namespaced keys. */
    method Variables() returns (variables: map<string, Value>)
      ensures variables == Flatten(VariablesOf(plugins))
    {
      variables := map[];
      var i := 0;
      while i < |plugins|
        invariant 0 <= i <= |plugins|
        invariant variables == Flatten(VariablesOf(plugins[..i]))
      {
        var (id, plugin) := plugins[i];
        assert VariablesOf(plugins[..i + 1])[..i] == VariablesOf(plugins[..i]);
        variables := variables + Namespace(id, plugin.variables);
        i := i + 1;
      }
      assert plugins[..i] == plugins;
    }

    /** The `actions` property: every plugin's actions under namespaced keys. */
    method Actions() returns (actions: map<string, Callable>)
      ensures actions == Flatten(ActionsOf(plugins))
    {
      actions := map[];
      var i := 0;
      while i < |plugins|
        invariant 0 <= i <= |plugins|
        invariant actions == Flatten(ActionsOf(plugins[..i]))
      {
        var (id, plugin) := plugins[i];
        assert ActionsOf(plugins[..i + 1])[..i] == ActionsOf(plugins[..i]);
        actions := actions + Namespace(id, plugin.actions);
        i := i + 1;
      }
      assert plugins[..i] == plugins;
    }
  }
}
