# PyDeck core in Dafny

PyDeck is a small "macro deck": a grid of buttons whose labels are
templates filled from variables that plugins publish, and whose actions
are callables that plugins expose.

This project models the part of PyDeck that holds the logic:

- `pydeck/pluginmanager.py`: the plugin registry. Its load pass walks a
  directory listing, resolves entries through a loader, calls each
  plugin's `load()` and files it under an id. It also has a shallow
  config merge, an update tick that catches each plugin's failure, and
  the two aggregations `variables` and `actions`. Both flatten every
  plugin's local keys to `plugin_id + "__" + key`.
- `pydeck/button.py`: the button record. Construction fills style
  defaults; `as_dict` projects the display fields; `format` and
  `formatted` expand the label template with Python's `str.format`.
- `pydeck/pydeck.py`: the deck. This covers the definitions and the base
  grid, `update()`, click dispatch, and what two routes compute.
  `update()` ticks plugins, merges variables, deep-copies definitions and
  formats the copies. `/api/buttons` serialises `base | rendered`, and
  `/api/event` guards on `"click"`.
- `pydeck/utils.py`: `get_path`.

Each file is modelled in the form of the source:

- The registry (`PluginRegistry.PluginManager`) and the deck
  (`Deck.Deck`) are classes whose methods update their fields with loops.
  Each loop is proved against a specification function on values, such
  as `LoadPass`, `SetConfigPass`, `TickAll`/`Failures`, `Flatten` or
  `Rendered`/`RenderResult`.
- `Button.Button` is a class whose `Format` rewrites its label in place.
- Expression-level code is modelled as functions with lemmas. This
  includes `get_path`, the base-grid comprehension, click parsing and
  the overlay.

Python's own behaviour is modelled in small modules:

- `PyTypes`: values, exceptions as results, `str()` and `int()`.
- `PyStr`: `replace`, `split` and `startswith`.
- `PyDict`: the insertion-ordered `dict` as a sequence of pairs.
- `PyFormat`: the part of `str.format` the labels use.

The things the core cannot see are parameters:

- the directory listing;
- the loader (`_load_module`), as a function from entry name to a plugin
  class, to None for an entry that is not a plugin, or to the exception it
  raises;
- the behaviour of plugin code, as a script in each plugin class: what
  `load()` does, and what each successive `update()` does;
- the module's `__file__`;
- the style defaults.

PyDeck's design intends failures to be contained per plugin, per button and per click. Where that intent and the code disagree, the model follows the code:

- A plugin whose `load()` raises is not isolated, and neither is an entry
  whose import raises inside `_load_module`. The exception leaves
  `PluginManager.load` and ends the pass (`LoadPass`, `raised`).
- A plugin update that raises is caught, but nothing is rolled back: what
  it assigned before raising stays, and `variables` publishes it.
- A label that fails to expand is not isolated per button. `Deck.update`
  raises at the first failing copy. The copies before it are formatted
  and the rest stay raw (`Rendered`, `RenderFailure`).
- Clicks are not queued. `_handle_click` runs directly on the request and
  its errors propagate, for example KeyError for an unknown action.
- An action is invoked with no arguments; `action_args` is ignored.

## Model

| member | source | states |
|---|---|---|
| PyTypes.NatToDecimal | pydeck/pydeck.py:64 | `str(n)` of a natural is non-empty, all decimal digits, without a leading zero |
| PyTypes.Display | pydeck/button.py:61 | `str(v)` of a variable as `str.format` substitutes it: strings verbatim, integers in decimal with `-` before negatives, `True`/`False`, `None`; `ParseIntDisplay` and `DisplayIntNoColon` state what the integer form promises |
| PyTypes.ParseInt | pydeck/pydeck.py:115 | `int(s)` fails only with ValueError |
| PyTypes.Strip | pydeck/pydeck.py:115 | `int()` ignores surrounding whitespace: the stripped string is never longer and neither starts nor ends with space, tab, line feed, vertical tab, form feed or carriage return |
| PyTypes.ParseIntLeadingSpace | pydeck/pydeck.py:115 | a leading space, tab, line feed, vertical tab, form feed or carriage return does not change what `int()` reads |
| PyTypes.ParseIntAfterSeparator | pydeck/pydeck.py:115 | `int("\x1c1")` raises ValueError: `int()` does not skip U+001C, although `str.isspace()` accepts it |
| PyTypes.ParseIntDisplay | pydeck/pydeck.py:115 | `int(str(n)) == n` for every integer, negatives included |
| PyTypes.ParseIntDigits | pydeck/pydeck.py:115 | a run of digits, with or without a leading `-`, parses to its decimal value |
| PyTypes.DecimalValueOfNat | pydeck/pydeck.py:115 | the digits of `str(n)` read back as `n` |
| PyStr.ReplaceChar | pydeck/utils.py:19 | replacing one character by another keeps the length and maps every position |
| PyStr.ReplaceAbsent | pydeck/pluginmanager.py:96 | `replace` leaves a string without the pattern unchanged |
| PyStr.ReplaceByEmptyShrinks | pydeck/pluginmanager.py:96 | removing every `".py"` never lengthens a name |
| PyStr.Replace | pydeck/pluginmanager.py:96 | `s.replace(pat, rep)`, scanning from the left without overlaps; `ReplaceChar`, `ReplaceAbsent` and `ReplaceByEmptyShrinks` state what its callers rely on |
| PyStr.Split | pydeck/pydeck.py:115 | `split(":")` yields at least one piece and no piece holds the separator |
| PyStr.StartsWith | pydeck/pluginmanager.py:80 | `s.startswith(p)`: `p` is a prefix of `s`; used by `Visible` and the load pass |
| PyStr.SplitPair | pydeck/pydeck.py:115 | `(a + ":" + b).split(":") == [a, b]` when neither piece holds `:` |
| PyStr.SplitNone | pydeck/pydeck.py:115 | a string without the separator splits into itself |
| PyDict.Keys | pydeck/pluginmanager.py:100 | the key list has one key per entry, in order |
| PyDict.IndexOf | pydeck/pluginmanager.py:108 | the first position holding the key, or -1 exactly when the key is absent |
| PyDict.Get | pydeck/pluginmanager.py:108 | `d.get(k)` is Some exactly for keys of `d`, and then the value of `k`'s entry |
| PyDict.Set | pydeck/pluginmanager.py:94-96 | `d[k] = v` keeps an existing key's position or appends a new key, and keeps keys unique |
| PyDict.GetSet | pydeck/pluginmanager.py:94-96 | after `d[k] = v`, `k` maps to `v` and every other key keeps its value |
| PyDict.GetUpdateAll | pydeck/pydeck.py:103 | after `d.update(e)` a key has its last value in `e`, else its old value |
| PyDict.UpdateAll | pydeck/pydeck.py:103 | `d.update(e)` as one `d[k] = v` per entry of `e`, in order; `GetUpdateAll` and `KeysUpdateAll` give its values and keys |
| PyDict.KeysUpdateAll | pydeck/pydeck.py:143 | `d overlaid by e` keeps `d`'s keys in order and holds exactly the keys of both |
| PyDict.LastValueFront | pydeck/pluginmanager.py:126-129 | the last value for a key from the front: the tail's, else the head's |
| PyDict.LastValueSome | pydeck/pluginmanager.py:126-129 | a last value exists exactly for keys that occur |
| PyDict.LastValueUnique | pydeck/pydeck.py:143 | for a dict the last value of a key is its `get` |
| PyDict.UniqueKeysOfKeys | pydeck/pydeck.py:105 | a copy with the same key list is again a dict |
| PyFormat.FieldLength | pydeck/button.py:61 | a field name runs up to the next brace |
| PyFormat.Field | pydeck/button.py:61 | a keyword field present in `kw` becomes `str(kw[name])`; a KeyError names a field missing from `kw` |
| PyFormat.Prepend | pydeck/button.py:61 | a literal prefix in front of a successful expansion, an error passed through; `FormatLiteralPrefix` states it |
| PyFormat.Format | pydeck/button.py:61 | `template.format(**kw)` on literal text, doubled braces and `{name}` fields; the `Format…` lemmas below state its behaviour |
| PyFormat.FormatNoBraces | pydeck/button.py:68 | a template without braces expands to itself under any `kw` |
| PyFormat.FormatLiteralPrefix | pydeck/button.py:61 | literal text is copied to the front of the expansion |
| PyFormat.FormatField | pydeck/button.py:61 | a leading `{name}` becomes `str(kw[name])`, or raises KeyError(name) when `kw` lacks it |
| PyFormat.FieldLengthAt | pydeck/button.py:61 | the field name of `{name}rest` is exactly `name` |
| PyFormat.FormatSingleField | pydeck/button.py:68 | `"{k}".format(**{k: v}) == str(v)` |
| PyFormat.FormatKeyErrorIsMissing | pydeck/button.py:61 | every KeyError names a key absent from `kw` |
| PyFormat.FormatExtend | pydeck/pydeck.py:108 | extra variables never change a successful expansion |
| PyFormat.FormatEscape | pydeck/button.py:61 | a template with every brace doubled expands back to the literal text |
| PyFormat.Escape | pydeck/button.py:61 | literal text as a template, every brace doubled; `FormatEscape` states that it expands back to the text |
| Utils.LastIndexOf | pydeck/utils.py:19 | the position of the last occurrence, or -1 exactly when absent |
| Utils.Normalize | pydeck/utils.py:19 | `name.replace("\\", "/")`; by `ReplaceChar` it keeps the length and turns exactly the backslashes into `/` |
| Utils.BeforeLast | pydeck/utils.py:19 | `s.rsplit(sep, 1)[0]`: the part before the last `sep` as found by `LastIndexOf`, or all of `s` without one; `GetPath` states the result |
| Utils.GetPath | pydeck/utils.py:13-19 | no backslash in the result; a prefix of the normalised name, never longer than the input; exactly the part before the last `/` when there is one, else the whole normalised name |
| Utils.GetPathPlainName | pydeck/utils.py:19 | a name with neither separator is its own `get_path` |
| Utils.GetPathOfJoin | pydeck/pydeck.py:26 | the directory of `dir + "/" + file` is `dir`, normalised |
| Plugin.Instantiate | pydeck/plugin.py:38-41 | a fresh instance has empty `variables` and `actions`, no `config`, and no calls yet |
| Plugin.Load | pydeck/pluginmanager.py:91 | `obj.load()` raises exactly when the plugin's load raises; otherwise its effect is applied and one more load is counted |
| Plugin.Assign | pydeck/plugin.py:32-36 | plugin code reassigning `variables`, `actions` or `config` replaces exactly those mappings and nothing else |
| Plugin.NextUpdate | pydeck/pluginmanager.py:117 | the effect of the next `update()` call is the script's entry for the number of calls so far; after the script, nothing |
| Plugin.Update | pydeck/pluginmanager.py:117 | `plugin.update()` is counted whether or not it raises, reports success exactly when it returns, and keeps what it assigned even when it then raises |
| PluginRegistry.Namespace | pydeck/pluginmanager.py:128 | `{f"{id}__{k}": v for k, v in m.items()}`: entry per local key, and only those |
| PluginRegistry.NamespaceKeys | pydeck/pluginmanager.py:128 | the keys `f"{plugin_id}{PLUGIN_SEP}{k}"` of a plugin's mapping; `Namespace` states it |
| PluginRegistry.LocalPart | pydeck/pluginmanager.py:128 | the local key `k` after `plugin_id` and `"__"`; `Namespace` states it |
| PluginRegistry.Ns | pydeck/pluginmanager.py:128 | `f"{plugin_id}{PLUGIN_SEP}{k}"`; `NsDistinctIds`, `NsContainsSep` and `NsCollision` state when two such keys can meet |
| PluginRegistry.NsDistinctIds | pydeck/pluginmanager.py:128 | equal local keys of different plugins get different namespaced keys |
| PluginRegistry.NsContainsSep | pydeck/pluginmanager.py:20 | every namespaced key contains `"__"` |
| PluginRegistry.Flatten | pydeck/pluginmanager.py:121-131 | the aggregation loop as a function of the (id, mapping) list; `FlattenKeys` and `FlattenLastWriter` give its keys and values |
| PluginRegistry.FlattenKeys | pydeck/pluginmanager.py:121-131 | a key is aggregated iff it is `id + "__" + k` for a registered `id` exposing `k` |
| PluginRegistry.FlattenLastWriter | pydeck/pluginmanager.py:121-131 | an aggregated value comes from the last plugin in order that produces the key (`LastWriterAt`) |
| PluginRegistry.NoLaterWriter | pydeck/pluginmanager.py:121-131 | a key no later plugin produced stays unproduced when one more plugin without it is appended |
| PluginRegistry.NsCollision | pydeck/pluginmanager.py:128 | two plugins clash on a namespaced key only if a local key holds `_` |
| PluginRegistry.NoCollision | pydeck/pluginmanager.py:121-131 | the same underscore-free local key of two plugins is kept apart, each with its own value |
| PluginRegistry.FlattenKeysNamespaced | pydeck/pluginmanager.py:133-143 | every aggregated key contains `"__"` |
| PluginRegistry.Visible | pydeck/pluginmanager.py:79-81 | the entries not skipped are exactly the listing entries not starting with `_`, both directions |
| PluginRegistry.VisibleConcat | pydeck/pluginmanager.py:79-81 | skipping keeps listing order: the visible entries of `a + b` are those of `a`, then those of `b` |
| PluginRegistry.VisibleSingle | pydeck/pluginmanager.py:80-81 | one entry is visible exactly when it does not start with `_` |
| PluginRegistry.RegistryId | pydeck/pluginmanager.py:93-96 | the id a loaded plugin is filed under: its `plugin_id`, else the entry name with `.py` removed; `RegistryIdOfFile` and `RegistryIdOfDirectory` state both cases |
| PluginRegistry.LoadPass | pydeck/pluginmanager.py:75-100 | the load pass from a registry over a listing: registry afterwards, entries consulted, exception raised; characterised by `LoadConsults`, `LoadStopsAtFirstRaise`, `LoadCleanPass`, `LoadPassUpdates`, `LoadLastWins` and `LoadSkipsEntry` |
| PluginRegistry.Registrations | pydeck/pluginmanager.py:90-96 | the id/instance assignments a pass performs, in order, up to an exception; `RegistrationsAreLoaded` and `LoadPassUpdates` state what they are |
| PluginRegistry.LoadConsults | pydeck/pluginmanager.py:79-91 | the loader is asked only about entries not starting with `_`, in order. Unless the loader or a `load()` raises, it is asked about every one of them, past rejected entries |
| PluginRegistry.RaisedBy | pydeck/pluginmanager.py:85-91 | the exception handling a visible entry raises: the loader's own, or that of the plugin's `load()`; none for a rejected or loaded entry |
| PluginRegistry.LoadPassStep | pydeck/pluginmanager.py:79-96 | a visible entry that does not raise is consulted and the pass goes on with the registry `After` it |
| PluginRegistry.LoadPassRaises | pydeck/pluginmanager.py:85-91 | a visible entry that raises ends the pass at once, with its exception and the registry unchanged |
| PluginRegistry.LoadStopsAtFirstRaise | pydeck/pluginmanager.py:79-96 | a pass that raises stops at the last entry it consulted, with that entry's exception, and every entry consulted before it went through (`StopsAtFirstRaise`) |
| PluginRegistry.StopsCons | pydeck/pluginmanager.py:79-96 | consulting an entry that went through, in front of a pass that stops at its first raise, still stops at the first raise |
| PluginRegistry.LoadCleanPass | pydeck/pluginmanager.py:79-96 | a pass that ends normally met no visible entry whose loader or `load()` raises |
| PluginRegistry.LoadPassUpdates | pydeck/pluginmanager.py:79-96 | a load pass is `plugins.update(registrations)` |
| PluginRegistry.RegistrationsAreLoaded | pydeck/pluginmanager.py:90-96 | each registered instance had `load()` called once and `update()` never. It is the loader's class for a non-underscore entry, under the id that entry derives |
| PluginRegistry.ResumeSkipped | pydeck/pluginmanager.py:79-81 | an entry starting with `_` is passed over without consulting the loader |
| PluginRegistry.ResumeMissing | pydeck/pluginmanager.py:85-88 | an entry the loader rejects is consulted and the pass goes on with the same registry |
| PluginRegistry.ResumeLoaderRaised | pydeck/pluginmanager.py:85 | an entry whose loader raises ends the pass with that exception, after that entry is consulted, with the registry as it was |
| PluginRegistry.ResumeRaised | pydeck/pluginmanager.py:90-91 | a plugin whose `load()` raises ends the pass with that exception, after that entry is consulted |
| PluginRegistry.ResumeLoaded | pydeck/pluginmanager.py:90-96 | a loaded plugin is filed under its registry id and the pass goes on |
| PluginRegistry.LoadLastWins | pydeck/pluginmanager.py:93-96 | an id maps to the last registration under it, or keeps its old plugin |
| PluginRegistry.LoadSkipsEntry | pydeck/pluginmanager.py:79-88 | removing an underscore entry or a rejected entry changes neither the registry nor the outcome |
| PluginRegistry.RegistryIdOfFile | pydeck/pluginmanager.py:96 | `stem.py` without `plugin_id` registers as `stem` |
| PluginRegistry.RegistryIdOfDirectory | pydeck/pluginmanager.py:96 | a name without `.py` and without `plugin_id` registers as itself |
| PluginRegistry.Merge | pydeck/pluginmanager.py:111 | `config.update(settings)`: keys of both; the settings' value wins; nothing else of the plugin changes |
| PluginRegistry.SetConfigPass | pydeck/pluginmanager.py:102-111 | `set_config` over the settings in order; `SetConfigKeys`, `SetConfigMerges` and `SetConfigRaises` state its result |
| PluginRegistry.SetConfigKeys | pydeck/pluginmanager.py:107-111 | `set_config` never adds, removes or reorders plugins |
| PluginRegistry.SetConfigMerges | pydeck/pluginmanager.py:107-111 | after a normal `set_config`, a named loaded plugin has its old config merged with its settings. Other plugins are unchanged and unknown ids are ignored |
| PluginRegistry.SetConfigRaises | pydeck/pluginmanager.py:110-111 | `set_config` raises only AttributeError, for a named loaded plugin without `config` |
| PluginRegistry.Failures | pydeck/pluginmanager.py:116-119 | at most one logged failure per plugin |
| PluginRegistry.TickAll | pydeck/pluginmanager.py:113-119 | every plugin after one `update()` each; `TickAllEachOnce` states it |
| PluginRegistry.TickAllEachOnce | pydeck/pluginmanager.py:115-119 | each plugin gets exactly one update, in place and in order, and keeps what that update assigned, also when it raised; each entry depends on its own plugin only, and its published variables are the update's or the old ones |
| PluginRegistry.FailuresStep | pydeck/pluginmanager.py:116-119 | one more plugin logs its name exactly when its update raises |
| PluginRegistry.FailuresLogged | pydeck/pluginmanager.py:116-119 | a name is logged exactly when that plugin's update raised |
| PluginRegistry.RaisingUpdatePublished | pydeck/pluginmanager.py:113-131 | a plugin whose update assigns variables and then raises is logged as failed, and `variables` then publishes what it assigned: there is no rollback |
| PluginRegistry.PluginManager.constructor | pydeck/pluginmanager.py:71-73 | a new registry has the given directory and no plugins |
| PluginRegistry.PluginManager.Load | pydeck/pluginmanager.py:75-100 | the loop leaves exactly the registry, loader calls and exception (the loader's or a `load()`'s) given by `LoadPass` |
| PluginRegistry.PluginManager.SetConfig | pydeck/pluginmanager.py:102-111 | the loop leaves exactly the registry and outcome of `SetConfigPass` |
| PluginRegistry.PluginManager.Update | pydeck/pluginmanager.py:113-119 | the loop leaves `TickAll` of the registry and reports `Failures` |
| PluginRegistry.PluginManager.Variables | pydeck/pluginmanager.py:121-131 | the loop computes `Flatten` of every plugin's variables |
| PluginRegistry.PluginManager.Actions | pydeck/pluginmanager.py:133-143 | the loop computes `Flatten` of every plugin's actions |
| PluginRegistry.VariablesOf | pydeck/pluginmanager.py:126 | `(plugin_id, plugin.variables)` for each item of `self.plugins.items()`, in order; what `Variables` flattens |
| PluginRegistry.ActionsOf | pydeck/pluginmanager.py:138 | `(plugin_id, plugin.actions)` for each item of `self.plugins.items()`, in order; what `Actions` flattens |
| Button.ButtonData.AsDict | pydeck/button.py:42-51 | exactly the keys `text`, `text_align`, `font_family`, `font_size` with the field values; no `action` or `action_args` |
| Button.Or | pydeck/button.py:35-37 | `arg or default` for an optional string: the argument unless it is None or empty; `Construct` states the three uses |
| Button.ImportFromConfig | pydeck/config.py:10-41 | `from pydeck.config import name` succeeds exactly for a name the module binds, else ImportError |
| Button.ImportAsWritten | pydeck/button.py:7 | as written, importing `defaults` from `config.py` raises ImportError |
| Button.ImportCorrected | pydeck/config.py:40-41 | the intended `DEFAULTS` is bound |
| Button.Construct | pydeck/button.py:24-40 | text and action verbatim. Each style is the argument when truthy, else the default. `action_args` is the given map or `{}` |
| Button.Labelled | pydeck/pydeck.py:54-58 | `DeckButton(text)`: `Construct` with only the label given, so default style, no action and no arguments |
| Button.Button.constructor | pydeck/button.py:24-40 | the new button's fields are `Construct` of the arguments |
| Button.Button.FromData | pydeck/pydeck.py:105 | a deep copy of one button holds the same fields |
| Button.Button.Formatted | pydeck/button.py:63-68 | read-only expansion. A label without braces returns itself, and a KeyError names a missing key |
| Button.Button.Format | pydeck/button.py:56-61 | on success the label becomes the prior `formatted`. On failure the label is untouched. No other field changes |
| Deck.LabelAll | pydeck/pydeck.py:64 | one button per given position, in order, each labelled `f"{x}:{y}"` with default style and no action |
| Deck.IdText | pydeck/pydeck.py:64 | the label `f"{x}:{y}"` of a position; `ParseIdText` proves the click parser reads it back |
| Deck.Positions | pydeck/pydeck.py:65-68 | `product(range(rows), range(cols))` row by row; `PositionsLength`, `PositionsMembers`, `PositionsRows` and `PositionsOrder` state it |
| Deck.RowPositions | pydeck/pydeck.py:65-68 | row `x` of the product, `(x, 0)` to `(x, cols - 1)`; `PositionsMembers` and `PositionsOrder` state it |
| Deck.BaseGrid | pydeck/pydeck.py:63-69 | `buttons_base` as `LabelAll` of `Positions`; `BaseGridExact` states it |
| Deck.PositionsLength | pydeck/pydeck.py:65-68 | `product(range(rows), range(cols))` has `rows * cols` positions |
| Deck.PositionsMembers | pydeck/pydeck.py:65-68 | its positions are exactly those with `0 <= x < rows` and `0 <= y < cols` |
| Deck.PositionsRows | pydeck/pydeck.py:65-68 | every position lies in one of the first `rows` rows |
| Deck.OrderedConcat | pydeck/pydeck.py:65-68 | a row appended after earlier rows keeps row-major order |
| Deck.PositionsOrder | pydeck/pydeck.py:65-68 | the positions come in row-major order, as `product` yields them |
| Deck.BaseGridExact | pydeck/pydeck.py:63-69 | all of the above, and the positions are distinct |
| Deck.InitialButtons | pydeck/pydeck.py:53-59 | the five definitions of `Deck.__init__`, in order; `InitialButtonsUnique`, `FirstLabelFails` and `InitialPauseLookup` state what follows from them |
| Deck.InitialButtonsUnique | pydeck/pydeck.py:53-59 | the five definitions have distinct positions |
| Deck.Snapshot | pydeck/pydeck.py:105 | the fields of a dict of buttons, with the same keys |
| Deck.Build | pydeck/pydeck.py:105 | new distinct button objects holding exactly the given fields |
| Deck.FirstFailure | pydeck/pydeck.py:107-108 | every label before it expands, and the label at it fails |
| Deck.Expanded | pydeck/pydeck.py:108 | one button after `format(**kw)`: the label expanded when the expansion succeeds, else unchanged |
| Deck.Rendered | pydeck/pydeck.py:105-108 | `buttons_rendered` after `update()`; `RenderedShape`, `RenderFailure` and `RenderedFrom` state it |
| Deck.RenderResult | pydeck/pydeck.py:105-108 | how `update()` ends; `RenderedShape` and `RenderFailure` state it |
| Deck.RenderedShape | pydeck/pydeck.py:105-108 | the rendered dict has exactly the definitions' keys. The update ends normally iff every label expands, and then each rendered label is its expansion with the other fields copied |
| Deck.RenderFailure | pydeck/pydeck.py:107-108 | on failure: the first failing label's exception; buttons before it formatted, it and later ones raw; a KeyError names a missing variable |
| Deck.FormatTrailingField | pydeck/button.py:61 | `literal + "{name}"` raises KeyError(name) for a missing name |
| Deck.TitleIsKeyword | pydeck/pydeck.py:54 | the field name `media_control_title` of the first shipped label is a plain keyword field without braces |
| Deck.LowerSnakeIsKeyword | pydeck/button.py:61 | a lower-case snake_case name is a plain keyword field |
| Deck.TitleNotPublished | pydeck/pydeck.py:54 | `media_control_title` is never a registry variable: it lacks `"__"` |
| Deck.FirstLabelFails | pydeck/pydeck.py:54 | the first shipped label raises KeyError("media_control_title") under any registry variables |
| Deck.InitialUpdateFails | pydeck/pydeck.py:53-59 | the shipped deck's `update()` always raises KeyError("media_control_title") at the first button, leaving every copy raw |
| Deck.ParseInts | pydeck/pydeck.py:115 | `map(int, parts)` succeeds with one integer per part or raises the first part's ValueError |
| Deck.DisplayIntNoColon | pydeck/pydeck.py:64 | `str(n)` never contains `:` |
| Deck.ParseButtonId | pydeck/pydeck.py:115 | `tuple(map(int, str_id.split(":")))`; `ParseIdText` and `ParseInts` state its results |
| Deck.Lookup | pydeck/pydeck.py:116 | `self.buttons.get(tuple_id)`: only a pair names a position; used by `ClickPosition` |
| Deck.Dispatched | pydeck/pydeck.py:118-120 | the tail of `_handle_click`; `ClickInvokesOnlyRegistered` and `ClickErrors` state what it invokes and raises |
| Deck.Click | pydeck/pydeck.py:110-120 | `_handle_click(data)`; `ClickPosition`, `ClickInvokesOnlyRegistered` and `ClickErrors` state it |
| Deck.ParseIdText | pydeck/pydeck.py:115 | the click parser maps the label `f"{x}:{y}"` back to `(x, y)` |
| Deck.ClickPosition | pydeck/pydeck.py:110-120 | a click on a position's label dispatches that position's button. With no button there, nothing is invoked |
| Deck.ClickInvokesOnlyRegistered | pydeck/pydeck.py:116-120 | whatever the data, only an action a defined button names and the registry holds is invoked, and exactly that callable |
| Deck.ClickErrors | pydeck/pydeck.py:111-120 | a click raises only AttributeError, ValueError, or KeyError for an action the registry lacks |
| Deck.InitialPauseLookup | pydeck/pydeck.py:58 | the button at `(2, 3)` is the pause button, whose action is `media_control_toggle_pause` |
| Deck.PauseHasNoSep | pydeck/pydeck.py:58 | `media_control_toggle_pause` lacks `"__"` |
| Deck.InitialPauseFails | pydeck/pydeck.py:58 | the shipped pause button's single-underscore action raises KeyError under any registry |
| Deck.Event | pydeck/pydeck.py:153-154 | only `type == "click"` reaches `_handle_click`; every other event does nothing |
| Deck.Deck.HandleEvent | pydeck/pydeck.py:150-154 | `/api/event` on the deck's own definitions and actions; `Event` states the guard |
| Deck.Deck.Definitions | pydeck/pydeck.py:48 | the fields of the deck's `self.buttons`, as `Snapshot` gives them; what clicks and events read |
| Deck.Overlay | pydeck/pydeck.py:143 | `base overlaid by rendered` holds every base and rendered position, base order first, rendered winning |
| Deck.Deck.View | pydeck/pydeck.py:143 | `buttons_base` overlaid by `buttons_rendered`; `Overlay` states its keys and values |
| Deck.Entry | pydeck/pydeck.py:35 | `{"id": k}` merged with `v.as_dict()` has exactly `id` and the four display keys with their values |
| Deck.PrepButtons | pydeck/pydeck.py:32-37 | one `"buttons"` list with one entry per input button, in input order |
| Deck.PrepButtonsAsWritten | pydeck/pydeck.py:32-37 | as written (`v.dict()`), it raises AttributeError on every non-empty input |
| Deck.FormatAll | pydeck/pydeck.py:107-108 | formatting the copies in place, in order until the first failure, leaves them holding `Rendered` and returns `RenderResult` |
| Deck.RenderedFrom | pydeck/pydeck.py:107-108 | `Rendered` is the definitions expanded before the first failure and raw from it on |
| Deck.SnapshotHolds | pydeck/pydeck.py:105 | objects hold given fields position by position exactly when their snapshot is those fields |
| Deck.BuildDefinitions | pydeck/pydeck.py:53-59 | the definitions as distinct new buttons |
| Deck.BuildBase | pydeck/pydeck.py:63-69 | the base grid as distinct new buttons, `rows * cols` of them |
| Deck.Deck.constructor | pydeck/pydeck.py:52-77 | the shipped definitions, the 3 x 5 base grid, no rendered buttons, no variables, no actions yet, and a registry at `get_path(__file__) + "/plugins"` |
| Deck.Deck.Run | pydeck/pydeck.py:79-83 | loads the plugins as `LoadPass` says, then takes the registry's actions; a raising load leaves the actions unset |
| Deck.Deck.Update | pydeck/pydeck.py:98-108 | the registry ticked once. Registry variables are merged in with the registry winning and other keys kept. Definitions are untouched. The rendered keys equal the definitions'. Result and copies are as `RenderResult`/`Rendered` say |
| Deck.Deck.Tick | pydeck/pydeck.py:101-103 | the plugins are ticked, then the registry's variables are merged into the deck's |
| Deck.Deck.Render | pydeck/pydeck.py:105-108 | deep copy then format: definitions unchanged, copies as `Rendered` |
| Deck.Deck.ApiButtons | pydeck/pydeck.py:142-144 | the corrected `/api/buttons` payload: one entry per position of `base overlaid by rendered` |
| Deck.Deck.ApiButtonsAsWritten | pydeck/pydeck.py:142-144 | as written, `/api/buttons` always raises AttributeError, because the base grid is never empty |

## Left out

- `_load_module` and `os.listdir` (pydeck/pluginmanager.py:23-59, 77). They are filesystem and import machinery. The listing and the loader are parameters: the loader returns a class, None, or the exception it raises (a file name without a dot, an archive without `Main`, an import error). Its warnings, what it adds to `sys.modules` and `sys.path`, and the import-time `sys.path.append` of the `plugin_libs` directory (pydeck/pluginmanager.py:14-15) are not modelled.
- PluginRegistry.RegistryId: `plugin_id` is read from the plugin class. The source tests `hasattr(obj, "plugin_id")` on the instance after `obj.load()` (pydeck/pluginmanager.py:93-94), so a plugin whose `__init__` or `load()` assigns `self.plugin_id` is filed under that id; the model's plugin code cannot assign it. The bundled plugins either declare `plugin_id` on the class (`system`, `media_control`) or not at all (`builtin`).
- PluginRegistry.TickAll: every raising update is caught and logged. The source catches `Exception` only (pydeck/pluginmanager.py:118), so an update raising a `BaseException` such as SystemExit or KeyboardInterrupt leaves `PluginManager.update`, skips the later plugins and ends the update thread; the model's plugin code raises only ordinary exceptions.
- Plugin.Instantiate: `plugin_main()` is plugin code too, but the model's constructor never raises; a raising `__init__` would end the load pass like a raising `load()`.
- The plugins' bodies: `builtin` reads the clock, `system` launches processes, `media_control` polls over HTTP. A plugin class carries, as data, what its `load()` and its successive `update()` calls do.
- Logging. A failing plugin update is reported as the list of logged names. Debug and info lines are dropped.
- A plugin class without a `name` attribute. Its failing update would make the logging line itself raise. Every bundled plugin declares one, and the model's plugin class always has a name.
- Threads and `_running`, `stop`, the sleep loop and `_run_update_loop` (pydeck/pydeck.py:79-96, 122-124). In the code, an exception from `update()` ends the update thread. The model returns the exception as the result of `Update`.
- Flask: static files, JSON encoding, CORS headers, the `/api/config` route, and request bodies that are not JSON objects. Only the data that `/api/buttons` and `/api/event` compute is modelled.
- Deck.Event: `data` is a JSON object or absent/null. Other JSON values for `data` are not modelled.
- pydeck/config.py: reading the JSON files and merging the configuration. `button.py` imports `defaults`, which that file does not bind (see "## Findings"), so the style defaults, `DEFAULTS["button"]`, are a parameter.
- `plugins_config` in `Deck.__init__`. `run()` never passes it to `set_config`, so it has no effect. `set_config` itself is modelled.
- `Button.icon`, which is declared but never set, and `__repr__`.
- Deck.Entry: as a `map`, so the JSON key order of an entry (`id` first) is not modelled.
- PyFormat.Format: format specs, conversions, and attribute or index fields fail with UnsupportedField instead of being interpreted; this also covers an unterminated field with a spec such as `"{a:b"`, where Python raises ValueError("unmatched '{' in format spec"). A positional index with more digits than `Py_ssize_t` holds gives IndexError here, where Python raises ValueError("Too many decimal digits in format string"). A field name counts as positional only when its digits are ASCII; Python also reads other Unicode decimal digits (such as `{٣}`) as a positional index and raises IndexError, where the model gives KeyError.
- PyTypes.Display: only strings, integers, booleans and None are modelled as values. Floats and containers are not. Python's limit on integer string conversion is not modelled either: `str.format` raises ValueError ("Exceeds the limit (4300 digits) for integer string conversion") for an integer with more than 4300 digits, where `Display` returns the digits, so `Field`, `Format` and `Expanded` succeed for such a value.
- PyTypes.ParseInt: digit-group underscores, non-ASCII digits and non-ASCII whitespace are outside the model. ASCII whitespace is stripped as `int()` does: space and U+0009 to U+000D only, since `int()` does not strip U+001C to U+001F, although `str.isspace()` accepts them. Also outside the model is Python's limit on integer string conversion: `int()` raises ValueError for more than 4300 digits, which the model accepts.
- Deck.Build: it builds one new object per entry, which is `copy.deepcopy` of a dict without shared buttons. The definitions the deck builds never share objects.
- Deck.Dispatched: the invoked callable is returned, not run. What an action does is plugin code.

## Findings

| source | as written | input that shows it | evidently intended | confidence | as-written member | corrected member |
|---|---|---|---|---|---|---|
| pydeck/pydeck.py:35 | `{"id": k}` merged with `v.dict()` calls a method `Button` does not have | any non-empty dict of buttons, e.g. the 3 x 5 base grid that `/api/buttons` always passes | `{"id": k}` merged with `v.as_dict()` (pydeck/button.py:42) | high, not executed | Deck.Deck.ApiButtonsAsWritten | Deck.Deck.ApiButtons |
| pydeck/button.py:7 | `from pydeck.config import defaults`, a name `config.py` does not bind | importing `pydeck.button` at all, as pydeck/pydeck.py:15 does | `from pydeck.config import DEFAULTS` (pydeck/config.py:40-41), with `DEFAULTS["button"]` at lines 35-37 | high, not executed | Button.ImportAsWritten | Button.ImportCorrected |
