# tcore_cli menu interpreter, modelled in Dafny

`menus.py` builds a terminal configuration menu out of a nested JSON
schema. There are three kinds of key:

- A `config-*` key is a setting. Each setting gets a widget: a select-one for
  an `enum`, otherwise a text field. It is hidden when it has `depends_on`.
- A `menu-*` key is a sub-menu. Each sub-menu gets an empty dictionary in the
  global configuration tree `cfg_json`, and a child form that walks the
  sub-menu's own level.
- Every key of a level, of whatever kind, is recorded in the form's `widgets`
  table in schema order.

While the user edits a form, `while_editing` copies every setting's widget
value into the form's dictionary. `get_json_val` resolves a `/`-separated
path in a tree. `eval_depends` evaluates a `depends_on` guard with a regular
expression and Python's `eval`; every exception fails closed to `False`.

The project holds six modules, each in its own file.

| module (file) | what it models |
|---|---|
| `Values` (values.dfy) | JSON values and Python dictionaries, as association lists in insertion order |
| `Paths` (paths.dfy) | `str.split('/')`, the path walk of `get_json_val`, and writes through a path into the shared tree |
| `Depends` (depends.dfy) | `re.search('(.*?)(==)(.*)', …)` exactly as Python matches it, and `eval_depends` over an abstract `eval` |
| `Forms` (forms.dfy) | the `MainForm` class and the application. `Create`, `WalkEntry` and `AddMenu` are `create`'s loop; `WhileEditing` is the copy loop. Each is proved against a specification function: `WidgetTable`, `Fill`/`Skeleton`, `Registry` and `CopyBack` |
| `Properties` (properties.dfy) | what those specification functions promise, key by key |
| `Schema` (schema.dfy) | the schema `params_json` shipped in `menus.py`, and what the walk makes of it |

How the model represents the program:

- **One shared tree.** A child form receives the very dictionary its parent
  has just stored under the menu key, so all forms write into one tree. The
  model keeps that tree in `App.cfg`. Each `Form` records the `path` of its
  own `cfg_obj` in it. Every write `cfg_obj[k] = x` becomes a write through
  `Paths.SetAt` at that path.
- **Registered forms.** `App.forms` lists the forms `addForm` has
  registered, in the order it registered them. A child form is constructed,
  and its `create` runs, before `addForm` registers it. So the forms of a
  sub-menu's own sub-menus precede it in the list.
- **Exceptions.** A Python exception is `None`, or a returned `ok == false`.
- **`eval`.** Python's `eval` is a parameter `pyEval: string -> Option<Json>`:
  a function of the text alone (see `Depends.EvalDepends` under "Left out").
- **The `==` token.** The text `eval_depends` builds uses regex group 2,
  which is the `==` token itself, exactly as the code does. The text is
  therefore `val + val + ' == =='`.
- **The shipped guards.** Both guards in the shipped schema start with `/`,
  so the looked-up path's first segment is "". As written, neither guard can
  ever hold (`Schema.ShippedGuardsNeverHold`). The call of `eval_depends` in
  `create` is commented out, so this is not observable in the program.

What the code does, and the model with it:

- The code does not re-evaluate dependencies when a value changes.
- The code creates no widget and deletes none after construction.
- A widget with `depends_on` is still created; it is only hidden.
- A setting gets no entry in the configuration tree until `while_editing`
  runs.
- The value stored for a setting is whatever its widget holds. The model does
  not interpret it as a string, an enum member or a number.

## Model

| member | source | states |
|---|---|---|
| Values.Keys | menus.py:112 | a dictionary has one key per entry, listed in iteration order |
| Values.KeysAt | menus.py:112 | the i-th key in iteration order is the key of the i-th entry |
| Values.Get | menus.py:67 | `d[k]`: the value of the entry holding `k`, None where Python raises KeyError (its properties are in `Values.GetNone`, `Values.GetFound` and `Values.GetAt`) |
| Values.Put | menus.py:141 | `d[k] = v`: the entry holding `k` replaced in place, or a new entry appended (its properties are in `Values.PutKeys`, `Values.PutAbsent`, `Values.GetPutSame` and `Values.GetPutOther`) |
| Values.GetNone | menus.py:67 | `d[k]` raises exactly when `k` is not among the keys of `d` |
| Values.GetFound | menus.py:67 | a value `d[k]` yields is stored in `d` under `k` |
| Values.GetAt | menus.py:67 | in a dictionary without repeated keys, `d[k]` is the value of the entry holding `k` |
| Values.PutKeys | menus.py:141 | `d[k] = v` keeps the order of the existing keys, and appends `k` at the end exactly when it is new |
| Values.PutAbsent | menus.py:141 | assigning a new key appends the entry at the end |
| Values.GetPutSame | menus.py:146 | after `d[k] = v`, `d[k]` is `v` |
| Values.GetPutOther | menus.py:146 | `d[k] = v` leaves every other key's value unchanged |
| Values.PutPut | menus.py:130 | a second assignment to the same key replaces the first, in place |
| Values.PutGet | menus.py:130 | writing back a key's own value changes nothing |
| Values.PutUnique | menus.py:141 | assignment never creates a repeated key |
| Values.PutMembers | menus.py:141 | after assignment, every entry is either the new one or an old one |
| Paths.Split | menus.py:66 | `path.split('/')` is never empty, and no segment contains `/` |
| Paths.JoinSplit | menus.py:66 | joining the segments with `/` gives back the path |
| Paths.SplitJoin | menus.py:66 | splitting segments that contain no `/`, once joined, gives back the segments |
| Paths.Index | menus.py:67 | `val[it]`: a dictionary's value under the key, None where Python raises TypeError or KeyError (its properties are in `Paths.IndexCases`) |
| Paths.IndexCases | menus.py:67 | `val[it]` succeeds exactly when `val` is a dictionary with `it` among its keys, and then yields a value stored under `it` |
| Paths.Lookup | menus.py:66-67 | the fold of `val = val[it]` over the segments, None once a step raises (its properties are in the lemmas below) |
| Paths.GetJsonVal | menus.py:64-69 | the loop's result is the left-to-right fold of indexing over the split path; on KeyError or TypeError it is None |
| Paths.LookupAppend | menus.py:66-67 | folding a concatenated path means folding its first part, then the rest from the value found |
| Paths.LookupStopsAtMissing | menus.py:66-67 | once a segment is missing, the walk fails, whatever the later segments are |
| Paths.LookupFailureHasMissing | menus.py:66-67 | a failed walk has a first missing segment, and every segment before it was found |
| Paths.LeadingSlashLookup | menus.py:66-67 | a path starting with `/` fails unless the root holds the key "" |
| Paths.SetAt | menus.py:130 | after writing `v` at a position of the tree, reading that position gives `v` |
| Paths.LookupBelowSetAt | menus.py:135 | reading below a written position reads inside the written value |
| Paths.SetAtSame | menus.py:130 | writing the value already at a position leaves the tree as it was |
| Paths.SetAtSetAt | menus.py:146 | a second write at the same position replaces the first |
| Paths.SetAtChild | menus.py:135 | the child's dictionary is the parent's entry under the menu key, so writing into it is writing that key in the parent's dictionary |
| Paths.SetAtFrame | menus.py:146 | a write at one position leaves every position off its branch unchanged |
| Depends.Operand | menus.py:75-76 | the string `get_json_val(cfg_json, s[1])` finds, or None when the pattern does not match, the lookup raises, or the value is not a string, so that `val + str(val)` raises TypeError (used by `Depends.EvalDepends` and `Depends.IgnoresTextAfterOperator`) |
| Depends.EvalText | menus.py:76 | the text handed to `eval` for a string `val`: `val + str(val) + ' == ' + s[2]`, with group 2 always `==` |
| Depends.FindEq | menus.py:74 | the result is the first `==` at or after the start position, or None when there is none |
| Depends.LineStart | menus.py:74 | the result is the start of the line holding the position |
| Depends.LineEnd | menus.py:74 | the result is the end of the line holding the position |
| Depends.Search | menus.py:74 | None exactly when no line holds `==`. Otherwise the match has the leftmost start, a shortest first group with no line break, group 2 `==`, and a greedy group 3 running to the end of that line |
| Depends.EvalDepends | menus.py:72-78 | the result is `False` unless the pattern matched, the path was found and holds a string, and `eval` succeeded. Then the result is `eval`'s value on `val + val + ' == =='` |
| Depends.PathBeforeFirstEq | menus.py:74-75 | for a guard `p==x` where `p` has no `=` and no line break, the looked-up path is exactly `p` |
| Depends.IgnoresTextAfterOperator | menus.py:74-76 | for every path text `p`, the guards `p==x` and `p==y` both match and yield the same operand, so `eval` is handed the same text whatever follows the first `==`, the literal included |
| Depends.FindEqPrefix | menus.py:74 | the first `==` found depends only on the text up to and including it |
| Depends.LineStartPrefix | menus.py:74 | where the first group starts depends only on the text before the `==` |
| Depends.LeadingSlashNeverHolds | menus.py:72-78 | a one-line guard starting with `/` gives `False` for any `eval`, unless the tree holds the key "" |
| Forms.IsConfig | menus.py:114 | `k.startswith('config-')` |
| Forms.IsMenu | menus.py:128 | `k.startswith('menu-')` |
| Forms.ConfigWidget | menus.py:116-126 | the widget of a setting's entry, or None where Python raises (its cases are in `Properties.ConfigWidgetCases`) |
| Forms.SlotFor | menus.py:141 | the pair `(v, w)` a pass records: the entry and its widget for a setting, the entry and None for any other key |
| Forms.EntryOk | menus.py:113-141 | one pass raises nothing: a setting gets its widget, and a sub-menu is a dictionary with `help` whose own level walks without raising |
| Forms.EntriesOk | menus.py:112-141 | the first n passes of the loop raise nothing (`Properties.EntriesOkAll`) |
| Forms.LevelOk | menus.py:104-141 | `create` on a level, and on every level below it, raises nothing (`Properties.LevelOkAll`) |
| Forms.WidgetTable | menus.py:141 | the `widgets` table after the first n passes (`Properties.TableFollowsSchema`) |
| Forms.Fill | menus.py:130-135 | a form's dictionary after the first n passes (`Properties.FillMenu`, `Properties.FillOther`) |
| Forms.FillEntry | menus.py:130-135 | one pass's change to the form's dictionary: a sub-menu key set to its child's tree, nothing for any other key |
| Forms.Skeleton | menus.py:130-135 | the tree a child form builds in the empty dictionary it is given (`Properties.SkeletonHasNoSettings`) |
| Forms.Registry | menus.py:133-135 | the forms the first n passes register, in order (`Properties.RegistryBelow`, `Schema.ParamsRegistry`) |
| Forms.RegistryEntry | menus.py:133-135 | the forms one sub-menu pass registers: the child's own forms, then the child |
| Forms.CopyBack | menus.py:144-146 | the form's dictionary after the copy loop went over the first n table entries (`Properties.CopyBackSetting`, `Properties.CopyBackOther`) |
| Forms.SetWidgetValue | menus.py:146 | the table after the user set one widget's value (`Properties.EditReachesConfig`) |
| Forms.App.constructor | menus.py:61 | the configuration tree `cfg_json` starts as an empty dictionary, and no form is registered |
| Forms.Form.constructor | menus.py:89-100 | a form starts with its schema level, its place in the tree and an empty `widgets` table |
| Forms.Form.Create | menus.py:112-141 | `create` succeeds exactly when every entry's pass succeeds. On success: the table is `WidgetTable`; the form's dictionary gained the `Fill` of its level and nothing else in the tree changed; every form registered meanwhile is walked and listed in `Registry` order. On failure: the registry only grew |
| Forms.Form.WalkEntry | menus.py:113-141 | one pass succeeds exactly when `EntryOk`. On success it records the entry's slot, and changes the tree only by the `FillEntry` of that key |
| Forms.Form.AddMenu | menus.py:128-135 | the menu branch succeeds exactly when the entry is a dictionary with `help` whose own walk succeeds. On success the key holds the child's skeleton, and the child's forms are registered, then the child itself |
| Forms.Form.WhileEditing | menus.py:143-146 | the form's dictionary becomes `CopyBack` of the table, the rest of the tree is unchanged, and no form is registered |
| Forms.Form.Input | menus.py:146 | the user's edit sets the value that `while_editing` reads from the widget, and the table stays valid |
| Forms.EntriesOkPrefix | menus.py:112 | if a later entry of the walk is reached, every earlier entry's pass succeeded |
| Forms.TableValid | menus.py:141 | the table of a level walked without an exception has no repeated key, and every setting in it has a widget |
| Forms.PutSlotValid | menus.py:141 | recording a slot that holds a widget whenever its key is a setting keeps the table valid |
| Forms.MenuWrite | menus.py:130-135 | `cfg_obj[k] = {}` followed by the child's writes into that dictionary adds up to one write of the child's tree under `k` |
| Forms.SetWidgetValueValid | menus.py:146 | an edit keeps the table valid |
| Forms.BuiltSnoc | menus.py:133-135 | registering one more walked form extends the registry by its entry |
| Forms.BuiltValid | menus.py:133-135 | every registered form has a valid table |
| Properties.MenuNotConfig | menus.py:114-128 | no key is both a sub-menu and a setting |
| Properties.EntriesOkAll | menus.py:112-141 | the first n passes succeed exactly when each of them does |
| Properties.LevelOkAll | menus.py:112-141 | `create` raises exactly when the pass for some entry raises |
| Properties.ConfigWidgetCases | menus.py:114-126 | a setting's pass raises exactly when the entry is not a dictionary, has no `type`, is an `enum` without `help` or `values`, or an `integer` without `help`. Otherwise its widget is: enum, a select-one over `values` titled with `help`; integer, a text field titled with `help`; any other type, a text field titled with the key. It is hidden exactly when `depends_on` is present |
| Properties.TableFollowsSchema | menus.py:112-141 | the table lists every key of the level once, in schema order, each with its schema entry and the widget its pass made |
| Properties.OnlySettingsHaveWidgets | menus.py:113-141 | on a level walked without an exception, an entry has a widget exactly when its key is a setting |
| Properties.FillMenu | menus.py:128-135 | after the walk, each sub-menu key holds the tree its child built, starting from an empty dictionary |
| Properties.FillOther | menus.py:112-141 | the walk changes no other key: settings, plain keys like `help`, and sub-menus the level lacks keep their old values |
| Properties.SkeletonHasNoSettings | menus.py:128-135 | the dictionary a child form builds during construction holds no setting |
| Properties.CopyBackSetting | menus.py:144-146 | after `while_editing`, each setting in the table maps to its widget's value |
| Properties.CopyBackOther | menus.py:144-146 | `while_editing` leaves every other key unchanged: sub-menus, plain keys, and settings the table lacks |
| Properties.EditReachesConfig | menus.py:144-146 | a value the user gives a setting's widget is the value `while_editing` stores under that setting |
| Properties.RegistryBelow | menus.py:133-135 | every form a walk registers sits strictly below the walking form in the tree |
| Properties.RegistryEntryBelow | menus.py:133-135 | the forms one sub-menu entry registers sit below the walking form |
| Schema.KeyKinds | menus.py:114-128 | how `startswith` classifies each key of the shipped schema |
| Schema.SettingWidgets | menus.py:116-126 | the widgets of the four shipped settings. The device and the platform name are select-ones over their `values`. The clock is a hidden text field titled with its `help`. The UART table is a text field titled `config-uart` |
| Schema.Stm32Walks | menus.py:19-57 | the STM32 level walks without an exception and adds nothing to its empty dictionary |
| Schema.PlatformWalks | menus.py:10-58 | the platform level walks without an exception and leaves `{"menu-stm32": {}}` |
| Schema.ParamsWalk | menus.py:9-59 | `params_json` walks without an exception, and leaves `{"menu-platform": {"menu-stm32": {}}}` in the empty tree |
| Schema.ParamsRegistry | menus.py:133-135 | for `params_json`, the STM32 form is registered first, then the platform form |
| Schema.Stm32Table | menus.py:141 | the STM32 form's table: all five keys in order, with a widget only for the three settings |
| Schema.ShippedGuardsNeverHold | menus.py:22-32 | neither shipped guard holds, whatever `eval` does, if the tree has no key "" |
| Schema.ParamsTreeHasNoEmptyKey | menus.py:130 | the tree built from `params_json` has no key "" at its top |

## Left out

- The npyscreen user interface is not modelled: the debug box, the back and enter buttons, `switchForm`, `DISPLAY`, layout arguments such as `max_height` and `scroll_exit`, and the `debug.value` update in `while_editing`. It is presentation with no bearing on the configuration tree.
- `SwitchFormButton`, `TestApp`, `TestApp2` (with `onStart` and `onCleanExit`) and the main guard are not modelled. They are application bootstrap and UI glue. The shipped schema is modelled as `Schema.Params`.
- The commented-out code is not modelled: `process_menu`, `MyTestApp`, the second `MainForm`, and the `eval_depends` call at line 125. None of it runs.
- Depends.EvalDepends: Python's `eval` is modelled as a function of the text alone that returns a `Json` or raises. The real call at line 76 also sees the caller's scope (`depends_str`, `s`, `val`, the global `cfg_json`) and may change state. A tree value such as `s[3]#` therefore makes the result depend on the text after `==`, and a value such as `cfg_json.clear()#` empties the tree; neither is captured. What the model does promise is that the text handed to `eval` is the same whatever follows the first `==` (`Depends.IgnoresTextAfterOperator`).
- JSON parsing (`json.loads`) is left out, and so are floating-point numbers. The shipped schema is written out as a `Json` value.
- The initial value npyscreen gives a widget is not modelled. Widgets start as `Unset`, and the user's editing is abstracted as `Form.Input`.
- npyscreen keeps its forms in a dictionary keyed by form id, where a second form with the same id replaces the first. The model lists registered forms in order; it does not model replacement by id.
- Forms.Form.Create: after an exception it states only that the registry grew, not the partial tree and table. In Python the exception ends the program.
- Forms.Form.WalkEntry: after an exception it states only that the registry grew.
- Forms.Form.AddMenu: after an exception it states only that the registry grew. The partial write `cfg_obj[k] = {}` that precedes a missing `help` is not stated.
- Dependency re-evaluation, widget creation and deletion after construction, and change notifications are not modelled. This code does not implement them.
