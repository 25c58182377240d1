/**
  The schema interpreter of `MainForm`: `create` walks one level of the schema,
  makes a widget for every `config-*` key, an empty configuration
  sub-dictionary and a child form for every `menu-*` key, and records every
  key in the form's `widgets` table; `while_editing` copies the value of every
  `config-*` widget into the form's configuration dictionary.

  A child form is handed the very sub-dictionary its parent just stored, so
  all forms write into one tree. The model keeps that tree in the `App`
  object and gives each form the path of its own dictionary in it: the
  form's `cfg_obj` is `Lookup(app.cfg, path)`.
 */
module Forms {
  import opened Values
  import opened Paths

  predicate HasPrefix(k: string, p: string)
  {
    |p| <= |k| && k[..|p|] == p
  }

  /** `k.startswith('config-')`: a leaf setting. */
  predicate IsConfig(k: string)
  {
    HasPrefix(k, "config-")
  }

  /** `k.startswith('menu-')`: a sub-menu. */
  predicate IsMenu(k: string)
  {
    HasPrefix(k, "menu-")
  }

  /** The two npyscreen widget classes the walk adds: TitleSelectOne and TitleText. */
  datatype WidgetKind = SelectOne(choices: Json) | Text

  /** An npyscreen widget, abstracted to what the walk sets and reads. */
  datatype Widget = Widget(kind: WidgetKind, title: Json, hidden: bool, value: Json)

  /** An entry `(v, w)` of a form's `widgets` table; `w` is None except for `config-*` keys. */
  datatype Slot = Slot(schema: Json, widget: Option<Widget>)

  /** The value of a widget before the user has touched it (npyscreen's own default is not modelled). */
  const Unset: Json := JNull

  /**
    The widget `create` adds for the `config-*` entry `k: v`, or None where
    Python raises: `v` is not a dictionary, or lacks `type`, or is an `enum`
    without `help` or `values`, or an `integer` without `help`.
   */
  function ConfigWidget(k: string, v: Json): Option<Widget>
  {
    if !v.JObject? then None
    else
      var t := Get(v.entries, "type");
      var hidden := HasKey(v.entries, "depends_on");
      var help := Get(v.entries, "help");
      if t.None? then None
      else if t.value == JStr("enum") then
        var choices := Get(v.entries, "values");
        if help.None? || choices.None? then None
        else Some(Widget(SelectOne(choices.value), help.value, hidden, Unset))
      else if t.value == JStr("integer") then
        if help.None? then None
        else Some(Widget(Text, help.value, hidden, Unset))
      else Some(Widget(Text, JStr(k), hidden, Unset))
  }

  /** The table entry `create` records for the schema entry `k: v`. */
  function SlotFor(k: string, v: Json): Slot
  {
    Slot(v, if IsConfig(k) then ConfigWidget(k, v) else None)
  }

  function Len(v: Json): nat
  {
    if v.JObject? then |v.entries| else 0
  }

  /** Walking the schema level `v`, and every level below it, raises no exception. */
  predicate LevelOk(v: Json)
    decreases v, Len(v) + 1
  {
    v.JObject? && EntriesOk(v, |v.entries|)
  }

  /** The first n entries of the level `v` are walked without an exception. */
  predicate EntriesOk(v: Json, n: nat)
    requires v.JObject? && n <= |v.entries|
    decreases v, n
  {
    n == 0 || (EntriesOk(v, n - 1) && EntryOk(v.entries[n - 1].0, v.entries[n - 1].1))
  }

  /** One pass of the loop, for the schema entry `k: c`, raises no exception. */
  predicate EntryOk(k: string, c: Json)
    decreases c, Len(c) + 2
  {
    if IsConfig(k) then ConfigWidget(k, c).Some?
    else if IsMenu(k) then c.JObject? && HasKey(c.entries, "help") && LevelOk(c)
    else true
  }

  lemma {:induction false} EntriesOkPrefix(v: Json, m: nat, n: nat)
    requires v.JObject? && m <= n <= |v.entries|
    ensures EntriesOk(v, n) ==> EntriesOk(v, m)
    decreases n
  {
    if m < n {
      EntriesOkPrefix(v, m, n - 1);
    }
  }

  /** The `widgets` table `create` has built after the first n schema entries `e`. */
  function WidgetTable(e: Dict<Json>, n: nat): Dict<Slot>
    requires n <= |e|
  {
    if n == 0 then []
    else Put(WidgetTable(e, n - 1), e[n - 1].0, SlotFor(e[n - 1].0, e[n - 1].1))
  }

  /**
    The configuration dictionary `d` after the first n entries of the level
    `v` were walked: each `menu-*` key is set to the tree its child form builds.
   */
  function Fill(d: Dict<Json>, v: Json, n: nat): Dict<Json>
    requires v.JObject? && n <= |v.entries|
    decreases v, n
  {
    if n == 0 then d
    else FillEntry(Fill(d, v, n - 1), v.entries[n - 1].0, v.entries[n - 1].1)
  }

  /** The configuration dictionary `d` after the loop's pass for the schema entry `k: c`. */
  function FillEntry(d: Dict<Json>, k: string, c: Json): Dict<Json>
    decreases c, Len(c) + 2
  {
    if !IsConfig(k) && IsMenu(k) then Put(d, k, Skeleton(c)) else d
  }

  /** The tree a form for the level `c` builds in the empty dictionary it is given. */
  function Skeleton(c: Json): Json
    decreases c, Len(c) + 1
  {
    JObject(if c.JObject? then Fill([], c, |c.entries|) else [])
  }

  /**
    The forms created while walking the first n entries of the level `v` held
    at `path`, as (path, schema level) in the order they are added to the
    application.
   */
  function Registry(v: Json, path: seq<string>, n: nat): seq<(seq<string>, Json)>
    requires v.JObject? && n <= |v.entries|
    decreases v, n
  {
    if n == 0 then []
    else Registry(v, path, n - 1) + RegistryEntry(path, v.entries[n - 1].0, v.entries[n - 1].1)
  }

  /**
    The forms created by the loop's pass for the schema entry `k: c`: for a
    menu, the child form's own children and then the child form, which is
    constructed, building its children, before it is added.
   */
  function RegistryEntry(path: seq<string>, k: string, c: Json): seq<(seq<string>, Json)>
    decreases c, Len(c) + 2
  {
    if !IsConfig(k) && IsMenu(k) && c.JObject? then
      Registry(c, path + [k], |c.entries|) + [(path + [k], c)]
    else []
  }

  /** Every `config-*` key of a table holds a widget. */
  predicate ConfigSlotsFilled(w: Dict<Slot>)
  {
    forall i :: 0 <= i < |w| && IsConfig(w[i].0) ==> w[i].1.widget.Some?
  }

  /** The configuration dictionary `d` after `while_editing` went over the first n entries of the table `w`. */
  function CopyBack(d: Dict<Json>, w: Dict<Slot>, n: nat): Dict<Json>
    requires n <= |w| && ConfigSlotsFilled(w)
  {
    if n == 0 then d
    else
      var prev := CopyBack(d, w, n - 1);
      if IsConfig(w[n - 1].0) then Put(prev, w[n - 1].0, w[n - 1].1.widget.value.value) else prev
  }

  /** The table after the user set the widget under `name` to `value`. */
  function SetWidgetValue(w: Dict<Slot>, name: string, value: Json): Dict<Slot>
  {
    var s := Get(w, name);
    if s.Some? && s.value.widget.Some? then
      Put(w, name, Slot(s.value.schema, Some(s.value.widget.value.(value := value))))
    else w
  }

  /** The table of a level walked without an exception is a valid `widgets` table. */
  lemma {:induction false} TableValid(v: Json, n: nat)
    requires v.JObject? && n <= |v.entries| && EntriesOk(v, n)
    ensures UniqueKeys(WidgetTable(v.entries, n)) && ConfigSlotsFilled(WidgetTable(v.entries, n))
  {
    if n > 0 {
      var (k, c) := v.entries[n - 1];
      TableValid(v, n - 1);
      assert EntryOk(k, c);
      PutSlotValid(WidgetTable(v.entries, n - 1), k, SlotFor(k, c));
    }
  }

  /** Storing a slot that has a widget whenever its key is a `config-*` key keeps a table valid. */
  lemma PutSlotValid(w: Dict<Slot>, k: string, s: Slot)
    requires UniqueKeys(w) && ConfigSlotsFilled(w)
    requires IsConfig(k) ==> s.widget.Some?
    ensures UniqueKeys(Put(w, k, s)) && ConfigSlotsFilled(Put(w, k, s))
  {
    PutUnique(w, k, s);
    PutMembers(w, k, s);
    var r := Put(w, k, s);
    forall i | 0 <= i < |r| && IsConfig(r[i].0) ensures r[i].1.widget.Some? {
      assert r[i] in r;
      if r[i] != (k, s) {
        var j :| 0 <= j < |w| && w[j] == r[i];
      }
    }
  }

  /**
    The two writes a menu key causes in the parent's dictionary `cfg` at `p`:
    `cfg_obj[k] = {}` by the parent, then the child form's tree `x` into that
    sub-dictionary, add up to one write of `x` under `k`.
   */
  lemma MenuWrite(r0: Json, p: seq<string>, a: Json, cfg: Dict<Json>, k: string, x: Json)
    requires Lookup(r0, p).Some?
    ensures var r1 := SetAt(SetAt(r0, p, a), p, JObject(Put(cfg, k, JObject([]))));
            Lookup(r1, p + [k]) == Some(JObject([])) &&
            SetAt(r1, p + [k], x) == SetAt(r0, p, JObject(Put(cfg, k, x)))
  {
    var r1 := SetAt(SetAt(r0, p, a), p, JObject(Put(cfg, k, JObject([]))));
    SetAtSetAt(r0, p, a, JObject(Put(cfg, k, JObject([]))));
    GetPutSame(cfg, k, JObject([]));
    SetAtChild(r1, p, Put(cfg, k, JObject([])), k, x);
    PutPut(cfg, k, JObject([]), x);
    SetAtSetAt(r0, p, JObject(Put(cfg, k, JObject([]))), JObject(Put(cfg, k, x)));
  }

  /** The table after the user's edit is still valid. */
  lemma SetWidgetValueValid(w: Dict<Slot>, name: string, value: Json)
    requires UniqueKeys(w) && ConfigSlotsFilled(w)
    ensures UniqueKeys(SetWidgetValue(w, name, value)) && ConfigSlotsFilled(SetWidgetValue(w, name, value))
  {
    var s := Get(w, name);
    if s.Some? && s.value.widget.Some? {
      PutSlotValid(w, name, Slot(s.value.schema, Some(s.value.widget.value.(value := value))));
    }
  }

  /**
    The application: the global configuration tree `cfg_json` that every form
    writes into, and the forms registered with `addForm`, in the order they
    were added.
   */
  class App {
    var cfg: Json
    var forms: seq<Form>

    constructor ()
      ensures cfg == JObject([]) && forms == []
    {
      cfg := JObject([]);
      forms := [];
    }
  }

  class Form {
    /** `params_obj`: the schema level this form shows. */
    const params: Json
    /** The application the form belongs to; `parentApp`. */
    const app: App
    /** Where `cfg_obj` sits in `app.cfg`; the last segment is the form's id `my_f_id`. */
    const path: seq<string>
    /** `widgets`: every key of the level, in order, with its widget or None. */
    var widgets: Dict<Slot>

    /** The part of `__init__` that sets the form's own fields, before `create` runs. */
    constructor (params: Json, app: App, path: seq<string>)
      ensures this.params == params && this.app == app && this.path == path
      ensures widgets == []
    {
      this.params := params;
      this.app := app;
      this.path := path;
      widgets := [];
    }

    ghost predicate Valid()
      reads this
    {
      UniqueKeys(widgets) && ConfigSlotsFilled(widgets)
    }

    /** `cfg_obj` is a dictionary of the shared tree. */
    predicate HasCfg()
      reads this, app
    {
      Lookup(app.cfg, path).Some? && Lookup(app.cfg, path).value.JObject?
    }

    /**
      `create`: walks the schema level. On success the table is the one the
      schema determines, the shared tree differs only in this form's
      dictionary, which gained the skeleton of every sub-menu, and the
      application's registry gained the forms of every sub-menu, each walked,
      in the order they were added. On `ok == false` Python has raised; the
      registry has still only grown.
     */
    method Create(ghost reg: seq<(seq<string>, Json)>) returns (ok: bool, ghost added: seq<Form>)
      requires params.JObject? && widgets == [] && HasCfg()
      requires Built(app.forms, app, reg) && this !in app.forms
      modifies this, app
      ensures app.forms == old(app.forms) + added && fresh(added)
      ensures ok == LevelOk(params)
      ensures ok ==> Valid() && widgets == WidgetTable(params.entries, |params.entries|)
      ensures ok ==> app.cfg == SetAt(old(app.cfg), path,
                                      JObject(Fill(old(Lookup(app.cfg, path)).value.entries, params, |params.entries|)))
      ensures ok ==> Built(app.forms, app, reg + Registry(params, path, |params.entries|))
      decreases params, 1
    {
      ghost var root0 := app.cfg;
      ghost var d0 := Lookup(app.cfg, path).value.entries;
      ghost var forms0 := app.forms;
      SetAtSame(root0, path);
      assert reg + [] == reg && forms0 + [] == forms0;
      added := [];
      var i := 0;
      while i < |params.entries|
        invariant 0 <= i <= |params.entries| && EntriesOk(params, i)
        invariant widgets == WidgetTable(params.entries, i)
        invariant app.cfg == SetAt(root0, path, JObject(Fill(d0, params, i)))
        invariant Built(app.forms, app, reg + Registry(params, path, i))
        invariant app.forms == forms0 + added && fresh(added) && this !in app.forms
      {
        var (k, v) := params.entries[i];
        ghost var r := Registry(params, path, i);
        var entryOk, slot, more := WalkEntry(k, v, reg + r);
        Assoc(forms0, added, more);
        added := added + more;
        if !entryOk {
          EntriesOkPrefix(params, i + 1, |params.entries|);
          return false, added;
        }
        widgets := Put(widgets, k, slot);
        SetAtSetAt(root0, path, JObject(Fill(d0, params, i)), JObject(Fill(d0, params, i + 1)));
        assert Registry(params, path, i + 1) == r + RegistryEntry(path, k, v);
        Assoc(reg, r, RegistryEntry(path, k, v));
        i := i + 1;
      }
      TableValid(params, i);
      ok := true;
    }

    /**
      One pass of `create`'s loop, for the schema entry `k: v`: the widget of
      a `config-*` key, or the sub-menu of a `menu-*` key; the result is the
      entry the pass records in the table.
     */
    method WalkEntry(k: string, v: Json, ghost reg: seq<(seq<string>, Json)>)
        returns (ok: bool, slot: Slot, ghost added: seq<Form>)
      requires HasCfg() && Built(app.forms, app, reg)
      modifies app
      ensures app.forms == old(app.forms) + added && fresh(added)
      ensures ok == EntryOk(k, v)
      ensures ok ==> slot == SlotFor(k, v)
      ensures ok ==> app.cfg == SetAt(old(app.cfg), path,
                                      JObject(FillEntry(old(Lookup(app.cfg, path)).value.entries, k, v)))
      ensures ok ==> Built(app.forms, app, reg + RegistryEntry(path, k, v))
      decreases v, 3
    {
      var w: Option<Widget> := None;
      added := [];
      if IsConfig(k) {
        w := ConfigWidget(k, v);
        if w.None? {
          return false, Slot(v, w), added;
        }
      } else if IsMenu(k) {
        ok, added := AddMenu(k, v, reg);
        if !ok {
          return false, Slot(v, w), added;
        }
      }
      if !IsMenu(k) || IsConfig(k) {
        SetAtSame(app.cfg, path);
        assert reg + [] == reg && app.forms + [] == app.forms;
      }
      return true, Slot(v, w), added;
    }

    /**
      The `menu-*` branch of the loop: `cfg_obj[k] = {}`, then `v['help']`,
      then the child form, constructed over that empty sub-dictionary and
      walked before `addForm` registers it.
     */
    method AddMenu(k: string, v: Json, ghost reg: seq<(seq<string>, Json)>) returns (ok: bool, ghost added: seq<Form>)
      requires HasCfg() && Built(app.forms, app, reg)
      modifies app
      ensures app.forms == old(app.forms) + added && fresh(added)
      ensures ok == (v.JObject? && HasKey(v.entries, "help") && LevelOk(v))
      ensures ok ==> app.cfg == SetAt(old(app.cfg), path,
                                      JObject(Put(old(Lookup(app.cfg, path)).value.entries, k, Skeleton(v))))
      ensures ok ==> Built(app.forms, app, reg + (Registry(v, path + [k], |v.entries|) + [(path + [k], v)]))
      decreases v, 2
    {
      ghost var root0 := app.cfg;
      added := [];
      assert app.forms + [] == app.forms;
      var cfg := Lookup(app.cfg, path).value.entries;
      app.cfg := SetAt(app.cfg, path, JObject(Put(cfg, k, JObject([]))));
      if !(v.JObject? && HasKey(v.entries, "help")) {
        return false, added;
      }
      MenuWrite(root0, path, JObject(cfg), cfg, k, Skeleton(v));
      SetAtSame(root0, path);
      var child := new Form(v, app, path + [k]);
      ok, added := child.Create(reg);
      if !ok {
        return false, added;
      }
      ghost var r := Registry(v, path + [k], |v.entries|);
      BuiltSnoc(app.forms, app, reg + r, child, (path + [k], v));
      app.forms := app.forms + [child];
      Assoc(old(app.forms), added, [child]);
      Assoc(reg, r, [(path + [k], v)]);
      added := added + [child];
    }

    /**
      `while_editing`: every `config-*` key of the table now maps, in this
      form's dictionary, to its widget's current value; nothing else in the
      shared tree changes.
     */
    method WhileEditing()
      requires Valid() && HasCfg()
      modifies app
      ensures app.forms == old(app.forms)
      ensures app.cfg == SetAt(old(app.cfg), path,
                               JObject(CopyBack(old(Lookup(app.cfg, path)).value.entries, widgets, |widgets|)))
    {
      ghost var root0 := app.cfg;
      ghost var d0 := Lookup(app.cfg, path).value.entries;
      SetAtSame(root0, path);
      var i := 0;
      while i < |widgets|
        invariant 0 <= i <= |widgets|
        invariant app.forms == old(app.forms)
        invariant app.cfg == SetAt(root0, path, JObject(CopyBack(d0, widgets, i)))
      {
        var name := widgets[i].0;
        var data := widgets[i].1;
        if IsConfig(name) {
          var cfg := Lookup(app.cfg, path).value.entries;
          SetAtSetAt(root0, path, JObject(cfg), JObject(Put(cfg, name, data.widget.value.value)));
          app.cfg := SetAt(app.cfg, path, JObject(Put(cfg, name, data.widget.value.value)));
        }
        i := i + 1;
      }
    }

    /** The user sets the widget under `name` to `value` (npyscreen's editing loop). */
    method Input(name: string, value: Json)
      requires Valid()
      modifies this
      ensures Valid()
      ensures widgets == SetWidgetValue(old(widgets), name, value)
    {
      SetWidgetValueValid(widgets, name, value);
      widgets := SetWidgetValue(widgets, name, value);
    }
  }

  lemma Assoc<T>(a: seq<T>, b: seq<T>, c: seq<T>)
    ensures a + b + c == a + (b + c)
  {
  }

  /** The form `f` belongs to `app`, shows the schema level `entry.1` held at `entry.0`, and has been walked. */
  ghost predicate Walked(f: Form, app: App, entry: (seq<string>, Json))
    reads f
  {
    f.app == app && f.path == entry.0 && f.params == entry.1 &&
    LevelOk(f.params) && f.widgets == WidgetTable(f.params.entries, |f.params.entries|)
  }

  /** The forms `fs` are the ones the registry `reg` lists, in order, each already walked. */
  ghost predicate Built(fs: seq<Form>, app: App, reg: seq<(seq<string>, Json)>)
    reads fs
  {
    |fs| == |reg| && forall i :: 0 <= i < |fs| ==> Walked(fs[i], app, reg[i])
  }

  lemma BuiltSnoc(fs: seq<Form>, app: App, reg: seq<(seq<string>, Json)>, f: Form, e: (seq<string>, Json))
    requires Built(fs, app, reg) && Walked(f, app, e)
    ensures Built(fs + [f], app, reg + [e])
  {
    forall i | 0 <= i < |fs| + 1
      ensures Walked((fs + [f])[i], app, (reg + [e])[i])
    {
      if i < |fs| {
        assert (fs + [f])[i] == fs[i] && (reg + [e])[i] == reg[i];
      }
    }
  }

  /** Each form a registry lists has a valid table. */
  lemma BuiltValid(fs: seq<Form>, app: App, reg: seq<(seq<string>, Json)>, i: nat)
    requires Built(fs, app, reg) && i < |fs|
    ensures fs[i].Valid()
  {
    TableValid(fs[i].params, |fs[i].params.entries|);
  }
}
