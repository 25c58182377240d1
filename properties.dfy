/**
  What `create` and `while_editing` promise about a form, stated over the
  functions the methods of `Forms` are proved against: the table follows the
  schema key by key, only settings get widgets, each sub-menu gets its own
  dictionary and nothing else is stored during construction, and editing
  writes the widgets' values back under the settings' keys and nowhere else.
 */
module Properties {
  import opened Values
  import opened Paths
  import opened Forms

  /** A key cannot be both a sub-menu and a setting. */
  lemma MenuNotConfig(k: string)
    requires IsMenu(k)
    ensures !IsConfig(k)
  {
    assert k[0] == k[..5][0] == 'm';
  }

  /** The walk of a level raises exactly when the pass for one of its entries raises. */
  lemma {:induction false} EntriesOkAll(v: Json, n: nat)
    requires v.JObject? && n <= |v.entries|
    ensures EntriesOk(v, n) <==> forall i :: 0 <= i < n ==> EntryOk(v.entries[i].0, v.entries[i].1)
    decreases n
  {
    if n > 0 {
      EntriesOkAll(v, n - 1);
    }
  }

  /** `create` succeeds on a level exactly when every entry's pass does. */
  lemma LevelOkAll(v: Json)
    requires v.JObject?
    ensures LevelOk(v) <==> forall i :: 0 <= i < |v.entries| ==> EntryOk(v.entries[i].0, v.entries[i].1)
  {
    EntriesOkAll(v, |v.entries|);
  }

  /**
    The pass for a setting raises exactly when its entry is not a dictionary,
    has no `type`, is an `enum` without `help` or `values`, or is an `integer`
    without `help`. Otherwise its widget is a select-one over `values` titled
    with `help` for an `enum`, a text field titled with `help` for an
    `integer`, and a text field titled with the key for any other type; it is
    hidden exactly when the entry has `depends_on`, and it starts unset.
   */
  lemma ConfigWidgetCases(k: string, c: Json)
    ensures ConfigWidget(k, c).None? <==>
              !c.JObject? || !HasKey(c.entries, "type") ||
              (Get(c.entries, "type").value == JStr("enum") &&
               (!HasKey(c.entries, "help") || !HasKey(c.entries, "values"))) ||
              (Get(c.entries, "type").value == JStr("integer") && !HasKey(c.entries, "help"))
    ensures ConfigWidget(k, c).Some? ==>
              var w := ConfigWidget(k, c).value;
              var t := Get(c.entries, "type").value;
              (t == JStr("enum") ==> w.kind == SelectOne(Get(c.entries, "values").value)
                                      && w.title == Get(c.entries, "help").value) &&
              (t == JStr("integer") ==> w.kind == Text && w.title == Get(c.entries, "help").value) &&
              (t != JStr("enum") && t != JStr("integer") ==> w.kind == Text && w.title == JStr(k)) &&
              (w.hidden <==> HasKey(c.entries, "depends_on")) &&
              w.value == Unset
  {
  }

  /**
    On a level without repeated keys the table lists every key exactly once,
    in schema order, each with its schema entry and the widget its pass
    created.
   */
  lemma {:induction false} TableFollowsSchema(e: Dict<Json>, n: nat)
    requires UniqueKeys(e) && n <= |e|
    ensures |WidgetTable(e, n)| == n
    ensures forall i :: 0 <= i < n ==> WidgetTable(e, n)[i] == (e[i].0, SlotFor(e[i].0, e[i].1))
  {
    if n > 0 {
      var prev := WidgetTable(e, n - 1);
      var k := e[n - 1].0;
      TableFollowsSchema(e, n - 1);
      KeysAt(prev);
      forall j | 0 <= j < |prev|
        ensures Keys(prev)[j] != k
      {
        assert Keys(prev)[j] == e[j].0;
      }
      PutAbsent(prev, k, SlotFor(k, e[n - 1].1));
    }
  }

  /**
    In the table of a level walked without an exception, an entry has a
    widget exactly when its key is a setting, and that widget is the one the
    entry describes.
   */
  lemma OnlySettingsHaveWidgets(v: Json, i: nat)
    requires LevelOk(v) && UniqueKeys(v.entries) && i < |v.entries|
    ensures |WidgetTable(v.entries, |v.entries|)| == |v.entries|
    ensures var w := WidgetTable(v.entries, |v.entries|);
            w[i].0 == v.entries[i].0 && w[i].1.schema == v.entries[i].1 &&
            (w[i].1.widget.Some? <==> IsConfig(v.entries[i].0)) &&
            (IsConfig(v.entries[i].0) ==> w[i].1.widget == ConfigWidget(v.entries[i].0, v.entries[i].1))
  {
    TableFollowsSchema(v.entries, |v.entries|);
    EntriesOkAll(v, |v.entries|);
    assert EntryOk(v.entries[i].0, v.entries[i].1);
  }

  /** After the walk, a sub-menu key of the level holds the tree its child form built. */
  lemma {:induction false} FillMenu(d: Dict<Json>, v: Json, n: nat, i: nat)
    requires v.JObject? && UniqueKeys(v.entries) && i < n <= |v.entries| && IsMenu(v.entries[i].0)
    ensures Get(Fill(d, v, n), v.entries[i].0) == Some(Skeleton(v.entries[i].1))
    decreases n
  {
    var k := v.entries[i].0;
    var (k', c') := v.entries[n - 1];
    var prev := Fill(d, v, n - 1);
    if i == n - 1 {
      MenuNotConfig(k);
      GetPutSame(prev, k, Skeleton(c'));
    } else {
      FillMenu(d, v, n - 1, i);
      assert k' != k;
      if !IsConfig(k') && IsMenu(k') {
        GetPutOther(prev, k', Skeleton(c'), k);
      }
    }
  }

  /**
    The walk stores nothing under any other key: a setting, a plain key like
    `help`, or a sub-menu key the level does not have keeps what the dictionary
    held before.
   */
  lemma {:induction false} FillOther(d: Dict<Json>, v: Json, n: nat, k: string)
    requires v.JObject? && n <= |v.entries|
    requires !IsMenu(k) || forall i :: 0 <= i < n ==> v.entries[i].0 != k
    ensures Get(Fill(d, v, n), k) == Get(d, k)
    decreases n
  {
    if n > 0 {
      var (k', c') := v.entries[n - 1];
      FillOther(d, v, n - 1, k);
      if !IsConfig(k') && IsMenu(k') {
        GetPutOther(Fill(d, v, n - 1), k', Skeleton(c'), k);
      }
    }
  }

  /** A new form's dictionary holds no setting once its `create` is done. */
  lemma SkeletonHasNoSettings(c: Json, k: string)
    requires IsConfig(k)
    ensures !HasKey(Skeleton(c).entries, k)
  {
    if c.JObject? {
      assert !IsMenu(k) by {
        if IsMenu(k) {
          MenuNotConfig(k);
        }
      }
      FillOther([], c, |c.entries|, k);
    }
  }

  /** After `while_editing`, each setting of the table maps to its widget's value. */
  lemma {:induction false} CopyBackSetting(d: Dict<Json>, w: Dict<Slot>, n: nat, i: nat)
    requires ConfigSlotsFilled(w) && UniqueKeys(w) && i < n <= |w| && IsConfig(w[i].0)
    ensures Get(CopyBack(d, w, n), w[i].0) == Some(w[i].1.widget.value.value)
    decreases n
  {
    var prev := CopyBack(d, w, n - 1);
    var k := w[i].0;
    if i == n - 1 {
      GetPutSame(prev, k, w[i].1.widget.value.value);
    } else {
      CopyBackSetting(d, w, n - 1, i);
      assert w[n - 1].0 != k;
      if IsConfig(w[n - 1].0) {
        GetPutOther(prev, w[n - 1].0, w[n - 1].1.widget.value.value, k);
      }
    }
  }

  /**
    `while_editing` leaves every other key as it was: sub-menu keys, plain
    keys, and settings the table does not list.
   */
  lemma {:induction false} CopyBackOther(d: Dict<Json>, w: Dict<Slot>, n: nat, k: string)
    requires ConfigSlotsFilled(w) && n <= |w|
    requires !IsConfig(k) || forall i :: 0 <= i < n ==> w[i].0 != k
    ensures Get(CopyBack(d, w, n), k) == Get(d, k)
    decreases n
  {
    if n > 0 {
      CopyBackOther(d, w, n - 1, k);
      if IsConfig(w[n - 1].0) {
        GetPutOther(CopyBack(d, w, n - 1), w[n - 1].0, w[n - 1].1.widget.value.value, k);
      }
    }
  }

  /** A value the user gives the widget of a setting is what `while_editing` stores under that setting. */
  lemma EditReachesConfig(d: Dict<Json>, w: Dict<Slot>, name: string, value: Json)
    requires UniqueKeys(w) && ConfigSlotsFilled(w) && IsConfig(name) && HasKey(w, name)
    ensures ConfigSlotsFilled(SetWidgetValue(w, name, value))
    ensures var w' := SetWidgetValue(w, name, value);
            Get(CopyBack(d, w', |w'|), name) == Some(value)
  {
    var s := Get(w, name).value;
    GetFound(w, name);
    var i :| 0 <= i < |w| && w[i] == (name, s);
    assert s.widget.Some?;
    var s' := Slot(s.schema, Some(s.widget.value.(value := value)));
    var w' := SetWidgetValue(w, name, value);
    assert w' == Put(w, name, s');
    SetWidgetValueValid(w, name, value);
    GetPutSame(w, name, s');
    GetFound(w', name);
    var j :| 0 <= j < |w'| && w'[j] == (name, s');
    CopyBackSetting(d, w', |w'|, j);
  }

  /**
    Every form a walk registers sits strictly below the walking form: its
    path extends the walking form's path by at least one key.
   */
  lemma {:induction false} RegistryBelow(v: Json, path: seq<string>, n: nat)
    requires v.JObject? && n <= |v.entries|
    ensures forall j :: 0 <= j < |Registry(v, path, n)| ==>
              |Registry(v, path, n)[j].0| > |path| && IsPrefix(path, Registry(v, path, n)[j].0)
    decreases v, n
  {
    if n > 0 {
      var (k, c) := v.entries[n - 1];
      RegistryBelow(v, path, n - 1);
      RegistryEntryBelow(path, k, c);
      var a: seq<(seq<string>, Json)> := Registry(v, path, n - 1);
      var b: seq<(seq<string>, Json)> := RegistryEntry(path, k, c);
      assert Registry(v, path, n) == a + b;
      forall j | 0 <= j < |a + b|
        ensures |(a + b)[j].0| > |path| && IsPrefix(path, (a + b)[j].0)
      {
        if j < |a| {
          assert (a + b)[j] == a[j];
        } else {
          assert (a + b)[j] == b[j - |a|];
        }
      }
    }
  }

  lemma {:induction false} RegistryEntryBelow(path: seq<string>, k: string, c: Json)
    ensures forall j :: 0 <= j < |RegistryEntry(path, k, c)| ==>
              |RegistryEntry(path, k, c)[j].0| > |path| && IsPrefix(path, RegistryEntry(path, k, c)[j].0)
    decreases c, Len(c) + 2
  {
    if !IsConfig(k) && IsMenu(k) && c.JObject? {
      var child := path + [k];
      var a: seq<(seq<string>, Json)> := Registry(c, child, |c.entries|);
      RegistryBelow(c, child, |c.entries|);
      assert RegistryEntry(path, k, c) == a + [(child, c)];
      forall j | 0 <= j < |a| + 1
        ensures |(a + [(child, c)])[j].0| > |path| && IsPrefix(path, (a + [(child, c)])[j].0)
      {
        var q := (a + [(child, c)])[j].0;
        if j < |a| {
          assert q == a[j].0;
          PrefixTrans(path, child, q);
        } else {
          assert q == child;
          assert child[..|path|] == path;
        }
      }
    }
  }

  lemma PrefixTrans(a: seq<string>, b: seq<string>, c: seq<string>)
    requires IsPrefix(a, b) && IsPrefix(b, c)
    ensures IsPrefix(a, c)
  {
    assert c[..|a|] == c[..|b|][..|a|];
  }
}
