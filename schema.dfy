/**
  The schema the program ships, `params_json`, and what the walk makes of it:
  one platform menu with a nested STM32 menu, whose forms are registered
  deepest first, and two `depends_on` guards that, because their paths start
  with `/`, can never hold.
 */
module Schema {
  import opened Values
  import opened Paths
  import opened Depends
  import opened Forms
  import opened Properties

  const PlatformGuard: string := "/menu-platform/config-name == 'stm32'"
  const DeviceGuard: string := "/menu-platform/menu-stm32/config-device == 'STM32F4'"

  const UartItems: Json := JObject([
    ("config-channel", JObject([("type", JStr("string")), ("pattern", JStr("^US?ART\\d$"))])),
    ("config-baud", JObject([("type", JStr("integer")), ("default", JInt(115200))])),
    ("config-alias", JObject([("type", JStr("string"))])),
    ("config-comment", JObject([("type", JStr("string"))]))
  ])

  const DeviceSetting: Json := JObject([
    ("type", JStr("enum")),
    ("values", JArray([JStr("STM32F4"), JStr("STM32L4")])),
    ("help", JStr("Desired device"))
  ])

  const ClockSetting: Json := JObject([
    ("type", JStr("integer")),
    ("depends_on", JStr(DeviceGuard)),
    ("help", JStr("Desired clock, supported only by STM32F4"))
  ])

  const UartSetting: Json := JObject([
    ("type", JStr("array")),
    ("help", JStr("UART configuration")),
    ("key", JStr("config-channel")),
    ("items", UartItems)
  ])

  const NameSetting: Json := JObject([
    ("help", JStr("Desired platform")),
    ("type", JStr("enum")),
    ("values", JArray([JStr("host"), JStr("stm32")]))
  ])

  const Stm32Menu: Json := JObject([
    ("help", JStr("STM32 configuration menu")),
    ("depends_on", JStr(PlatformGuard)),
    ("config-device", DeviceSetting),
    ("config-clock", ClockSetting),
    ("config-uart", UartSetting)
  ])

  const PlatformMenu: Json := JObject([
    ("help", JStr("Platform configuration menu")),
    ("config-name", NameSetting),
    ("menu-stm32", Stm32Menu)
  ])

  /** `params_json`, the schema the main form shows. */
  const Params: Json := JObject([("menu-platform", PlatformMenu)])

  lemma NotPrefix(k: string, p: string)
    requires 0 < |p| && 0 < |k| && k[0] != p[0]
    ensures !HasPrefix(k, p)
  {
    if |p| <= |k| {
      assert k[..|p|][0] == k[0];
    }
  }

  /** How the walk classifies the keys of the shipped schema. */
  lemma KeyKinds()
    ensures !IsConfig("help") && !IsMenu("help")
    ensures !IsConfig("depends_on") && !IsMenu("depends_on")
    ensures IsConfig("config-device") && IsConfig("config-clock") && IsConfig("config-uart") && IsConfig("config-name")
    ensures !IsMenu("config-device") && !IsMenu("config-clock") && !IsMenu("config-uart") && !IsMenu("config-name")
    ensures IsMenu("menu-stm32") && IsMenu("menu-platform")
    ensures !IsConfig("menu-stm32") && !IsConfig("menu-platform")
  {
    NotPrefix("depends_on", "config-");
    NotPrefix("depends_on", "menu-");
    NotPrefix("config-device", "menu-");
    NotPrefix("config-clock", "menu-");
    NotPrefix("config-uart", "menu-");
    NotPrefix("config-name", "menu-");
    NotPrefix("menu-stm32", "config-");
    NotPrefix("menu-platform", "config-");
  }

  /**
    The widgets of the shipped settings: the device and the platform name are
    select-ones over their `values`, the clock an integer field hidden by its
    guard, and the UART table, whose type the walk does not know, a text
    field titled with its key.
   */
  lemma SettingWidgets()
    ensures ConfigWidget("config-device", DeviceSetting) ==
            Some(Widget(SelectOne(JArray([JStr("STM32F4"), JStr("STM32L4")])), JStr("Desired device"), false, Unset))
    ensures ConfigWidget("config-clock", ClockSetting) ==
            Some(Widget(Text, JStr("Desired clock, supported only by STM32F4"), true, Unset))
    ensures ConfigWidget("config-uart", UartSetting) ==
            Some(Widget(Text, JStr("config-uart"), false, Unset))
    ensures ConfigWidget("config-name", NameSetting) ==
            Some(Widget(SelectOne(JArray([JStr("host"), JStr("stm32")])), JStr("Desired platform"), false, Unset))
  {
    assert "type"[0] != "help"[0];
    var clock := ClockSetting.entries;
    assert Get(clock, "type") == Some(JStr("integer"));
    assert Get(clock[1..], "depends_on") == Some(JStr(DeviceGuard));
    assert HasKey(clock, "depends_on");
    assert Get(clock[2..], "help") == Some(JStr("Desired clock, supported only by STM32F4"));
    assert Get(clock, "help") == Get(clock[1..], "help") == Get(clock[2..], "help");
    var uart := UartSetting.entries;
    assert Get(uart, "type") == Some(JStr("array"));
    assert Get(uart[1..], "depends_on") == Get(uart[2..], "depends_on") == Get(uart[3..], "depends_on") == None;
    assert !HasKey(uart, "depends_on");
  }

  lemma Stm32Walks()
    ensures LevelOk(Stm32Menu) && Skeleton(Stm32Menu) == JObject([])
  {
    KeyKinds();
    SettingWidgets();
    assert EntriesOk(Stm32Menu, 0);
    assert EntryOk("help", JStr("STM32 configuration menu"));
    assert EntriesOk(Stm32Menu, 1);
    assert EntriesOk(Stm32Menu, 2);
    assert EntriesOk(Stm32Menu, 3);
    assert EntriesOk(Stm32Menu, 4);
    assert EntriesOk(Stm32Menu, 5);
    assert Fill([], Stm32Menu, 0) == [];
    assert Fill([], Stm32Menu, 1) == [];
    assert Fill([], Stm32Menu, 2) == [];
    assert Fill([], Stm32Menu, 3) == [];
    assert Fill([], Stm32Menu, 4) == [];
    assert Fill([], Stm32Menu, 5) == [];
  }

  lemma PlatformWalks()
    ensures LevelOk(PlatformMenu) && Skeleton(PlatformMenu) == JObject([("menu-stm32", JObject([]))])
  {
    KeyKinds();
    SettingWidgets();
    Stm32Walks();
    assert EntriesOk(PlatformMenu, 0);
    assert EntryOk("help", JStr("Platform configuration menu"));
    assert EntriesOk(PlatformMenu, 1);
    assert EntriesOk(PlatformMenu, 2);
    assert EntryOk("menu-stm32", Stm32Menu);
    assert EntriesOk(PlatformMenu, 3);
    assert Fill([], PlatformMenu, 0) == [];
    assert Fill([], PlatformMenu, 1) == [];
    assert Fill([], PlatformMenu, 2) == [];
    assert Fill([], PlatformMenu, 3) == [("menu-stm32", JObject([]))];
  }

  /**
    Walking the shipped schema raises nothing, and the tree it leaves in the
    empty `cfg_json` holds the two menus and no setting.
   */
  lemma ParamsWalk()
    ensures LevelOk(Params)
    ensures Skeleton(Params) == JObject([("menu-platform", JObject([("menu-stm32", JObject([]))]))])
  {
    KeyKinds();
    PlatformWalks();
    assert EntriesOk(Params, 0);
    assert EntryOk("menu-platform", PlatformMenu);
    assert EntriesOk(Params, 1);
    assert Fill([], Params, 0) == [];
    assert Fill([], Params, 1) == [("menu-platform", Skeleton(PlatformMenu))];
  }

  /**
    The forms the walk of the shipped schema registers: the STM32 menu's form
    first, because a child form is constructed, and builds its own children,
    before its parent registers it; then the platform menu's.
   */
  lemma ParamsRegistry()
    ensures Registry(Params, [], |Params.entries|) ==
            [(["menu-platform", "menu-stm32"], Stm32Menu), (["menu-platform"], PlatformMenu)]
  {
    KeyKinds();
    var p := ["menu-platform", "menu-stm32"];
    assert ["menu-platform"] + ["menu-stm32"] == p;
    assert Registry(Stm32Menu, p, 0) == [];
    assert Registry(Stm32Menu, p, 1) == [];
    assert Registry(Stm32Menu, p, 2) == [];
    assert Registry(Stm32Menu, p, 3) == [];
    assert Registry(Stm32Menu, p, 4) == [];
    assert Registry(Stm32Menu, p, 5) == [];
    assert RegistryEntry(["menu-platform"], "menu-stm32", Stm32Menu) == [(p, Stm32Menu)];
    assert Registry(PlatformMenu, ["menu-platform"], 0) == [];
    assert Registry(PlatformMenu, ["menu-platform"], 1) == [];
    assert Registry(PlatformMenu, ["menu-platform"], 2) == [];
    assert Registry(PlatformMenu, ["menu-platform"], 3) == [(p, Stm32Menu)];
    assert [] + ["menu-platform"] == ["menu-platform"];
    assert RegistryEntry([], "menu-platform", PlatformMenu) == [(p, Stm32Menu), (["menu-platform"], PlatformMenu)];
    assert Registry(Params, [], 0) == [];
  }

  /** The STM32 form's table: every key of its level in order, a widget for each setting only. */
  lemma Stm32Table()
    ensures WidgetTable(Stm32Menu.entries, 5) == [
      ("help", Slot(JStr("STM32 configuration menu"), None)),
      ("depends_on", Slot(JStr(PlatformGuard), None)),
      ("config-device", Slot(DeviceSetting, ConfigWidget("config-device", DeviceSetting))),
      ("config-clock", Slot(ClockSetting, ConfigWidget("config-clock", ClockSetting))),
      ("config-uart", Slot(UartSetting, ConfigWidget("config-uart", UartSetting)))
    ]
  {
    KeyKinds();
    var e := Stm32Menu.entries;
    assert UniqueKeys(e);
    TableFollowsSchema(e, 5);
  }

  /**
    Neither guard of the shipped schema ever holds, whatever the tree holds
    and whatever `eval` does, as long as the tree has no key "": the path
    text before `==` starts with `/`, so its first segment is "".
   */
  lemma ShippedGuardsNeverHold(cfg: Json, pyEval: string -> Option<Json>)
    requires !Index(cfg, "").Some?
    ensures EvalDepends(cfg, PlatformGuard, pyEval) == JBool(false)
    ensures EvalDepends(cfg, DeviceGuard, pyEval) == JBool(false)
  {
    LeadingSlashNeverHolds(cfg, PlatformGuard, pyEval);
    LeadingSlashNeverHolds(cfg, DeviceGuard, pyEval);
  }

  /** No tree a walk builds from the shipped schema has the key "" at its top. */
  lemma ParamsTreeHasNoEmptyKey()
    ensures !Index(Skeleton(Params), "").Some?
  {
    ParamsWalk();
  }
}
