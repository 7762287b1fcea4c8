/** The settings of a profile: the sanitizer that follows the tree of defaults, and the fields
    that are migrated or clamped besides. */
module ProfileSettings {
  import opened Options

  /** A parsed value; `Missing` is an absent field. */
  datatype Json = Missing | Null | Flag(on: bool) | Number(value: real) | Text(text: string) | List(items: seq<Json>) | Record(fields: seq<JsonField>)

  datatype JsonField = JsonField(key: string, value: Json)

  function FieldIn(fields: seq<JsonField>, key: string): Json {
    if fields == [] then Missing else if fields[0].key == key then fields[0].value else FieldIn(fields[1..], key)
  }

  /** A field of a record; nothing else has any. */
  function Field(j: Json, key: string): Json {
    if j.Record? then FieldIn(j.fields, key) else Missing
  }

  predicate IsTextWithin(j: Json, max: nat) {
    j.Text? && |j.text| <= max
  }

  /** The permitted values of the settings that are one of a few. */
  type Choices = string -> Option<set<string>>

  function ChildPath(path: string, key: string): string {
    if path == "" then key else path + "." + key
  }

  function SanitizeNode(choices: Choices, input: Json, fallback: Json, path: string): Json
    decreases fallback
  {
    match fallback
    case Flag(_) => if input.Flag? then input else fallback
    case Number(_) => if input.Number? && -1000000.0 <= input.value <= 1000000.0 then input else fallback
    case Text(_) =>
      if IsTextWithin(input, 65536) && (choices(path).None? || input.text in choices(path).value) then input else fallback
    case List(_) =>
      if input.List? && |input.items| <= 100 && forall i | 0 <= i < |input.items| :: IsTextWithin(input.items[i], 1024) then input else fallback
    case Record(fields) => Record(SanitizeFields(choices, input, fields, path))
    case Missing => fallback
    case Null => fallback
  }

  function SanitizeFields(choices: Choices, input: Json, fields: seq<JsonField>, path: string): seq<JsonField>
    decreases fields
  {
    if fields == [] then []
    else
      [JsonField(fields[0].key, SanitizeNode(choices, Field(input, fields[0].key), fields[0].value, ChildPath(path, fields[0].key)))]
      + SanitizeFields(choices, input, fields[1..], path)
  }

  // ---- The sanitizer is idempotent ----

  /** No record of the tree has a key twice. */
  predicate WellKeyed(j: Json)
    decreases j
  {
    j.Record? ==> FieldsKeyed(j.fields)
  }

  predicate FieldsKeyed(fields: seq<JsonField>)
    decreases fields
  {
    fields != [] ==> WellKeyed(fields[0].value) && HasNoKey(fields[1..], fields[0].key) && FieldsKeyed(fields[1..])
  }

  predicate HasNoKey(fields: seq<JsonField>, key: string) {
    forall i | 0 <= i < |fields| :: fields[i].key != key
  }

  /** A sanitized field, looked up again. */
  lemma {:induction false} SanitizedField(choices: Choices, input: Json, fields: seq<JsonField>, path: string, i: nat)
    requires FieldsKeyed(fields) && i < |fields|
    ensures FieldIn(SanitizeFields(choices, input, fields, path), fields[i].key)
         == SanitizeNode(choices, Field(input, fields[i].key), fields[i].value, ChildPath(path, fields[i].key))
  {
    if i > 0 {
      SanitizedField(choices, input, fields[1..], path, i - 1);
      assert fields[1..][i - 1] == fields[i];
    }
  }

  /** Sanitizing against any tree of defaults twice is sanitizing once. */
  lemma {:induction false} SanitizeTwice(choices: Choices, input: Json, fallback: Json, path: string)
    requires WellKeyed(fallback)
    ensures SanitizeNode(choices, SanitizeNode(choices, input, fallback, path), fallback, path) == SanitizeNode(choices, input, fallback, path)
    decreases fallback
  {
    if fallback.Record? {
      FieldsTwice(choices, input, fallback.fields, path, 0);
    }
  }

  lemma {:induction false} FieldsTwice(choices: Choices, input: Json, fields: seq<JsonField>, path: string, i: nat)
    requires FieldsKeyed(fields) && i <= |fields|
    ensures var once := Record(SanitizeFields(choices, input, fields, path));
      SanitizeFields(choices, once, fields[i..], path) == SanitizeFields(choices, input, fields[i..], path)
    decreases fields, |fields| - i
  {
    if i < |fields| {
      KeyedAt(fields, i);
      SanitizedField(choices, input, fields, path, i);
      assert fields[i] in fields;
      SanitizeTwice(choices, Field(input, fields[i].key), fields[i].value, ChildPath(path, fields[i].key));
      FieldsTwice(choices, input, fields, path, i + 1);
      assert fields[i..][1..] == fields[i + 1..];
    }
  }

  lemma {:induction false} KeyedAt(fields: seq<JsonField>, i: nat)
    requires FieldsKeyed(fields) && i < |fields|
    ensures WellKeyed(fields[i].value)
  {
    if i > 0 {
      KeyedAt(fields[1..], i - 1);
    }
  }

  // ---- Numbers ----

  function Round(x: real): real {
    (x + 0.5).Floor as real
  }

  function Bound(x: real, low: real, high: real): real {
    if x < low then low else if x > high then high else x
  }

  lemma {:induction false} RoundWhole(n: int)
    ensures Round(n as real) == n as real
  {
    var floor := (n as real + 0.5).Floor;
    assert floor as real <= n as real + 0.5 < floor as real + 1.0;
    assert n as real - 0.5 < floor as real < n as real + 1.0;
  }

  /** The number a stored limit stands for, if it is finite. */
  type ToNumber = Json -> Option<real>

  function SanitizeRam(toNumber: ToNumber, j: Json, fallback: real): real {
    match toNumber(j)
    case None => fallback
    case Some(x) => Bound(Round(x / 256.0) * 256.0, 1024.0, 32768.0)
  }

  /** A multiple of 256 in the range. */
  ghost predicate IsRamLimit(x: real) {
    1024.0 <= x <= 32768.0 && exists n: int :: x == (n * 256) as real
  }

  lemma {:induction false} RamIsLimit(toNumber: ToNumber, j: Json, fallback: real)
    requires IsRamLimit(fallback)
    ensures IsRamLimit(SanitizeRam(toNumber, j, fallback))
  {
    if toNumber(j).Some? {
      var n := (toNumber(j).value / 256.0 + 0.5).Floor;
      var x := Round(toNumber(j).value / 256.0) * 256.0;
      assert x == (n * 256) as real;
      assert 1024.0 == (4 * 256) as real && 32768.0 == (128 * 256) as real;
    }
  }

  lemma {:induction false} RamTwice(toNumber: ToNumber, x: real, fallback: real)
    requires IsRamLimit(x) && toNumber(Number(x)) == Some(x)
    ensures SanitizeRam(toNumber, Number(x), fallback) == x
  {
    var n: int :| x == (n * 256) as real;
    assert x / 256.0 == n as real;
    RoundWhole(n);
  }

  // ---- The settings with special treatment ----

  /** The settings; `tree` stands for the sections that only the sanitizer touches.  The next three
      to last are the legacy fields that are read once and dropped; `hasAdvanced` says whether there is
      an advanced section. */
  datatype Settings = Settings(
    tree: Json, cleanToolbarIcons: Json, labs: seq<Json>, ramLimitMb: Json, layoutMode: Json, experimentalFeatures: Json,
    panelWidth: Json, menuWidth: Json, menuHeight: Json, background: Json, permissions: seq<Permission>,
    backgroundStyle: Json, ramManagementMode: Json, maxActiveWebviews: Json, hasAdvanced: bool)

  /** A stored site permission: whether its fields pass, its workspace if that is an id, and its date. */
  datatype Permission = Permission(valid: bool, workspaceId: Option<string>, workspaceValid: bool, updatedAt: Option<real>, token: string)

  /** The defaults, the permitted values, the legacy backgrounds and the conversion of numbers. */
  datatype Basis = Basis(
    defaults: Settings, choices: Choices, legacyBackground: string -> Option<string>, toNumber: ToNumber, ramFallback: real)

  const LABS: nat := 6

  ghost predicate BasisOk(b: Basis) {
    && WellKeyed(b.defaults.tree)
    && b.defaults.cleanToolbarIcons.Flag?
    && |b.defaults.labs| == LABS && (forall i | 0 <= i < LABS :: b.defaults.labs[i].Flag?)
    && b.defaults.layoutMode.Text? && b.defaults.experimentalFeatures.Flag? && b.defaults.background.Text?
    && b.defaults.panelWidth.Number? && b.defaults.menuWidth.Number? && b.defaults.menuHeight.Number?
    && IsRamLimit(b.ramFallback)
    && (forall x: real :: b.toNumber(Number(x)) == Some(x))
    && (b.choices("layoutMode").Some? ==> "horizontal" in b.choices("layoutMode").value)
  }

  /** A saved profile keeps the old defaults for the features it predates. */
  function Preserved(existing: bool, j: Json): Json {
    if existing && !j.Flag? then Flag(false) else j
  }

  function LabAt(s: Settings, i: nat): Json {
    if i < |s.labs| then s.labs[i] else Missing
  }

  function Labs(b: Basis, existing: bool, s: Settings): seq<Json>
    requires |b.defaults.labs| == LABS
  {
    seq(LABS, i requires 0 <= i < LABS => SanitizeNode(b.choices, Preserved(existing, LabAt(s, i)), b.defaults.labs[i], "labs"))
  }

  function LegacyMode(mode: Json): real {
    if mode == Text("saver") then 1536.0 else if mode == Text("performance") then 4608.0 else 3072.0
  }

  function LegacyViews(views: Json): real {
    if views.Number? then Bound(Round(views.value), 1.0, 16.0) else 4.0
  }

  function MaxOf(a: real, b: real): real {
    if a < b then b else a
  }

  /** The memory limit: the stored one, or what the older settings amount to, if there are any. */
  function RamLimit(b: Basis, s: Settings): real {
    if !s.hasAdvanced then b.ramFallback
    else if !s.ramLimitMb.Missing? then SanitizeRam(b.toNumber, s.ramLimitMb, b.ramFallback)
    else SanitizeRam(b.toNumber, Number(MaxOf(LegacyMode(s.ramManagementMode), 896.0 + LegacyViews(s.maxActiveWebviews) * 384.0)), b.ramFallback)
  }

  function Background(b: Basis, s: Settings): Json {
    if !s.background.Text? && s.backgroundStyle.Text? then
      match b.legacyBackground(s.backgroundStyle.text)
      case Some(background) => Text(background)
      case None => b.defaults.background
    else s.background
  }

  /** The purist layout needs the experimental features. */
  function ResolveLayout(layout: Json, experimental: Json): Json {
    if layout == Text("purist") && experimental == Flag(false) then Text("horizontal") else layout
  }

  function Clamped(j: Json, low: real, high: real): Json {
    if j.Number? then Number(Bound(Round(j.value), low, high)) else j
  }

  function CleanPermission(p: Permission, now: real): Permission {
    p.(workspaceId := if p.workspaceValid then p.workspaceId else None,
       workspaceValid := true,
       updatedAt := if p.updatedAt.Some? then p.updatedAt else Some(now))
  }

  function Permissions(ps: seq<Permission>, now: real): seq<Permission> {
    if ps == [] then []
    else (if ps[0].valid then [CleanPermission(ps[0], now)] else []) + Permissions(ps[1..], now)
  }

  function BoundedPermissions(ps: seq<Permission>, now: real): seq<Permission> {
    Permissions(if |ps| <= 500 then ps else ps[..500], now)
  }

  function SanitizeSettings(b: Basis, existing: bool, now: real, s: Settings): Settings
    requires |b.defaults.labs| == LABS
  {
    var d := b.defaults;
    var experimental := SanitizeNode(b.choices, s.experimentalFeatures, d.experimentalFeatures, "advanced.experimentalFeatures");
    Settings(
      SanitizeNode(b.choices, s.tree, d.tree, ""),
      SanitizeNode(b.choices, Preserved(existing, s.cleanToolbarIcons), d.cleanToolbarIcons, "appearance.cleanToolbarIcons"),
      Labs(b, existing, s),
      Number(RamLimit(b, s)),
      ResolveLayout(SanitizeNode(b.choices, s.layoutMode, d.layoutMode, "layoutMode"), experimental),
      experimental,
      Clamped(SanitizeNode(b.choices, s.panelWidth, d.panelWidth, "sidePanel.width"), 304.0, 520.0),
      Clamped(SanitizeNode(b.choices, s.menuWidth, d.menuWidth, "extensionMenu.width"), 320.0, 720.0),
      Clamped(SanitizeNode(b.choices, s.menuHeight, d.menuHeight, "extensionMenu.height"), 280.0, 1200.0),
      SanitizeNode(b.choices, Background(b, s), d.background, "newTab.background"),
      BoundedPermissions(s.permissions, now),
      Missing, Missing, Missing, true)
  }

  // ---- The settings are idempotent ----

  lemma {:induction false} ClampedTwice(choices: Choices, j: Json, fallback: Json, path: string, low: int, high: int)
    requires fallback.Number? && 0 <= low <= high <= 1000000
    ensures var once := Clamped(SanitizeNode(choices, j, fallback, path), low as real, high as real);
      Clamped(SanitizeNode(choices, once, fallback, path), low as real, high as real) == once
  {
    var clean := SanitizeNode(choices, j, fallback, path);
    RoundWhole((clean.value + 0.5).Floor);
    RoundWhole(low);
    RoundWhole(high);
  }

  lemma {:induction false} PermissionsTwice(ps: seq<Permission>, now: real, later: real)
    ensures Permissions(Permissions(ps, now), later) == Permissions(ps, now) && |Permissions(ps, now)| <= |ps|
  {
    if ps != [] {
      PermissionsTwice(ps[1..], now, later);
      if ps[0].valid {
        var once := Permissions(ps, now);
        var first := CleanPermission(ps[0], now);
        assert once[0] == first && once[1..] == Permissions(ps[1..], now);
        assert CleanPermission(first, later) == first;
        assert Permissions(once, later) == [first] + Permissions(once[1..], later);
      } else {
        assert Permissions(ps, now) == Permissions(ps[1..], now);
      }
    }
  }

  lemma {:induction false} LayoutTwice(b: Basis, layout: Json, experimental: Json)
    requires BasisOk(b) && experimental.Flag?
    ensures var once := ResolveLayout(SanitizeNode(b.choices, layout, b.defaults.layoutMode, "layoutMode"), experimental);
      ResolveLayout(SanitizeNode(b.choices, once, b.defaults.layoutMode, "layoutMode"), experimental) == once
  {
  }

  lemma {:induction false} LabsTwice(b: Basis, existing: bool, later: bool, s: Settings, t: Settings)
    requires BasisOk(b) && t.labs == Labs(b, existing, s)
    ensures Labs(b, later, t) == Labs(b, existing, s)
  {
    forall i | 0 <= i < LABS ensures Labs(b, later, t)[i] == Labs(b, existing, s)[i] {
      assert b.defaults.labs[i].Flag?;
    }
  }

  lemma {:induction false} RamLimitTwice(b: Basis, s: Settings)
    requires BasisOk(b)
    ensures IsRamLimit(RamLimit(b, s))
    ensures SanitizeRam(b.toNumber, Number(RamLimit(b, s)), b.ramFallback) == RamLimit(b, s)
  {
    var legacy := Number(MaxOf(LegacyMode(s.ramManagementMode), 896.0 + LegacyViews(s.maxActiveWebviews) * 384.0));
    RamIsLimit(b.toNumber, s.ramLimitMb, b.ramFallback);
    RamIsLimit(b.toNumber, legacy, b.ramFallback);
    RamTwice(b.toNumber, RamLimit(b, s), b.ramFallback);
  }

  /** Whatever the onboarding record says and whenever it happens, sanitizing settings again changes nothing. */
  lemma {:induction false} SettingsTwice(b: Basis, existing: bool, now: real, s: Settings, laterExisting: bool,
                                         later: real)
    requires BasisOk(b)
    ensures var once := SanitizeSettings(b, existing, now, s);
      SanitizeSettings(b, laterExisting, later, once) == once
  {
    var once := SanitizeSettings(b, existing, now, s);
    SanitizeTwice(b.choices, s.tree, b.defaults.tree, "");
    LabsTwice(b, existing, laterExisting, s, once);
    RamLimitTwice(b, s);
    LayoutTwice(b, s.layoutMode, once.experimentalFeatures);
    ClampedTwice(b.choices, s.panelWidth, b.defaults.panelWidth, "sidePanel.width", 304, 520);
    ClampedTwice(b.choices, s.menuWidth, b.defaults.menuWidth, "extensionMenu.width", 320, 720);
    ClampedTwice(b.choices, s.menuHeight, b.defaults.menuHeight, "extensionMenu.height", 280, 1200);
    var bounded := if |s.permissions| <= 500 then s.permissions else s.permissions[..500];
    PermissionsTwice(bounded, now, later);
  }

  // ---- Onboarding ----

  const SCHEMA_VERSION: int := 9

  /** The stored onboarding record: absent, not a record, or its completed flag. */
  datatype Onboarding = Absent | NotRecord | Stored(completed: bool)

  function Completed(o: Onboarding, schemaVersion: int): bool {
    if o.Stored? then o.completed else schemaVersion >= SCHEMA_VERSION
  }

  predicate IsExisting(o: Onboarding) {
    o.Absent? || (o.Stored? && o.completed)
  }

  /** The settings and the onboarding record of a migrated profile. */
  datatype Migrated = Migrated(settings: Settings, onboarding: Onboarding)

  function MigrateSettings(b: Basis, o: Onboarding, schemaVersion: int, now: real, s: Settings): Migrated
    requires |b.defaults.labs| == LABS
  {
    Migrated(SanitizeSettings(b, IsExisting(o), now, s), Stored(Completed(o, schemaVersion)))
  }

  /** Migrating settings and onboarding again, at any later time, changes nothing. */
  lemma {:induction false} MigrateSettingsTwice(b: Basis, o: Onboarding, schemaVersion: int, now: real, s: Settings,
                                                laterVersion: int, later: real)
    requires BasisOk(b)
    ensures var once := MigrateSettings(b, o, schemaVersion, now, s);
      MigrateSettings(b, once.onboarding, laterVersion, later, once.settings) == once
  {
    SettingsTwice(b, IsExisting(o), now, s, IsExisting(Stored(Completed(o, schemaVersion))), later);
  }

  /** A profile without an onboarding record keeps its old feature defaults as a profile that exists,
      and comes out as one that still has to be onboarded exactly when its schema is older than the
      one that introduced the record. */
  lemma {:induction false} OldProfileIsOnboardedAgain(b: Basis, schemaVersion: int, now: real, s: Settings)
    requires BasisOk(b)
    ensures var once := MigrateSettings(b, Absent, schemaVersion, now, s);
      && (!s.cleanToolbarIcons.Flag? ==> once.settings.cleanToolbarIcons == Flag(false))
      && (once.onboarding == Stored(false) <==> schemaVersion < 9)
  {
  }
}
