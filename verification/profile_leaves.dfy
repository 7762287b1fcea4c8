/** What the settings sanitizer does, leaf by leaf, and what the fields with special treatment become. */
module ProfileLeaves {
  import opened Options
  import opened Selections
  import opened ProfileSettings

  // ---- The tree ----

  /** The value at the end of a path of keys; `Missing` when the path leads nowhere. */
  function At(j: Json, keys: seq<string>): Json
    decreases keys
  {
    if keys == [] then j else At(Field(j, keys[0]), keys[1..])
  }

  /** The keys with dots between them, below `path`. */
  function Dotted(path: string, keys: seq<string>): string
    decreases keys
  {
    if keys == [] then path
    else if path == "" then Dotted(keys[0], keys[1..])
    else Dotted(path + "." + keys[0], keys[1..])
  }

  /** What may replace a default: a flag, a number within a million, a text of at most 65536 characters that is
      permitted at its path, or a list of at most a hundred texts of at most 1024. */
  ghost predicate Admissible(choices: Choices, fallback: Json, stored: Json, path: string) {
    || (fallback.Flag? && stored.Flag?)
    || (fallback.Number? && stored.Number? && -1_000_000.0 <= stored.value <= 1_000_000.0)
    || (fallback.Text? && stored.Text? && |stored.text| <= 65_536
        && forall permitted | choices(path) == Some(permitted) :: stored.text in permitted)
    || (fallback.List? && stored.List? && |stored.items| <= 100
        && forall item | item in stored.items :: item.Text? && |item.text| <= 1_024)
  }

  lemma {:induction false} LeafIs(choices: Choices, input: Json, fallback: Json, path: string)
    requires !fallback.Record?
    ensures SanitizeNode(choices, input, fallback, path) == if Admissible(choices, fallback, input, path) then input else fallback
  {
    if input.List? {
      assert (forall i | 0 <= i < |input.items| :: IsTextWithin(input.items[i], 1024))
        <==> forall item | item in input.items :: item.Text? && |item.text| <= 1_024;
    }
  }

  lemma {:induction false} FieldIs(choices: Choices, input: Json, fields: seq<JsonField>, path: string, key: string)
    ensures var clean := FieldIn(SanitizeFields(choices, input, fields, path), key); var fallback := FieldIn(fields, key);
      if fallback.Missing? then clean.Missing?
      else clean == SanitizeNode(choices, Field(input, key), fallback, if path == "" then key else path + "." + key)
  {
    if fields != [] && fields[0].key != key {
      FieldIs(choices, input, fields[1..], path, key);
    }
  }

  lemma {:induction false} AtMissing(keys: seq<string>)
    ensures At(Missing, keys) == Missing
  {
    if keys != [] {
      AtMissing(keys[1..]);
    }
  }

  /** Along every path of the defaults: the stored value if it may stand there, else the default; where the defaults
      have nothing, nothing. */
  lemma {:induction false} EveryLeaf(choices: Choices, input: Json, fallback: Json, path: string, keys: seq<string>)
    requires !At(fallback, keys).Record?
    ensures At(SanitizeNode(choices, input, fallback, path), keys)
         == if Admissible(choices, At(fallback, keys), At(input, keys), Dotted(path, keys)) then At(input, keys) else At(fallback, keys)
    decreases keys
  {
    if keys == [] {
      LeafIs(choices, input, fallback, path);
    } else if fallback.Record? {
      FieldIs(choices, input, fallback.fields, path, keys[0]);
      if FieldIn(fallback.fields, keys[0]).Missing? {
        AtMissing(keys[1..]);
      } else {
        EveryLeaf(choices, Field(input, keys[0]), FieldIn(fallback.fields, keys[0]), if path == "" then keys[0] else path + "." + keys[0], keys[1..]);
      }
    } else {
      LeafIs(choices, input, fallback, path);
      AtMissing(keys[1..]);
    }
  }

  /** The same records with the same keys in the same order. */
  predicate SameKeys(j: Json, fallback: Json)
    decreases fallback
  {
    if fallback.Record? then j.Record? && SameFieldKeys(j.fields, fallback.fields)
    else !j.Record? && (fallback.Missing? ==> j.Missing?)
  }

  predicate SameFieldKeys(fields: seq<JsonField>, defaults: seq<JsonField>)
    decreases defaults
  {
    if defaults == [] then fields == []
    else fields != [] && fields[0].key == defaults[0].key && SameKeys(fields[0].value, defaults[0].value) && SameFieldKeys(fields[1..], defaults[1..])
  }

  /** The result has exactly the keys of the defaults, in their order. */
  lemma {:induction false} KeysAreTheDefaults(choices: Choices, input: Json, fallback: Json, path: string)
    ensures SameKeys(SanitizeNode(choices, input, fallback, path), fallback)
    decreases fallback
  {
    if fallback.Record? {
      FieldKeysAreTheDefaults(choices, input, fallback.fields, path);
    }
  }

  lemma {:induction false} FieldKeysAreTheDefaults(choices: Choices, input: Json, fields: seq<JsonField>, path: string)
    ensures SameFieldKeys(SanitizeFields(choices, input, fields, path), fields)
    decreases fields
  {
    if fields != [] {
      KeysAreTheDefaults(choices, Field(input, fields[0].key), fields[0].value, ChildPath(path, fields[0].key));
      FieldKeysAreTheDefaults(choices, input, fields[1..], path);
    }
  }

  /** Every leaf of the defaults has a stored value that may replace it, or is stored as it is. */
  ghost predicate AllAdmissible(choices: Choices, input: Json, fallback: Json, path: string) {
    forall keys | !At(fallback, keys).Record? && !At(fallback, keys).Missing? ::
      Admissible(choices, At(fallback, keys), At(input, keys), Dotted(path, keys)) || At(input, keys) == At(fallback, keys)
  }

  lemma {:induction false} ChildAdmissible(choices: Choices, input: Json, fallback: Json, path: string, key: string)
    requires AllAdmissible(choices, input, fallback, path) && fallback.Record?
    ensures AllAdmissible(choices, Field(input, key), Field(fallback, key), if path == "" then key else path + "." + key)
  {
    forall keys | !At(Field(fallback, key), keys).Record? && !At(Field(fallback, key), keys).Missing?
      ensures Admissible(choices, At(Field(fallback, key), keys), At(Field(input, key), keys), Dotted(if path == "" then key else path + "." + key, keys))
           || At(Field(input, key), keys) == At(Field(fallback, key), keys)
    {
      var whole := [key] + keys;
      assert whole[0] == key && whole[1..] == keys;
      assert !At(fallback, whole).Record?;
    }
  }

  lemma {:induction false} KeyIsFirst(fields: seq<JsonField>, defaults: seq<JsonField>, i: nat)
    requires FieldsKeyed(defaults) && SameFieldKeys(fields, defaults) && i < |defaults|
    ensures |fields| == |defaults| && fields[i].key == defaults[i].key && SameKeys(fields[i].value, defaults[i].value)
    ensures FieldIn(fields, defaults[i].key) == fields[i].value && FieldIn(defaults, defaults[i].key) == defaults[i].value
  {
    SameLength(fields, defaults);
    if i > 0 {
      KeyIsFirst(fields[1..], defaults[1..], i - 1);
      assert defaults[1..][i - 1] == defaults[i] && fields[1..][i - 1] == fields[i];
    }
  }

  lemma {:induction false} SameLength(fields: seq<JsonField>, defaults: seq<JsonField>)
    requires SameFieldKeys(fields, defaults)
    ensures |fields| == |defaults|
  {
    if defaults != [] {
      SameLength(fields[1..], defaults[1..]);
    }
  }

  /** Stored settings with the keys of the defaults and an admissible value at every leaf come back unchanged. */
  lemma {:induction false} WholeTreeIsKept(choices: Choices, input: Json, fallback: Json, path: string)
    requires WellKeyed(fallback) && SameKeys(input, fallback) && AllAdmissible(choices, input, fallback, path)
    ensures SanitizeNode(choices, input, fallback, path) == input
    decreases fallback
  {
    if fallback.Record? {
      SameLength(input.fields, fallback.fields);
      FieldsAreKept(choices, input, fallback, path, 0);
    } else {
      assert At(fallback, []) == fallback && At(input, []) == input && Dotted(path, []) == path;
      LeafIs(choices, input, fallback, path);
    }
  }

  lemma {:induction false} FieldsAreKept(choices: Choices, input: Json, fallback: Json, path: string, i: nat)
    requires WellKeyed(fallback) && SameKeys(input, fallback) && AllAdmissible(choices, input, fallback, path)
    requires fallback.Record? && i <= |fallback.fields| == |input.fields|
    ensures SanitizeFields(choices, input, fallback.fields[i..], path) == input.fields[i..]
    decreases fallback, |fallback.fields| - i
  {
    if i < |fallback.fields| {
      var field := fallback.fields[i];
      KeyIsFirst(input.fields, fallback.fields, i);
      KeyedAt(fallback.fields, i);
      ChildAdmissible(choices, input, fallback, path, field.key);
      assert field in fallback.fields;
      WholeTreeIsKept(choices, input.fields[i].value, field.value, if path == "" then field.key else path + "." + field.key);
      FieldsAreKept(choices, input, fallback, path, i + 1);
      assert fallback.fields[i..][1..] == fallback.fields[i + 1..];
      assert input.fields[i..] == [input.fields[i]] + input.fields[i + 1..];
    }
  }

  // ---- The fields with special treatment ----

  ghost predicate IsLeaf(choices: Choices, stored: Json, fallback: Json, path: string, result: Json) {
    result == if Admissible(choices, fallback, stored, path) then stored else fallback
  }

  /** A whole number nearest to `x`, the higher one of two. */
  predicate Nearest(x: real, n: int) {
    n as real - 0.5 <= x < n as real + 0.5
  }

  lemma {:induction false} RoundIsNearest(x: real)
    ensures Nearest(x, (x + 0.5).Floor) && Round(x) == (x + 0.5).Floor as real
  {
  }

  function Into(x: int, low: int, high: int): int {
    if x < low then low else if x <= high then x else high
  }

  /** The number `x`, rounded and brought into the range. */
  ghost predicate Fitted(x: real, low: int, high: int, result: Json) {
    exists n :: Nearest(x, n) && result == Number(Into(n, low, high) as real)
  }

  lemma {:induction false} ClampedIsFitted(j: Json, low: int, high: int)
    requires j.Number? && low <= high
    ensures Fitted(j.value, low, high, Clamped(j, low as real, high as real))
  {
    RoundIsNearest(j.value);
  }

  /** A flag that a saved profile without it has off, and a new one as the default says. */
  predicate IsFeature(existing: bool, stored: Json, fallback: Json, result: Json) {
    result == if stored.Flag? then stored else if existing then Flag(false) else fallback
  }

  /** The memory limit for the number `x`: to the nearest 256 megabytes, between one and 32 gigabytes. */
  ghost predicate IsRamFor(x: real, result: real) {
    exists n :: Nearest(x / 256.0, n) && result == Into(256 * n, 1_024, 32_768) as real
  }

  lemma {:induction false} SanitizeRamIs(toNumber: ToNumber, j: Json, fallback: real)
    ensures toNumber(j).None? ==> SanitizeRam(toNumber, j, fallback) == fallback
    ensures toNumber(j).Some? ==> IsRamFor(toNumber(j).value, SanitizeRam(toNumber, j, fallback))
  {
    if toNumber(j).Some? {
      var x := toNumber(j).value / 256.0;
      RoundIsNearest(x);
      var n := (x + 0.5).Floor;
      assert Round(x) * 256.0 == (256 * n) as real;
      BoundIsInto(256 * n, 1_024, 32_768);
      assert Nearest(x, n) && SanitizeRam(toNumber, j, fallback) == Into(256 * n, 1_024, 32_768) as real;
    }
  }

  /** The number of views the older settings kept: one to sixteen, and four when none is stored. */
  ghost predicate IsViews(views: Json, n: int) {
    if views.Number? then exists k :: Nearest(views.value, k) && n == Into(k, 1, 16) else n == 4
  }

  function Budget(mode: Json): int {
    if mode == Text("saver") then 1_536 else if mode == Text("performance") then 4_608 else 3_072
  }

  /** What the older settings ask for: the mode's budget or 896 megabytes and 384 for each view, whichever is more. */
  ghost predicate IsLegacyBudget(mode: Json, views: Json, x: real) {
    exists n :: IsViews(views, n) && x == (if 896 + 384 * n > Budget(mode) then 896 + 384 * n else Budget(mode)) as real
  }

  lemma {:induction false} BoundIsInto(n: int, low: int, high: int)
    requires low <= high
    ensures Bound(n as real, low as real, high as real) == Into(n, low, high) as real
  {
  }

  lemma {:induction false} LegacyViewsAre(views: Json) returns (n: int)
    ensures IsViews(views, n) && LegacyViews(views) == n as real
  {
    if views.Number? {
      RoundIsNearest(views.value);
      var k := (views.value + 0.5).Floor;
      BoundIsInto(k, 1, 16);
      n := Into(k, 1, 16);
    } else {
      n := 4;
    }
  }

  lemma {:induction false} LegacyBudgetIs(mode: Json, views: Json)
    ensures IsLegacyBudget(mode, views, MaxOf(LegacyMode(mode), 896.0 + LegacyViews(views) * 384.0))
  {
    var n := LegacyViewsAre(views);
    assert LegacyMode(mode) == Budget(mode) as real;
    assert 896.0 + LegacyViews(views) * 384.0 == (896 + 384 * n) as real;
  }

  /** The memory limit of migrated settings. */
  ghost predicate IsRam(b: Basis, s: Settings, result: real) {
    if !s.hasAdvanced then result == b.ramFallback
    else if !s.ramLimitMb.Missing? then
      if b.toNumber(s.ramLimitMb).None? then result == b.ramFallback else IsRamFor(b.toNumber(s.ramLimitMb).value, result)
    else exists x :: IsLegacyBudget(s.ramManagementMode, s.maxActiveWebviews, x) && IsRamFor(x, result)
  }

  lemma {:induction false} RamLimitIs(b: Basis, s: Settings)
    requires forall x: real :: b.toNumber(Number(x)) == Some(x)
    ensures IsRam(b, s, RamLimit(b, s))
  {
    if s.hasAdvanced {
      SanitizeRamIs(b.toNumber, s.ramLimitMb, b.ramFallback);
      var x := MaxOf(LegacyMode(s.ramManagementMode), 896.0 + LegacyViews(s.maxActiveWebviews) * 384.0);
      LegacyBudgetIs(s.ramManagementMode, s.maxActiveWebviews);
      SanitizeRamIs(b.toNumber, Number(x), b.ramFallback);
    }
  }

  // ---- Permissions ----

  /** A kept permission: without a workspace that is no id, and dated now if it had no date. */
  predicate IsCleaned(p: Permission, now: real, q: Permission) {
    && q.valid == p.valid && q.token == p.token && q.workspaceValid
    && q.workspaceId == (if p.workspaceValid then p.workspaceId else None)
    && q.updatedAt == Some(if p.updatedAt.Some? then p.updatedAt.value else now)
  }

  predicate AllCleaned(ps: seq<Permission>, now: real, qs: seq<Permission>) {
    |qs| == |ps| && forall i | 0 <= i < |ps| :: IsCleaned(ps[i], now, qs[i])
  }

  predicate IsValid(p: Permission) {
    p.valid
  }

  /** The valid ones, in their order, each cleaned. */
  ghost predicate ArePermissions(ps: seq<Permission>, now: real, qs: seq<Permission>) {
    exists kept :: Selects(ps, IsValid, kept) && AllCleaned(kept, now, qs)
  }

  lemma {:induction false} CleanedStep(p: Permission, ps: seq<Permission>, now: real, qs: seq<Permission>)
    requires AllCleaned(ps, now, qs)
    ensures AllCleaned([p] + ps, now, [CleanPermission(p, now)] + qs)
  {
    forall i | 0 <= i < |[p] + ps| ensures IsCleaned(([p] + ps)[i], now, ([CleanPermission(p, now)] + qs)[i]) {
      if i > 0 {
        assert IsCleaned(ps[i - 1], now, qs[i - 1]);
      }
    }
  }

  lemma {:induction false} PermissionsStep(p: Permission, ps: seq<Permission>, now: real, qs: seq<Permission>)
    requires ArePermissions(ps, now, qs)
    ensures ArePermissions([p] + ps, now, if p.valid then [CleanPermission(p, now)] + qs else qs)
  {
    var kept :| Selects(ps, IsValid, kept) && AllCleaned(kept, now, qs);
    SelectsStep(p, ps, IsValid, kept);
    CleanedStep(p, kept, now, qs);
  }

  lemma {:induction false} PermissionsAre(ps: seq<Permission>, now: real)
    ensures ArePermissions(ps, now, Permissions(ps, now))
  {
    if ps == [] {
      SelectsNothing(IsValid);
      assert AllCleaned([], now, []);
    } else {
      PermissionsAre(ps[1..], now);
      PermissionsStep(ps[0], ps[1..], now, Permissions(ps[1..], now));
      assert ps == [ps[0]] + ps[1..];
      assert [] + Permissions(ps[1..], now) == Permissions(ps[1..], now);
    }
  }

  // ---- The settings as a whole ----

  /** The stored background, or what an older style stands for. */
  ghost predicate IsBackground(b: Basis, s: Settings, result: Json) {
    if !s.background.Text? && s.backgroundStyle.Text? then
      if b.legacyBackground(s.backgroundStyle.text).Some?
      then IsLeaf(b.choices, Text(b.legacyBackground(s.backgroundStyle.text).value), b.defaults.background, "newTab.background", result)
      else result == b.defaults.background
    else IsLeaf(b.choices, s.background, b.defaults.background, "newTab.background", result)
  }

  /** The layout, which is not the purist one while the experimental features are off. */
  ghost predicate IsLayout(b: Basis, s: Settings, experimental: Json, result: Json) {
    exists chosen :: IsLeaf(b.choices, s.layoutMode, b.defaults.layoutMode, "layoutMode", chosen)
      && result == if chosen == Text("purist") && experimental == Flag(false) then Text("horizontal") else chosen
  }

  /** A size: the stored number or the default, rounded and brought into its range. */
  ghost predicate IsSize(choices: Choices, stored: Json, fallback: Json, path: string, low: int, high: int, result: Json) {
    exists chosen :: IsLeaf(choices, stored, fallback, path, chosen) && chosen.Number? && Fitted(chosen.value, low, high, result)
  }

  lemma {:induction false} SizeIs(choices: Choices, stored: Json, fallback: Json, path: string, low: int, high: int)
    requires fallback.Number? && low <= high
    ensures IsSize(choices, stored, fallback, path, low, high, Clamped(SanitizeNode(choices, stored, fallback, path), low as real, high as real))
  {
    LeafIs(choices, stored, fallback, path);
    ClampedIsFitted(SanitizeNode(choices, stored, fallback, path), low, high);
  }

  lemma {:induction false} FeatureIs(choices: Choices, existing: bool, stored: Json, fallback: Json, path: string)
    requires fallback.Flag?
    ensures IsFeature(existing, stored, fallback, SanitizeNode(choices, Preserved(existing, stored), fallback, path))
  {
  }

  lemma {:induction false} BackgroundIs(b: Basis, s: Settings)
    requires b.defaults.background.Text?
    ensures IsBackground(b, s, SanitizeNode(b.choices, Background(b, s), b.defaults.background, "newTab.background"))
  {
    LeafIs(b.choices, Background(b, s), b.defaults.background, "newTab.background");
  }

  lemma {:induction false} LayoutIs(b: Basis, s: Settings, experimental: Json)
    requires b.defaults.layoutMode.Text?
    ensures IsLayout(b, s, experimental, ResolveLayout(SanitizeNode(b.choices, s.layoutMode, b.defaults.layoutMode, "layoutMode"), experimental))
  {
    LeafIs(b.choices, s.layoutMode, b.defaults.layoutMode, "layoutMode");
    assert IsLeaf(b.choices, s.layoutMode, b.defaults.layoutMode, "layoutMode", SanitizeNode(b.choices, s.layoutMode, b.defaults.layoutMode, "layoutMode"));
  }

  /** Along every path of the default tree: the stored value if it may stand there, else the default. */
  ghost predicate AreLeaves(choices: Choices, stored: Json, defaults: Json, result: Json) {
    && SameKeys(result, defaults)
    && forall keys | !At(defaults, keys).Record? :: IsLeaf(choices, At(stored, keys), At(defaults, keys), Dotted("", keys), At(result, keys))
  }

  ghost predicate AreLabs(existing: bool, stored: seq<Json>, defaults: seq<Json>, result: seq<Json>) {
    && |result| == 6 && |defaults| == 6
    && forall i | 0 <= i < 6 :: IsFeature(existing, if i < |stored| then stored[i] else Missing, defaults[i], result[i])
  }

  /** Every part of sanitized settings, from the stored ones and the defaults. */
  ghost predicate AreSettings(b: Basis, existing: bool, now: real, s: Settings, t: Settings) {
    var d := b.defaults;
    && AreLeaves(b.choices, s.tree, d.tree, t.tree)
    && IsFeature(existing, s.cleanToolbarIcons, d.cleanToolbarIcons, t.cleanToolbarIcons)
    && AreLabs(existing, s.labs, d.labs, t.labs)
    && t.ramLimitMb.Number? && IsRam(b, s, t.ramLimitMb.value)
    && IsLeaf(b.choices, s.experimentalFeatures, d.experimentalFeatures, "advanced.experimentalFeatures", t.experimentalFeatures)
    && IsLayout(b, s, t.experimentalFeatures, t.layoutMode)
    && IsSize(b.choices, s.panelWidth, d.panelWidth, "sidePanel.width", 304, 520, t.panelWidth)
    && IsSize(b.choices, s.menuWidth, d.menuWidth, "extensionMenu.width", 320, 720, t.menuWidth)
    && IsSize(b.choices, s.menuHeight, d.menuHeight, "extensionMenu.height", 280, 1_200, t.menuHeight)
    && IsBackground(b, s, t.background)
    && ArePermissions(if |s.permissions| <= 500 then s.permissions else s.permissions[..500], now, t.permissions)
    && t.backgroundStyle == t.ramManagementMode == t.maxActiveWebviews == Missing && t.hasAdvanced
  }

  lemma {:induction false} LeavesAre(choices: Choices, stored: Json, defaults: Json)
    ensures AreLeaves(choices, stored, defaults, SanitizeNode(choices, stored, defaults, ""))
  {
    KeysAreTheDefaults(choices, stored, defaults, "");
    forall keys | !At(defaults, keys).Record?
      ensures IsLeaf(choices, At(stored, keys), At(defaults, keys), Dotted("", keys), At(SanitizeNode(choices, stored, defaults, ""), keys))
    {
      EveryLeaf(choices, stored, defaults, "", keys);
    }
  }

  lemma {:induction false} LabsAre(b: Basis, existing: bool, s: Settings)
    requires BasisOk(b)
    ensures AreLabs(existing, s.labs, b.defaults.labs, Labs(b, existing, s))
  {
    forall i | 0 <= i < 6
      ensures IsFeature(existing, if i < |s.labs| then s.labs[i] else Missing, b.defaults.labs[i], Labs(b, existing, s)[i])
    {
      FeatureIs(b.choices, existing, LabAt(s, i), b.defaults.labs[i], "labs");
    }
  }

  lemma {:induction false} SettingsAre(b: Basis, existing: bool, now: real, s: Settings)
    requires BasisOk(b)
    ensures AreSettings(b, existing, now, s, SanitizeSettings(b, existing, now, s))
  {
    LeavesAre(b.choices, s.tree, b.defaults.tree);
    FeatureIs(b.choices, existing, s.cleanToolbarIcons, b.defaults.cleanToolbarIcons, "appearance.cleanToolbarIcons");
    LabsAre(b, existing, s);
    RamLimitIs(b, s);
    LeafIs(b.choices, s.experimentalFeatures, b.defaults.experimentalFeatures, "advanced.experimentalFeatures");
    LayoutIs(b, s, SanitizeSettings(b, existing, now, s).experimentalFeatures);
    SizeIs(b.choices, s.panelWidth, b.defaults.panelWidth, "sidePanel.width", 304, 520);
    SizeIs(b.choices, s.menuWidth, b.defaults.menuWidth, "extensionMenu.width", 320, 720);
    SizeIs(b.choices, s.menuHeight, b.defaults.menuHeight, "extensionMenu.height", 280, 1_200);
    BackgroundIs(b, s);
    PermissionsAre(if |s.permissions| <= 500 then s.permissions else s.permissions[..500], now);
  }

  /** The onboarding record: the stored flag, or whether the profile's schema already had one.  A profile without a record,
      or with a completed one, is an existing profile. */
  lemma {:induction false} OnboardingIs(b: Basis, o: Onboarding, schemaVersion: int, now: real, s: Settings)
    requires BasisOk(b)
    ensures var t := MigrateSettings(b, o, schemaVersion, now, s);
      && t.onboarding == Stored(if o.Stored? then o.completed else schemaVersion >= 9)
      && AreSettings(b, o == Absent || o == Stored(true), now, s, t.settings)
  {
    SettingsAre(b, o == Absent || o == Stored(true), now, s);
  }
}
