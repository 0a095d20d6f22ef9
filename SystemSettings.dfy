/**
 * The system settings page: the working copy of the three settings groups, the change
 * handler that writes one setting, and the unsaved-changes flag behind the save button
 * and the alert.
 */
module SystemSettings {

  /** A setting's value; `NaN` is what `parseInt` gives for a non-numeric input. */
  datatype SettingValue = Num(n: int) | Flag(b: bool) | Text(s: string) | NaN

  /** The settings: group name to setting name to value. */
  type Settings = map<string, map<string, SettingValue>>

  /** The query's initial data. */
  const DefaultSettings: Settings := map[
    "moderation" := map[
      "autoFlagThreshold" := Num(3), "requireDoubleApproval" := Flag(true),
      "allowBulkModeration" := Flag(true), "moderationTimeoutMinutes" := Num(30)],
    "notifications" := map[
      "emailDigest" := Text("daily"), "enablePushNotifications" := Flag(true),
      "notifyOnNewFlags" := Flag(true), "notifyOnUserReports" := Flag(true),
      "notifyOnApprovals" := Flag(false), "digestTime" := Text("09:00")],
    "security" := map[
      "requireMFA" := Flag(true), "sessionTimeoutHours" := Num(24),
      "maxLoginAttempts" := Num(5), "passwordExpiryDays" := Num(90)]
  ]

  /** `{...prev, [category]: {...prev[category], [setting]: value}}`; a missing group spreads as empty. */
  function Changed(s: Settings, category: string, setting: string, value: SettingValue): (r: Settings)
    ensures r.Keys == s.Keys + {category}
    ensures setting in r[category] && r[category][setting] == value
  {
    var group := if category in s then s[category] else map[];
    s[category := group[setting := value]]
  }

  /** A change writes exactly one setting: it reads the new value, every other setting of the
      group and every other group is as before, and the groups are those of before plus the
      changed one. */
  lemma ChangeWritesOneSetting(s: Settings, category: string, setting: string, value: SettingValue)
    ensures var t := Changed(s, category, setting, value);
      && t.Keys == s.Keys + {category}
      && t[category][setting] == value
      && (category in s ==> t[category].Keys == s[category].Keys + {setting})
      && (forall k :: k in t[category] && k != setting ==> category in s && k in s[category] && t[category][k] == s[category][k])
      && (forall c :: c in s && c != category ==> t[c] == s[c])
  {
  }

  /** A later change of the same setting overrides an earlier one. */
  lemma LastChangeWins(s: Settings, category: string, setting: string, v1: SettingValue, v2: SettingValue)
    ensures Changed(Changed(s, category, setting, v1), category, setting, v2) == Changed(s, category, setting, v2)
  {
    var g := if category in s then s[category] else map[];
    assert Changed(s, category, setting, v1) == s[category := g[setting := v1]];
    ChangedAfterSame(s, category, g[setting := v1], setting, v2);
    UpdateTwice(g, setting, v1, v2);
    UpdateTwice(s, category, g[setting := v1], g[setting := v1][setting := v2]);
  }

  /** A change of group `c` after `c` was replaced by `x` starts from `x`. */
  lemma ChangedAfterSame(s: Settings, c: string, x: map<string, SettingValue>, k: string, v: SettingValue)
    ensures Changed(s[c := x], c, k, v) == s[c := x][c := x[k := v]]
  {
  }

  lemma UpdateSwap<K, V>(m: map<K, V>, k1: K, v1: V, k2: K, v2: V)
    requires k1 != k2
    ensures m[k1 := v1][k2 := v2] == m[k2 := v2][k1 := v1]
  {
  }

  lemma UpdateTwice<K, V>(m: map<K, V>, k: K, v1: V, v2: V)
    ensures m[k := v1][k := v2] == m[k := v2]
  {
  }

  lemma SameGroupCommute(s: Settings, c: string, k1: string, v1: SettingValue, k2: string, v2: SettingValue)
    requires k1 != k2
    ensures Changed(Changed(s, c, k1, v1), c, k2, v2) == Changed(Changed(s, c, k2, v2), c, k1, v1)
  {
    var g := if c in s then s[c] else map[];
    var x := g[k1 := v1][k2 := v2];
    var y := g[k2 := v2][k1 := v1];
    UpdateSwap(g, k1, v1, k2, v2);
    var a := Changed(s, c, k1, v1);
    var b := Changed(s, c, k2, v2);
    assert a == s[c := g[k1 := v1]] && a[c] == g[k1 := v1];
    assert b == s[c := g[k2 := v2]] && b[c] == g[k2 := v2];
    assert Changed(a, c, k2, v2) == s[c := g[k1 := v1]][c := x];
    assert Changed(b, c, k1, v1) == s[c := g[k2 := v2]][c := y];
    UpdateTwice(s, c, g[k1 := v1], x);
    UpdateTwice(s, c, g[k2 := v2], y);
  }

  /** A change of group `c` after group `other` was replaced by `x` reads `c` as before. */
  lemma ChangedAfterOther(s: Settings, other: string, x: map<string, SettingValue>, c: string, k: string, v: SettingValue)
    requires other != c
    ensures Changed(s[other := x], c, k, v) == s[other := x][c := (if c in s then s[c] else map[])[k := v]]
  {
    assert (if c in s[other := x] then s[other := x][c] else map[]) == (if c in s then s[c] else map[]);
  }

  lemma OtherGroupCommute(s: Settings, c1: string, k1: string, v1: SettingValue, c2: string, k2: string, v2: SettingValue)
    requires c1 != c2
    ensures Changed(Changed(s, c1, k1, v1), c2, k2, v2) == Changed(Changed(s, c2, k2, v2), c1, k1, v1)
  {
    var x := (if c1 in s then s[c1] else map[])[k1 := v1];
    var y := (if c2 in s then s[c2] else map[])[k2 := v2];
    ChangedAfterOther(s, c1, x, c2, k2, v2);
    ChangedAfterOther(s, c2, y, c1, k1, v1);
    UpdateSwap(s, c1, x, c2, y);
  }

  /** Changes of different settings can be made in either order. */
  lemma ChangesCommute(s: Settings, c1: string, k1: string, v1: SettingValue, c2: string, k2: string, v2: SettingValue)
    requires c1 != c2 || k1 != k2
    ensures Changed(Changed(s, c1, k1, v1), c2, k2, v2) == Changed(Changed(s, c2, k2, v2), c1, k1, v1)
  {
    if c1 == c2 {
      SameGroupCommute(s, c1, k1, v1, k2, v2);
    } else {
      OtherGroupCommute(s, c1, k1, v1, c2, k2, v2);
    }
  }

  /** The defaults: auto-flag threshold 3, moderation timeout 30 minutes, a daily digest at
      09:00, sessions of 24 hours, 5 login attempts and passwords expiring after 90 days. */
  lemma DefaultValues()
    ensures DefaultSettings.Keys == {"moderation", "notifications", "security"}
    ensures DefaultSettings["moderation"]["autoFlagThreshold"] == Num(3)
    ensures DefaultSettings["moderation"]["moderationTimeoutMinutes"] == Num(30)
    ensures DefaultSettings["notifications"]["emailDigest"] == Text("daily")
    ensures DefaultSettings["notifications"]["digestTime"] == Text("09:00")
    ensures DefaultSettings["security"]["sessionTimeoutHours"] == Num(24)
    ensures DefaultSettings["security"]["maxLoginAttempts"] == Num(5)
    ensures DefaultSettings["security"]["passwordExpiryDays"] == Num(90)
  {
  }

  /** The page's state: the working copy and whether it has unsaved changes. */
  class SystemSettingsPage {
    var current: Settings
    var hasChanges: bool

    /** `useState(settings)` on the first render, when the query still holds its initial data. */
    constructor()
      ensures current == DefaultSettings && !hasChanges
    {
      current := DefaultSettings;
      hasChanges := false;
    }

    /** The save button is disabled exactly when nothing changed. */
    predicate SaveDisabled()
      reads this
    {
      !hasChanges
    }

    /** The unsaved-changes alert is shown exactly when something changed. */
    predicate AlertShown()
      reads this
    {
      hasChanges
    }

    /** `handleSettingChange(category, setting, value)` */
    method SettingChange(category: string, setting: string, value: SettingValue)
      modifies this
      ensures current == Changed(old(current), category, setting, value)
      ensures hasChanges && AlertShown() && !SaveDisabled()
    {
      current := Changed(current, category, setting, value);
      hasChanges := true;
    }

    /** `handleSave`: the body of the PUT request. */
    method Save() returns (body: Settings)
      ensures body == current
    {
      body := current;
    }

    /** A successful save clears the flag; the working copy stays. */
    method SaveSucceeded()
      modifies this
      ensures current == old(current) && !hasChanges && SaveDisabled() && !AlertShown()
    {
      hasChanges := false;
    }
  }
}
