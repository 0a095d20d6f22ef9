/**
 * The edit-moderator dialog: a table of the fifteen permissions a moderator can hold,
 * and the toggle that keeps `admin:all` in step with the other fourteen.
 */
module EditModerator {
  import opened JsText

  datatype Permission = Permission(value: string, caption: string)

  const AdminAll := "admin:all"

  const Permissions: seq<Permission> := [
    Permission("posts:read", "Read Posts"),
    Permission("posts:write", "Write Posts"),
    Permission("comments:read", "Read Comments"),
    Permission("comments:write", "Write Comments"),
    Permission("users:read", "Read Users"),
    Permission("users:write", "Write Users"),
    Permission("freelance_post:read", "Read Freelance Post"),
    Permission("freelance_post:write", "Write Freelance Post"),
    Permission("settings:read", "Read Settings"),
    Permission("settings:write", "Write Settings"),
    Permission("moderator:read", "Read Moderator"),
    Permission("moderator:write", "Write Moderator"),
    Permission("moderators:read", "Read Moderators"),
    Permission("moderators:write", "Write Moderators"),
    Permission(AdminAll, "Admin (All Permissions)")
  ]

  /** `permissions.map(p => p.value)` */
  function Values(table: seq<Permission>): (r: seq<string>)
    ensures |r| == |table|
    ensures forall k :: 0 <= k < |table| ==> r[k] == table[k].value
  {
    seq(|table|, k requires 0 <= k < |table| => table[k].value)
  }

  const AllValues := Values(Permissions)

  /** Every permission of the table other than `admin:all` is selected. */
  predicate AllSpecificSelected(selection: seq<string>) {
    forall k :: 0 <= k < |Permissions| && Permissions[k].value != AdminAll ==> Permissions[k].value in selection
  }

  /** `handlePermissionToggle(permission)` applied to the current selection. */
  function Toggle(current: seq<string>, permission: string): (r: seq<string>)
    ensures permission != AdminAll ==> (permission in r <==> permission !in current)
    ensures permission != AdminAll && permission in current ==> AdminAll !in r
    ensures permission == AdminAll ==> (AdminAll in r <==> AdminAll !in current)
  {
    if permission == AdminAll then
      TableFacts();
      if AdminAll !in current then AllValues else []
    else if permission in current then
      Without(Without(current, permission), AdminAll)
    else
      var added := current + [permission];
      if AllSpecificSelected(added) then added + [AdminAll] else added
  }

  /** A selection as the dialog should keep it: no value twice, and `admin:all` only with all others. */
  predicate Consistent(selection: seq<string>) {
    NoDuplicates(selection) && (AdminAll in selection ==> AllSpecificSelected(selection))
  }

  lemma TableFacts()
    ensures |AllValues| == 15 && AllValues[14] == AdminAll
    ensures forall k :: 0 <= k < 14 ==> AllValues[k] != AdminAll
    ensures NoDuplicates(AllValues)
  {
    assert forall k :: 0 <= k < 14 ==> AllValues[k][0] != 'a';
  }

  /** Selecting `admin:all` selects the whole table in table order; deselecting it clears all. */
  lemma ToggleAdmin(current: seq<string>)
    ensures AdminAll !in current ==> Toggle(current, AdminAll) == AllValues && |AllValues| == 15
    ensures AdminAll in current ==> Toggle(current, AdminAll) == []
  {
    TableFacts();
  }

  lemma {:induction false} WithoutBoth(xs: seq<string>, p: string)
    ensures Without(Without(xs, p), AdminAll) == Filter(xs, x => x != p && x != AdminAll)
  {
    if xs != [] {
      WithoutBoth(xs[1..], p);
      if xs[0] != p {
        assert Without(xs, p) == [xs[0]] + Without(xs[1..], p);
        assert ([xs[0]] + Without(xs[1..], p))[1..] == Without(xs[1..], p);
      }
    }
  }

  /** Deselecting a permission removes every occurrence of it and of `admin:all`, keeping the
      order of the others. */
  lemma DeselectPermission(current: seq<string>, p: string)
    requires p != AdminAll && p in current
    ensures Toggle(current, p) == Filter(current, x => x != p && x != AdminAll)
    ensures forall x :: x in Toggle(current, p) <==> x in current && x != p && x != AdminAll
  {
    WithoutBoth(current, p);
    forall x
      ensures x in Toggle(current, p) <==> x in current && x != p && x != AdminAll
    {
      FilterMembers(current, x => x != p && x != AdminAll, x);
    }
  }

  /** Selecting a permission appends it, and appends `admin:all` after it exactly when the
      fourteen others are then all selected. */
  lemma SelectPermission(current: seq<string>, p: string)
    requires p != AdminAll && p !in current
    ensures var r := Toggle(current, p);
      && r[..|current| + 1] == current + [p]
      && (|r| == |current| + 2 <==> AllSpecificSelected(current + [p]))
      && (|r| == |current| + 2 ==> r[|current| + 1] == AdminAll)
      && (|r| == |current| + 1 || |r| == |current| + 2)
  {
    var added := current + [p];
    if AllSpecificSelected(added) {
      assert (added + [AdminAll])[..|current| + 1] == added;
    } else {
      assert added[..|current| + 1] == added;
    }
  }

  /** Adding the last missing value to a selection that already holds `admin:all` appends
      `admin:all` a second time. */
  lemma AdminAppendedTwice(current: seq<string>, p: string)
    requires AdminAll in current && p != AdminAll && p !in current
    requires AllSpecificSelected(current + [p])
    ensures Count(Toggle(current, p), AdminAll) == Count(current, AdminAll) + 1 >= 2
  {
    CountAppend(current, [p], AdminAll);
    CountAppend(current + [p], [AdminAll], AdminAll);
    assert [AdminAll][1..] == [] && [p][1..] == [];
    assert Count(current, AdminAll) >= 1 by {
      CountPresent(current, AdminAll);
    }
  }

  lemma {:induction false} CountPresent(xs: seq<string>, x: string)
    requires x in xs
    ensures Count(xs, x) >= 1
  {
    if xs[0] != x {
      CountPresent(xs[1..], x);
    }
  }

  lemma AppendNoDuplicates(xs: seq<string>, x: string)
    requires NoDuplicates(xs) && x !in xs
    ensures NoDuplicates(xs + [x])
  {
  }

  /** Toggling a table value keeps a consistent selection consistent. */
  lemma ToggleKeepsConsistent(current: seq<string>, p: string)
    requires Consistent(current) && p in AllValues
    ensures Consistent(Toggle(current, p))
  {
    TableFacts();
    if p == AdminAll {
      if AdminAll !in current {
        assert forall k :: 0 <= k < |Permissions| ==> Permissions[k].value == AllValues[k];
      }
    } else if p in current {
      WithoutKeepsNoDuplicates(current, p);
      WithoutKeepsNoDuplicates(Without(current, p), AdminAll);
    } else {
      var added := current + [p];
      AppendNoDuplicates(current, p);
      if AllSpecificSelected(added) {
        AppendNoDuplicates(added, AdminAll);
      }
    }
  }

  /** On a consistent selection, selecting and then deselecting a specific permission gives the
      selection back. */
  lemma ToggleTwice(current: seq<string>, p: string)
    requires Consistent(current) && p in AllValues && p != AdminAll && p !in current
    ensures Toggle(Toggle(current, p), p) == current
  {
    var added := current + [p];
    assert AdminAll !in current;
    WithoutAppended(current, p);
    WithoutAbsent(current, AdminAll);
    if AllSpecificSelected(added) {
      assert added + [AdminAll] == current + [p, AdminAll];
      assert Without(current + [p, AdminAll], p) == Without(current, p) + [AdminAll] by {
        WithoutAppend(current, [p, AdminAll], p);
      }
      WithoutAbsent(current, p);
      WithoutAppended(current, AdminAll);
    }
  }

  lemma {:induction false} WithoutAppend(a: seq<string>, b: seq<string>, x: string)
    requires b == [x, AdminAll] && x != AdminAll
    ensures Without(a + b, x) == Without(a, x) + [AdminAll]
  {
    if a == [] {
      assert b[1..] == [AdminAll] && [AdminAll][1..] == [];
    } else {
      assert (a + b)[1..] == a[1..] + b;
      WithoutAppend(a[1..], b, x);
    }
  }

  // ----- the dialog -----

  datatype Moderator = Moderator(id: string, name: string, email: string, permissions: seq<string>)

  /** What the save button submits. */
  datatype SavePayload = SavePayload(id: string, permissions: seq<string>)

  /** The selection after the user toggles the values `ps` in turn. */
  function ToggleAll(selection: seq<string>, ps: seq<string>): seq<string>
    decreases |ps|
  {
    if ps == [] then selection else ToggleAll(Toggle(selection, ps[0]), ps[1..])
  }

  /** `handleSave` after toggling `ps` in a dialog opened on `m`: the selection starts as the
      moderator's permissions. */
  function Saved(m: Moderator, ps: seq<string>): SavePayload {
    SavePayload(m.id, ToggleAll(m.permissions, ps))
  }

  /** Saving without toggling anything submits the moderator's own permissions. */
  lemma SaveUntouched(m: Moderator)
    ensures Saved(m, []) == SavePayload(m.id, m.permissions)
  {
  }

  /** Toggling table values from a consistent selection saves a consistent one. */
  lemma {:induction false} SavedConsistent(m: Moderator, ps: seq<string>)
    requires Consistent(m.permissions)
    requires forall k :: 0 <= k < |ps| ==> ps[k] in AllValues
    ensures Consistent(Saved(m, ps).permissions)
    decreases |ps|
  {
    if ps != [] {
      ToggleKeepsConsistent(m.permissions, ps[0]);
      SavedConsistent(m.(permissions := Toggle(m.permissions, ps[0])), ps[1..]);
    }
  }
}
