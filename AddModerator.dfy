/**
 * The add-moderator form: its privilege table, its defaults, the privilege checkboxes and
 * the payload it submits.
 */
module AddModerator {
  import opened JsText
  import EditModerator

  const AllPrivileges: seq<string> := [
    "posts:read", "posts:write", "comments:read", "comments:write", "users:read", "users:write",
    "settings:read", "settings:write", "moderator:read", "moderator:write",
    "moderators:read", "moderators:write", "admin:all"
  ]

  datatype RbacType = Basic | Custom | Specific

  datatype Form = Form(name: string, email: string, password: string, rbacType: RbacType, privileges: seq<string>)

  /** What `handleFormSubmit` receives. */
  datatype ModeratorPayload = ModeratorPayload(display_name: string, email: string, password: string, permissions: seq<string>)

  const DefaultPrivileges := ["posts:read", "comments:read"]

  /** The form as it opens, with the fields the user types in. */
  function DefaultForm(name: string, email: string, password: string): Form {
    Form(name, email, password, Basic, DefaultPrivileges)
  }

  /** The privilege checkboxes are rendered only outside the basic type. */
  predicate CheckboxesShown(form: Form) {
    form.rbacType != Basic
  }

  /** A privilege checkbox changes to `checked`. */
  function CheckPrivilege(privileges: seq<string>, privilege: string, checked: bool): seq<string> {
    if checked then privileges + [privilege] else Without(privileges, privilege)
  }

  /** `onSubmit` */
  function Payload(form: Form): ModeratorPayload {
    ModeratorPayload(form.name, form.email, form.password, form.privileges)
  }

  /** Checking adds one more occurrence and leaves the others; unchecking removes every
      occurrence and leaves the others. */
  lemma CheckPrivilegeCounts(privileges: seq<string>, privilege: string, checked: bool, other: string)
    requires other != privilege
    ensures checked ==> Count(CheckPrivilege(privileges, privilege, checked), privilege) == Count(privileges, privilege) + 1
    ensures !checked ==> Count(CheckPrivilege(privileges, privilege, checked), privilege) == 0
    ensures Count(CheckPrivilege(privileges, privilege, checked), other) == Count(privileges, other)
  {
    if checked {
      CountAppend(privileges, [privilege], privilege);
      CountAppend(privileges, [privilege], other);
      assert [privilege][1..] == [];
    } else {
      CountAbsent(Without(privileges, privilege), privilege);
      WithoutCount(privileges, privilege, other);
    }
  }

  lemma {:induction false} WithoutCount(xs: seq<string>, x: string, other: string)
    requires other != x
    ensures Count(Without(xs, x), other) == Count(xs, other)
  {
    if xs != [] {
      WithoutCount(xs[1..], x, other);
      if xs[0] != x {
        assert ([xs[0]] + Without(xs[1..], x))[1..] == Without(xs[1..], x);
      }
    }
  }

  /** A form left on the basic type submits the default privileges after any edits of the text
      fields, with `name` sent as `display_name`. */
  lemma BasicSubmitsDefaults(name: string, email: string, password: string)
    ensures var p := Payload(DefaultForm(name, email, password));
      p == ModeratorPayload(name, email, password, ["posts:read", "comments:read"])
    ensures !CheckboxesShown(DefaultForm(name, email, password))
  {
  }

  /** The form's table is the dialog's table without the two freelance permissions, in the same order. */
  lemma PrivilegesAreDialogTableWithoutFreelance()
    ensures |AllPrivileges| == 13
    ensures AllPrivileges == EditModerator.AllValues[..6] + EditModerator.AllValues[8..]
    ensures forall k :: 0 <= k < |AllPrivileges| ==> !StartsWith(AllPrivileges[k], "freelance_post:")
  {
    forall k | 0 <= k < |AllPrivileges|
      ensures !StartsWith(AllPrivileges[k], "freelance_post:")
    {
      assert AllPrivileges[k][0] != 'f' && "freelance_post:"[0] == 'f';
    }
  }
}
