/**
 * The profile page: the checks `handleUpdateProfile` runs before sending, the body it sends,
 * and the reset after a successful update.
 */
module Profile {
  import opened JsText

  /** The page's inputs; `sectionVisible` is whether the password section is open. */
  datatype ProfileForm = ProfileForm(name: string, currentPassword: string, newPassword: string,
                                     confirmPassword: string, sectionVisible: bool)

  /** The PATCH body; absent properties are `None`. */
  datatype UpdateData = UpdateData(name: string, currentPassword: Option<string>, password: Option<string>)

  const MinPasswordLength := 8

  /** `handleUpdateProfile`: the message of the first failed check, or the body sent. */
  function Submitted(f: ProfileForm): Result<UpdateData> {
    if Trim(f.name) == "" then Error("Name cannot be empty")
    else if f.sectionVisible && f.currentPassword == "" then Error("Please enter your current password")
    else if f.sectionVisible && Utf16Length(f.newPassword) < MinPasswordLength then Error("Password must be at least 8 characters long")
    else if f.sectionVisible && f.newPassword != f.confirmPassword then Error("New passwords do not match")
    else if f.sectionVisible && f.newPassword != "" then
      Ok(UpdateData(Trim(f.name), Some(f.currentPassword), Some(f.newPassword)))
    else Ok(UpdateData(Trim(f.name), None, None))
  }

  /** A blank name is refused before anything else is looked at. */
  lemma BlankNameRejected(f: ProfileForm)
    requires Trim(f.name) == ""
    ensures Submitted(f) == Error("Name cannot be empty")
  {
  }

  /** With the section closed the password fields are neither checked nor sent: the outcome is
      the same for any password inputs, and it is a name-only body whenever the name is not blank. */
  lemma ClosedSectionIgnoresPasswords(f: ProfileForm, current: string, next: string, confirm: string)
    requires !f.sectionVisible
    ensures Submitted(f) == Submitted(f.(currentPassword := current, newPassword := next, confirmPassword := confirm))
    ensures Submitted(f).Ok? <==> Trim(f.name) != ""
    ensures Submitted(f).Ok? ==> Submitted(f).value == UpdateData(Trim(f.name), None, None)
  {
  }

  /** With the section open, a body is sent exactly when the name is not blank, the current
      password is given, the new one has at least eight characters and the confirmation
      matches; that body always carries both passwords. */
  lemma OpenSectionSendsPasswords(f: ProfileForm)
    requires f.sectionVisible
    ensures Submitted(f).Ok? <==>
      Trim(f.name) != "" && f.currentPassword != "" && Utf16Length(f.newPassword) >= MinPasswordLength && f.newPassword == f.confirmPassword
    ensures Submitted(f).Ok? ==>
      Submitted(f).value == UpdateData(Trim(f.name), Some(f.currentPassword), Some(f.newPassword))
  {
  }

  /** The checks run in order: a missing current password is reported before a short new one,
      and a short one before a mismatch. */
  lemma PasswordChecksInOrder(f: ProfileForm)
    requires f.sectionVisible && Trim(f.name) != ""
    ensures f.currentPassword == "" ==> Submitted(f) == Error("Please enter your current password")
    ensures f.currentPassword != "" && Utf16Length(f.newPassword) < MinPasswordLength ==>
      Submitted(f) == Error("Password must be at least 8 characters long")
    ensures f.currentPassword != "" && Utf16Length(f.newPassword) >= MinPasswordLength && f.newPassword != f.confirmPassword ==>
      Submitted(f) == Error("New passwords do not match")
  {
  }

  /** The sent name is the trimmed input, never blank. */
  lemma SentNameTrimmed(f: ProfileForm)
    requires Submitted(f).Ok?
    ensures Submitted(f).value.name == Trim(f.name) && Submitted(f).value.name != ""
    ensures Trim(Submitted(f).value.name) == Submitted(f).value.name
  {
    TrimOfTrimmed(Trim(f.name));
  }

  /** The page's inputs. */
  class ProfilePage {
    var form: ProfileForm

    constructor()
      ensures form == ProfileForm("", "", "", "", false)
    {
      form := ProfileForm("", "", "", "", false);
    }

    /** The submit handler: the toast message, or the body of the request. */
    method HandleUpdateProfile() returns (r: Result<UpdateData>)
      ensures r == Submitted(form)
    {
      var trimmed := Trim(form.name);
      if trimmed == "" {
        return Error("Name cannot be empty");
      }
      if form.sectionVisible {
        if form.currentPassword == "" {
          return Error("Please enter your current password");
        }
        if Utf16Length(form.newPassword) < MinPasswordLength {
          return Error("Password must be at least 8 characters long");
        }
        if form.newPassword != form.confirmPassword {
          return Error("New passwords do not match");
        }
      }
      var data := UpdateData(trimmed, None, None);
      if form.sectionVisible && form.newPassword != "" {
        data := data.(currentPassword := Some(form.currentPassword), password := Some(form.newPassword));
      }
      r := Ok(data);
    }

    /** A successful update clears the three password inputs and closes the section. */
    method UpdateSucceeded()
      modifies this
      ensures form == ProfileForm(old(form).name, "", "", "", false)
    {
      form := ProfileForm(form.name, "", "", "", false);
    }
  }
}
