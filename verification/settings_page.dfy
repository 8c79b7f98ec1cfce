/** The settings page's profile form: the name and email fields seeded from
    the signed-in user, the "has changes" test behind the save button, and
    the notification switches. */
module SettingsPage {

  import opened Wrappers

  /** The signed-in user's fields the page reads. */
  datatype User = User(
    name: Option<string>,
    email: Option<string>,
    employeeFullName: Option<string>,
    notificationSettings: Option<map<string, bool>>)

  /** A string that JavaScript treats as true: present and non-empty. */
  predicate Truthy(s: Option<string>) {
    s.Some? && s.value != ""
  }

  /** `user?.name || user?.employee?.full_name || ''`. */
  function StoredName(user: Option<User>): (r: string)
    ensures user.Some? && Truthy(user.value.name) ==> r == user.value.name.value
    ensures user.Some? && !Truthy(user.value.name) && Truthy(user.value.employeeFullName) ==>
              r == user.value.employeeFullName.value
    ensures user.None? || (!Truthy(user.value.name) && !Truthy(user.value.employeeFullName)) ==> r == ""
  {
    if user.None? then ""
    else if Truthy(user.value.name) then user.value.name.value
    else if Truthy(user.value.employeeFullName) then user.value.employeeFullName.value
    else ""
  }

  /** `user?.email || ''`. */
  function StoredEmail(user: Option<User>): (r: string)
    ensures user.Some? && Truthy(user.value.email) ==> r == user.value.email.value
    ensures user.None? || !Truthy(user.value.email) ==> r == ""
  {
    if user.Some? && Truthy(user.value.email) then user.value.email.value else ""
  }

  /** The four notification switches, all on until the user's own settings load. */
  const DefaultSettings: map<string, bool> :=
    map["attendance" := true, "leave" := true, "performance" := true, "system" := true]

  datatype Form = Form(name: string, email: string, settings: map<string, bool>, loading: bool)

  const InitialForm := Form("", "", DefaultSettings, false)

  lemma DefaultsAllOn()
    ensures InitialForm.settings.Keys == {"attendance", "leave", "performance", "system"}
    ensures forall k :: k in InitialForm.settings ==> InitialForm.settings[k]
  {
  }

  /** When the user loads: the fields take the stored name and email, and the
      switches take the user's stored settings if there are any. */
  function Seed(f: Form, user: Option<User>): (r: Form)
    ensures user.None? ==> r == f
    ensures user.Some? ==> r.name == StoredName(user) && r.email == StoredEmail(user)
    ensures user.Some? && user.value.notificationSettings.Some? ==>
              r.settings == user.value.notificationSettings.value
    ensures user.None? || user.value.notificationSettings.None? ==> r.settings == f.settings
    ensures r.loading == f.loading
  {
    match user
    case None => f
    case Some(u) =>
      f.(name := StoredName(user), email := StoredEmail(user),
         settings := if u.notificationSettings.Some? then u.notificationSettings.value else f.settings)
  }

  /** Flipping one switch. */
  function SetSwitch(f: Form, key: string, on: bool): (r: Form)
    ensures key in r.settings && r.settings[key] == on
    ensures forall k :: k in f.settings && k != key ==> k in r.settings && r.settings[k] == f.settings[k]
    ensures r.(settings := f.settings) == f
  {
    f.(settings := f.settings[key := on])
  }

  /** `hasChanges`: the name or the email differs from what is stored. */
  function HasChanges(f: Form, user: Option<User>): (b: bool)
    ensures b <==> f.name != StoredName(user) || f.email != StoredEmail(user)
  {
    f.name != StoredName(user) || f.email != StoredEmail(user)
  }

  function SaveDisabled(f: Form, user: Option<User>): (b: bool)
    ensures !b <==> !f.loading && HasChanges(f, user)
  {
    f.loading || !HasChanges(f, user)
  }

  /** Right after the user loads there is nothing to save, because the fields
      are seeded from the same values `hasChanges` compares with. */
  lemma SeededFormUnchanged(f: Form, u: User)
    ensures !HasChanges(Seed(f, Some(u)), Some(u))
    ensures SaveDisabled(Seed(f, Some(u)), Some(u))
  {
  }

  /** Toggling switches never enables the profile save button. */
  lemma SwitchesAreNotProfileChanges(f: Form, user: Option<User>, key: string, on: bool)
    ensures HasChanges(SetSwitch(f, key, on), user) == HasChanges(f, user)
  {
  }

  /** Typing a different name makes the form savable (when not loading). */
  lemma EditedNameIsSavable(f: Form, user: Option<User>, name: string)
    requires name != StoredName(user) && !f.loading
    ensures !SaveDisabled(f.(name := name), user)
  {
  }
}
