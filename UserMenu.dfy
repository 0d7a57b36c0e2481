/** The user menu in the header: the signed-in user's avatar, display name and role, drawn from the
    profile it loads (none until it is loaded, or when there is no user). */
module UserMenu {
  import opened JsText
  import opened Types
  import ProfilePage

  const Anonymous: string := "Usuario"

  /** `profile?.avatar || 'sloth-default'` */
  function MenuAvatar(profile: Option<Profile>): (r: SlothAvatarId)
    ensures profile.Some? && profile.value.avatar.Some? ==> r == profile.value.avatar.value
    ensures profile.None? || profile.value.avatar.None? ==> r == SlothDefault
  {
    if profile.Some? then ProfilePage.AvatarOrDefault(profile.value.avatar) else SlothDefault
  }

  /** `profile?.email?.split('@')[0]`: the email up to its first `@`. */
  function EmailName(profile: Option<Profile>): (r: string)
    ensures profile.None? || profile.value.email.None? ==> r == []
    ensures profile.Some? && profile.value.email.Some? ==>
      r == BeforeFirst(profile.value.email.value, '@')
  {
    if profile.Some? && profile.value.email.Some? then BeforeFirst(profile.value.email.value, '@') else []
  }

  /** `profile?.full_name || profile?.email?.split('@')[0] || 'Usuario'` */
  function DisplayName(profile: Option<Profile>): (r: string)
    ensures r != []
    ensures profile.Some? && profile.value.full_name.Some? && profile.value.full_name.value != [] ==>
      r == profile.value.full_name.value
  {
    var fullName := if profile.Some? then profile.value.full_name else None;
    OrElse(fullName, OrElse(Some(EmailName(profile)), Anonymous))
  }

  /** Without a full name, the display name is the email's part before its first `@` when that is not
      empty, and `Usuario` otherwise; either way it holds no `@`, and one taken from the email
      starts that email. */
  lemma DisplayNameWithoutFullName(profile: Option<Profile>)
    requires profile.None? || profile.value.full_name.None? || profile.value.full_name.value == []
    ensures EmailName(profile) != [] ==> DisplayName(profile) == EmailName(profile)
    ensures EmailName(profile) == [] ==> DisplayName(profile) == Anonymous
    ensures '@' !in DisplayName(profile)
    ensures EmailName(profile) != [] ==> StartsWith(profile.value.email.value, DisplayName(profile))
  {
    assert '@' !in Anonymous;
  }

  /** `profile?.role === 'pm' ? 'Product Manager' : 'Developer'`: with no profile the label is
      `Developer`. */
  function MenuRoleLabel(profile: Option<Profile>): (r: string)
    ensures r == "Product Manager" <==> profile.Some? && profile.value.role == Pm
    ensures profile.None? ==> r == "Developer"
  {
    if profile.Some? then ProfilePage.RoleLabel(profile.value.role) else "Developer"
  }

  /** The menu's state. */
  class UserMenuState {
    var profile: Option<Profile>
    var loading: bool

    constructor ()
      ensures profile == None && loading
    {
      profile := None;
      loading := true;
    }

    /** `loadProfile`, given the signed-in user's id, if any, and the profile the query returned (null
        when it failed, whose error the menu ignores): without a user nothing is read and the profile
        stays; with one the returned value, null included, becomes the profile. Loading ends either way. */
    method LoadProfile(userId: Option<string>, data: Option<Profile>) returns (queried: Option<string>)
      modifies this
      ensures queried == userId
      ensures userId.Some? ==> profile == data
      ensures userId.None? ==> profile == old(profile)
      ensures !loading
    {
      queried := userId;
      if userId.Some? {
        profile := data;
      }
      loading := false;
    }
  }
}
