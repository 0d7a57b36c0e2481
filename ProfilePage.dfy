/** The profile page: it loads the signed-in user's profile into a form of full name and avatar, and
    saves the form back. Each handler is given the answers of the calls it makes. */
module ProfilePage {
  import opened JsText
  import opened Types

  /** `avatar || 'sloth-default'` */
  function AvatarOrDefault(avatar: Option<SlothAvatarId>): (r: SlothAvatarId)
    ensures avatar.Some? ==> r == avatar.value
    ensures avatar.None? ==> r == SlothDefault
  {
    if avatar.Some? then avatar.value else SlothDefault
  }

  /** `role === 'pm' ? 'Product Manager' : 'Developer'` */
  function RoleLabel(role: Role): (r: string)
    ensures r == "Product Manager" <==> role == Pm
    ensures role != Pm ==> r == "Developer"
  {
    if role == Pm then "Product Manager" else "Developer"
  }

  /** The update the save button sends for the profile `profileId`. */
  datatype ProfileUpdate = ProfileUpdate(profileId: string, full_name: Option<string>, avatar: SlothAvatarId)

  /** The update of profile `profileId` from the form: the name trimmed, or null when blank, and the
      avatar chosen. */
  function UpdateOf(profileId: string, fullName: string, avatar: SlothAvatarId): (u: ProfileUpdate)
    ensures u.profileId == profileId && u.avatar == avatar
    ensures u.full_name.None? <==> Blank(fullName)
    ensures u.full_name.Some? ==> u.full_name.value == Trim(fullName)
  {
    ProfileUpdate(profileId, TrimOrNull(fullName), avatar)
  }

  /** The page's state. */
  class ProfileForm {
    var loading: bool
    var saving: bool
    var profile: Option<Profile>
    var fullName: string
    var avatar: SlothAvatarId

    constructor ()
      ensures loading && !saving && profile == None
      ensures fullName == "" && avatar == SlothDefault
    {
      loading := true;
      saving := false;
      profile := None;
      fullName := "";
      avatar := SlothDefault;
    }

    /** The name input and the avatar picker. */
    method Edit(name: string, choice: SlothAvatarId)
      modifies this
      ensures fullName == name && avatar == choice
      ensures loading == old(loading) && saving == old(saving) && profile == old(profile)
    {
      fullName := name;
      avatar := choice;
    }

    /** `loadProfile`, given the signed-in user's id, if any, and the answer of the query for that
        user's profile. Without a user the page redirects to the login and reads nothing (`queried` is
        the id whose profile is read). A returned profile fills the form, a null name as `''` and a
        null avatar as `sloth-default`; a failure leaves the form. Loading ends in every case. */
    method LoadProfile(userId: Option<string>, response: Response<Profile>) returns (queried: Option<string>)
      modifies this
      ensures queried == userId
      ensures userId.Some? && response.Data? ==>
        profile == Some(response.row) && fullName == OrEmpty(response.row.full_name) &&
        avatar == AvatarOrDefault(response.row.avatar)
      ensures userId.None? || response.Error? ==>
        profile == old(profile) && fullName == old(fullName) && avatar == old(avatar)
      ensures !loading && saving == old(saving)
    {
      queried := userId;
      if userId.Some? && response.Data? {
        var p := response.row;
        profile := Some(p);
        fullName := OrEmpty(p.full_name);
        avatar := AvatarOrDefault(p.avatar);
      }
      loading := false;
    }

    /** `handleSave`: without a loaded profile nothing happens; otherwise the name trimmed (null
        when blank) and the avatar are sent for the loaded profile, and saving ends whether or not
        the update failed. `sent` is the update sent. */
    method HandleSave() returns (sent: Option<ProfileUpdate>)
      modifies this
      ensures sent.Some? <==> old(profile).Some?
      ensures sent.Some? ==> sent.value == UpdateOf(old(profile).value.id, old(fullName), old(avatar))
      ensures sent.Some? ==> !saving
      ensures sent.None? ==> saving == old(saving)
      ensures loading == old(loading) && profile == old(profile)
      ensures fullName == old(fullName) && avatar == old(avatar)
    {
      if profile.None? {
        return None;
      }
      var update := UpdateOf(profile.value.id, fullName, avatar);
      saving := true;
      sent := Some(update);
      saving := false;
    }
  }

  /** The profile an update leaves in the database. */
  function Saved(p: Profile, u: ProfileUpdate): Profile {
    p.(full_name := u.full_name, avatar := Some(u.avatar))
  }

  /** Loading a saved profile shows the name as it was saved, trimmed, and the avatar chosen. */
  lemma LoadAfterSave(p: Profile, fullName: string, avatar: SlothAvatarId)
    ensures var q := Saved(p, UpdateOf(p.id, fullName, avatar));
      OrEmpty(q.full_name) == Trim(fullName) && AvatarOrDefault(q.avatar) == avatar
  {
  }

  /** Saving the form just loaded stores the profile's name back unchanged exactly when that name is
      null or a non-empty trimmed text. */
  lemma SaveAfterLoad(p: Profile)
    ensures TrimOrNull(OrEmpty(p.full_name)) == p.full_name <==> StableText(p.full_name)
  {
    NullableTextRoundTrip(p.full_name);
  }
}
