/**
 * The profile edit form: a copy of the profile edited one field at a time,
 * reset on cancel and whenever the profile prop changes, and handed to
 * `onSave` on save.
 */
module EditProfileModal {
  import opened Wrappers

  datatype ProfileData = ProfileData(
    name: string,
    username: string,
    bio: string,
    followers: int,
    following: int,
    joinedDate: string,
    location: Option<string>,
    coverImage: Option<string>,
    avatarUrl: Option<string>)

  /** The text-valued fields of a profile: the keys an input change can set to a string. */
  datatype TextField = Name | Username | Bio | JoinedDate | Location | CoverImage | AvatarUrl

  /** The current value of a text field (None for an absent optional field). */
  function FieldValue(p: ProfileData, f: TextField): Option<string> {
    match f
    case Name => Some(p.name)
    case Username => Some(p.username)
    case Bio => Some(p.bio)
    case JoinedDate => Some(p.joinedDate)
    case Location => p.location
    case CoverImage => p.coverImage
    case AvatarUrl => p.avatarUrl
  }

  /** The profile with field f set to v: f now reads v, every other field reads as before. */
  function WithField(p: ProfileData, f: TextField, v: string): (r: ProfileData)
    ensures FieldValue(r, f) == Some(v)
    ensures forall g :: g != f ==> FieldValue(r, g) == FieldValue(p, g)
    ensures r.followers == p.followers && r.following == p.following
  {
    match f
    case Name => p.(name := v)
    case Username => p.(username := v)
    case Bio => p.(bio := v)
    case JoinedDate => p.(joinedDate := v)
    case Location => p.(location := Some(v))
    case CoverImage => p.(coverImage := Some(v))
    case AvatarUrl => p.(avatarUrl := Some(v))
  }

  /** Typing twice into one field keeps only the last value. */
  lemma WithFieldOverwrites(p: ProfileData, f: TextField, v: string, w: string)
    ensures WithField(WithField(p, f, v), f, w) == WithField(p, f, w)
  {
  }

  /** Edits to two different fields can be made in either order. */
  lemma WithFieldCommutes(p: ProfileData, f: TextField, g: TextField, v: string, w: string)
    requires f != g
    ensures WithField(WithField(p, f, v), g, w) == WithField(WithField(p, g, w), f, v)
  {
  }

  class EditForm {
    /** The `profile` prop. */
    var profile: ProfileData
    var formData: ProfileData
    var isSaving: bool

    constructor (profile: ProfileData)
      ensures this.profile == profile && formData == profile && !isSaving
      ensures ButtonsEnabled()
    {
      this.profile := profile;
      formData := profile;
      isSaving := false;
    }

    /** A new `profile` prop; the effect copies it into the form when it differs from the previous one. */
    method ReceiveProfile(p: ProfileData)
      modifies this
      ensures profile == p && isSaving == old(isSaving)
      ensures formData == if p != old(profile) then p else old(formData)
    {
      if p != profile {
        formData := p;
      }
      profile := p;
    }

    method HandleInputChange(f: TextField, v: string)
      modifies this
      ensures formData == WithField(old(formData), f, v)
      ensures profile == old(profile) && isSaving == old(isSaving)
    {
      formData := WithField(formData, f, v);
    }

    /** Save, first half: the button turns to "Saving..." and the form data is captured for `onSave`. */
    method StartSave() returns (pending: ProfileData)
      modifies this
      ensures isSaving && pending == old(formData)
      ensures !ButtonsEnabled()
      ensures formData == old(formData) && profile == old(profile)
    {
      isSaving := true;
      pending := formData;
    }

    /** Save, second half: the captured data goes to `onSave`, saving ends and the modal asks to close (`openChange` false). */
    method FinishSave(pending: ProfileData) returns (saved: ProfileData, openChange: bool)
      modifies this
      ensures saved == pending && !openChange && !isSaving
      ensures ButtonsEnabled()
      ensures formData == old(formData) && profile == old(profile)
    {
      saved := pending;
      isSaving := false;
      openChange := false;
    }

    /** Save as one step: `onSave` receives the form data as it was when Save was pressed. */
    method HandleSave() returns (saved: ProfileData, openChange: bool)
      modifies this
      ensures saved == old(formData) && !openChange && !isSaving
      ensures ButtonsEnabled()
      ensures formData == old(formData) && profile == old(profile)
    {
      var pending := StartSave();
      saved, openChange := FinishSave(pending);
    }

    /** Cancel: the form goes back to the profile and the modal asks to close. */
    method HandleCancel() returns (openChange: bool)
      modifies this
      ensures formData == profile && !openChange
      ensures profile == old(profile) && isSaving == old(isSaving)
    {
      formData := profile;
      openChange := false;
    }

    /** Save and Cancel are both disabled while saving. */
    predicate ButtonsEnabled()
      reads this
    {
      !isSaving
    }
  }
}
