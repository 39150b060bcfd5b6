/**
 * The profile header: the follow toggle for someone else's profile, and the
 * edit button and edit modal for one's own.
 */
module ProfileHeader {
  import opened EditProfileModal

  /** The button at the top right: "Edit Profile" on one's own profile, otherwise the follow button. */
  function ActionButtonText(isOwnProfile: bool, isFollowing: bool): (text: string)
    ensures isOwnProfile ==> text == "Edit Profile"
    ensures !isOwnProfile ==> (text == "Following" <==> isFollowing)
    ensures !isOwnProfile ==> (text == "Follow" <==> !isFollowing)
  {
    if isOwnProfile then "Edit Profile" else if isFollowing then "Following" else "Follow"
  }

  class Header {
    const isOwnProfile: bool
    const profile: ProfileData
    /** The edit modal, present only on one's own profile. */
    const editModal: EditForm?
    var isFollowing: bool
    var isEditModalOpen: bool

    /** The modal exists exactly on one's own profile, and its `profile` prop is the header's profile. */
    ghost predicate Valid()
      reads this, editModal
    {
      (editModal != null <==> isOwnProfile)
      && (editModal != null ==> editModal.profile == profile)
    }

    constructor (isOwnProfile: bool, profile: ProfileData)
      ensures Valid()
      ensures this.isOwnProfile == isOwnProfile && this.profile == profile
      ensures !isFollowing && !isEditModalOpen
      ensures editModal != null ==> fresh(editModal) && editModal.profile == profile && editModal.formData == profile
    {
      this.isOwnProfile := isOwnProfile;
      this.profile := profile;
      if isOwnProfile {
        editModal := new EditForm(profile);
      } else {
        editModal := null;
      }
      isFollowing := false;
      isEditModalOpen := false;
    }

    method HandleFollowClick()
      modifies this
      ensures isFollowing == !old(isFollowing) && isEditModalOpen == old(isEditModalOpen)
    {
      isFollowing := !isFollowing;
    }

    method HandleEditProfile()
      modifies this
      ensures isEditModalOpen && isFollowing == old(isFollowing)
    {
      isEditModalOpen := true;
    }

    /** The modal's open-change callback: the flag takes the value passed. */
    method SetEditModalOpen(open: bool)
      modifies this
      ensures isEditModalOpen == open && isFollowing == old(isFollowing)
    {
      isEditModalOpen := open;
    }

    /**
     * Save in the edit modal: the modal hands its form data to the header's
     * save handler, which only logs it, then asks to close. The displayed
     * profile is the one the header was given.
     */
    method SaveFromEditModal() returns (saved: ProfileData)
      requires Valid() && isOwnProfile
      modifies this, editModal
      ensures Valid()
      ensures saved == old(editModal.formData) && editModal.profile == profile
      ensures !isEditModalOpen && isFollowing == old(isFollowing)
      ensures !editModal.isSaving && editModal.formData == old(editModal.formData)
    {
      var openChange;
      saved, openChange := editModal.HandleSave();
      SetEditModalOpen(openChange);
    }

    /** The header's button text. */
    function ButtonText(): (text: string)
      reads this
      ensures isOwnProfile ==> text == "Edit Profile"
      ensures !isOwnProfile ==> (text == "Following" <==> isFollowing)
      ensures !isOwnProfile ==> (text == "Follow" <==> !isFollowing)
    {
      ActionButtonText(isOwnProfile, isFollowing)
    }
  }

  /** Two follow clicks give back the state they started from. */
  method FollowTwice(h: Header)
    modifies h
    ensures h.isFollowing == old(h.isFollowing) && h.isEditModalOpen == old(h.isEditModalOpen)
  {
    h.HandleFollowClick();
    h.HandleFollowClick();
  }
}
