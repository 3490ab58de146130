/**
 * The profile page's edit cycle: the shown profile, an edited copy bound
 * to the name and bio inputs, and whether the page is in edit mode.
 */
module Profile {

  datatype UserProfile = UserProfile(
    name: string,
    username: string,
    bio: string,
    avatarUrl: string,
    followers: int,
    following: int,
    posts: int)

  /** Whether two profiles agree on everything the page never lets the user edit. */
  predicate SameFixedPart(a: UserProfile, b: UserProfile) {
    && a.username == b.username && a.avatarUrl == b.avatarUrl
    && a.followers == b.followers && a.following == b.following && a.posts == b.posts
  }

  /** The name input's `onChange`: `{...editedProfile, name}`. */
  function WithName(p: UserProfile, name: string): (r: UserProfile)
    ensures r.name == name && r.bio == p.bio && SameFixedPart(r, p)
  {
    p.(name := name)
  }

  /** The bio input's `onChange`: `{...editedProfile, bio}`. */
  function WithBio(p: UserProfile, bio: string): (r: UserProfile)
    ensures r.bio == bio && r.name == p.name && SameFixedPart(r, p)
  {
    p.(bio := bio)
  }

  /** Edits to name and bio do not interfere with each other. */
  lemma NameAndBioCommute(p: UserProfile, name: string, bio: string)
    ensures WithBio(WithName(p, name), bio) == WithName(WithBio(p, bio), name)
  {
  }

  /** The last name typed wins. */
  lemma LastNameWins(p: UserProfile, first: string, second: string)
    ensures WithName(WithName(p, first), second) == WithName(p, second)
  {
  }

  /** The profile the page starts with: a handle and avatar to show, and counters that are not negative. */
  function InitialProfile(): (r: UserProfile)
    ensures r.name != "" && |r.username| > 1 && r.username[0] == '@'
    ensures r.followers >= 0 && r.following >= 0 && r.posts >= 0
  {
    UserProfile("Jean", "@jean", "Vasco Porra", "/placeholder.svg?height=100&width=100", 1000, 500, 250)
  }

  /** The state of the profile page component. */
  class ProfilePage {
    var profile: UserProfile
    var editedProfile: UserProfile
    var isEditing: bool

    /** Nothing can make the edited copy differ from the profile outside name and bio. */
    ghost predicate Valid()
      reads this
    {
      SameFixedPart(profile, editedProfile)
    }

    constructor ()
      ensures Valid()
      ensures profile == InitialProfile() && editedProfile == profile && !isEditing
    {
      profile := InitialProfile();
      editedProfile := profile;
      isEditing := false;
    }

    /** `handleEditProfile`. */
    method Edit()
      modifies this
      ensures isEditing
      ensures profile == old(profile) && editedProfile == old(editedProfile)
    {
      isEditing := true;
    }

    /** `handleSaveProfile`. */
    method Save()
      requires Valid()
      modifies this
      ensures Valid()
      ensures profile == old(editedProfile) && editedProfile == old(editedProfile) && !isEditing
      ensures SameFixedPart(profile, old(profile))
    {
      profile := editedProfile;
      isEditing := false;
    }

    /** `handleCancelEdit`. */
    method Cancel()
      requires Valid()
      modifies this
      ensures Valid()
      ensures profile == old(profile) && editedProfile == old(profile) && !isEditing
    {
      editedProfile := profile;
      isEditing := false;
    }

    method EditName(name: string)
      requires Valid()
      modifies this
      ensures Valid()
      ensures editedProfile == WithName(old(editedProfile), name)
      ensures profile == old(profile) && isEditing == old(isEditing)
    {
      editedProfile := WithName(editedProfile, name);
    }

    method EditBio(bio: string)
      requires Valid()
      modifies this
      ensures Valid()
      ensures editedProfile == WithBio(old(editedProfile), bio)
      ensures profile == old(profile) && isEditing == old(isEditing)
    {
      editedProfile := WithBio(editedProfile, bio);
    }
  }

  /** A session of edits ending in save or cancel leaves the two copies equal and the fixed part as it was. */
  method EditSession(page: ProfilePage, name: string, bio: string, save: bool)
    requires page.Valid()
    modifies page
    ensures page.profile == page.editedProfile && !page.isEditing
    ensures SameFixedPart(page.profile, old(page.profile))
    ensures save ==> page.profile == WithBio(WithName(old(page.editedProfile), name), bio)
    ensures !save ==> page.profile == old(page.profile)
  {
    page.Edit();
    page.EditName(name);
    page.EditBio(bio);
    if save {
      page.Save();
    } else {
      page.Cancel();
    }
  }
}
