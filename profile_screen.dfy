/**
 * The profile screen: the picture strip (profile picture first, then the
 * user's other pictures) and the name shown under the avatar, shortened when
 * it is long.
 */
module ProfileScreen {
  import opened Js
  import opened Types

  /** The user has a profile whose picture URL is truthy. */
  predicate HasProfilePicture(user: Option<User>) {
    user.Some? && user.value.profile.Some? && Truthy(user.value.profile.value.profilePictureUrl)
  }

  /**
   * `allPictures`: the profile picture, when there is one, tagged `"profile"`,
   * then every picture of the user in order.
   */
  method AllPictures(user: Option<User>) returns (pictures: seq<Picture>)
    ensures user.None? ==> pictures == []
    ensures var offset := if HasProfilePicture(user) then 1 else 0;
      user.Some? ==>
        |pictures| == offset + |user.value.pictures| &&
        pictures[offset..] == user.value.pictures
    ensures HasProfilePicture(user) ==>
      pictures[0] == Picture(ProfileTag, user.value.profile.value.profilePictureUrl.value)
  {
    pictures := [];
    if user.Some? && user.value.profile.Some? && Truthy(user.value.profile.value.profilePictureUrl) {
      pictures := pictures + [Picture(ProfileTag, user.value.profile.value.profilePictureUrl.value)];
    }
    if user.Some? {
      pictures := pictures + user.value.pictures;
    }
  }

  const MaxNameLength: nat := 18

  /** The shown name: its first 18 characters and `...` when longer, otherwise unchanged. */
  function DisplayName(name: string): (r: string)
    ensures |r| <= MaxNameLength + 3
    ensures |name| <= MaxNameLength ==> r == name
    ensures |name| > MaxNameLength ==> |r| == MaxNameLength + 3 && r[..MaxNameLength] == name[..MaxNameLength]
  {
    if |name| > MaxNameLength then name[..MaxNameLength] + "..." else name
  }

  /** A long name shows its first 18 characters followed by `...`; a short one shows as it is. */
  lemma DisplayNameCases(name: string)
    ensures |name| > MaxNameLength ==>
      |DisplayName(name)| == MaxNameLength + 3 &&
      DisplayName(name)[..MaxNameLength] == name[..MaxNameLength] &&
      DisplayName(name)[MaxNameLength..] == "..."
    ensures |name| <= MaxNameLength ==> DisplayName(name) == name
  {
  }

  /** The shown name is never longer than 21 characters and always begins like the name. */
  lemma DisplayNameBounded(name: string)
    ensures |DisplayName(name)| <= MaxNameLength + 3
    ensures var shown := if |name| <= MaxNameLength then |name| else MaxNameLength;
      DisplayName(name)[..shown] == name[..shown]
  {
  }

  /** Shortening a shown name again changes nothing. */
  lemma DisplayNameIdempotent(name: string)
    ensures DisplayName(DisplayName(name)) == DisplayName(name)
  {
    if |name| > MaxNameLength {
      var d := DisplayName(name);
      assert d[..MaxNameLength] == name[..MaxNameLength];
      assert d[MaxNameLength..] == "...";
      assert d == d[..MaxNameLength] + d[MaxNameLength..];
    }
  }
}
