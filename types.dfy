/**
 * The records the screens exchange with the backend. Fields the backend may
 * send as `null` (or leave out) are `Option`s.
 */
module Types {
  import opened Js

  /** A picture's key: a backend id, or the tag the profile screen gives the profile picture. */
  datatype PictureId = ProfileTag | Numbered(n: int)

  datatype Picture = Picture(id: PictureId, pictureUrl: string)

  /** A profile as the backend sends it; `birthDate` is the `YYYY-MM-DD` text. */
  datatype Profile = Profile(
    name: Option<string>,
    bio: Option<string>,
    location: Option<string>,
    age: Option<int>,
    birthDate: Option<string>,
    profilePictureUrl: Option<string>)

  datatype User = User(
    id: int,
    name: string,
    email: string,
    profile: Option<Profile>,
    pictures: seq<Picture>)

  /** The two verdicts a user can give another. */
  datatype Action = Like | Dislike

  /** One `userAction(userId, action)` request handed to the network. */
  datatype Submission = Submission(userId: int, action: Action)
}
