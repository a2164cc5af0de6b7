/**
 * The card component the card decks draw. It reads a single `card` prop and
 * draws nothing without it; it has no gesture handling of its own.
 */
module UserCard {
  import opened Js

  /** The `card` prop. */
  datatype Card = Card(id: int, name: Option<string>, age: Option<int>, profilePicture: string)

  /** What the component draws: the picture and the parts of the `name, age` caption. */
  datatype Drawn = Drawn(pictureUri: string, name: Option<string>, age: Option<int>)

  function Render(card: Option<Card>): (r: Option<Drawn>)
    ensures r.None? <==> card.None?
    ensures card.Some? ==> r.value.pictureUri == card.value.profilePicture
  {
    match card
    case None => None
    case Some(c) => Some(Drawn(c.profilePicture, c.name, c.age))
  }
}
