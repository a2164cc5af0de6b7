/**
 * The home screen's card deck: a list of recommended users fetched once, a
 * cursor `currentIndex` into it, like/nope buttons that submit one action for
 * the current user and advance, an undo button that rewinds the cursor, and a
 * reset button that starts over once the deck is exhausted. The swipe
 * callbacks the screen hands its cards are never called, since the card
 * component does not read them.
 *
 * The action request is modelled by the log of submissions it was asked to
 * make; the cursor moves whether or not the request later succeeds.
 */
module HomeScreen {
  import opened Js
  import opened Types
  import CardStack
  import UserCard

  /** The buttons the user can press on this screen. */
  datatype Event = LikePressed | NopePressed | UndoPressed | ResetPressed

  /** The cursor and the requests made so far. */
  datatype Deck = Deck(index: nat, submitted: seq<Submission>)

  /** There is a current profile: the list has arrived and the cursor is inside it. */
  predicate HasCurrent(profiles: Option<seq<User>>, i: nat) {
    profiles.Some? && i < |profiles.value|
  }

  /** `handleLike` / `handleNope`. */
  function Swipe(profiles: Option<seq<User>>, d: Deck, action: Action): (r: Deck)
    ensures r.index == d.index + 1 <==> HasCurrent(profiles, d.index)
    ensures r.index != d.index + 1 ==> r == d
    ensures |d.submitted| <= |r.submitted| <= |d.submitted| + 1 && r.submitted[..|d.submitted|] == d.submitted
  {
    if HasCurrent(profiles, d.index) then
      Deck(d.index + 1, d.submitted + [Submission(profiles.value[d.index].id, action)])
    else
      d
  }

  /** `handleUndo`: rewinds locally; a request already made stays made. */
  function Undo(d: Deck): (r: Deck)
    ensures r.submitted == d.submitted
    ensures r.index <= d.index <= r.index + 1
    ensures r.index == d.index <==> d.index == 0
  {
    if d.index > 0 then d.(index := d.index - 1) else d
  }

  /** One button press. */
  function Apply(profiles: Option<seq<User>>, d: Deck, e: Event): (r: Deck)
    ensures |d.submitted| <= |r.submitted| <= |d.submitted| + 1 && r.submitted[..|d.submitted|] == d.submitted
    ensures profiles.Some? && d.index <= |profiles.value| ==> r.index <= |profiles.value|
    ensures e.UndoPressed? || e.ResetPressed? ==> r.submitted == d.submitted
  {
    match e
    case LikePressed => Swipe(profiles, d, Like)
    case NopePressed => Swipe(profiles, d, Dislike)
    case UndoPressed => Undo(d)
    case ResetPressed => d.(index := 0)
  }

  /** A sequence of button presses, in order. */
  function Run(profiles: Option<seq<User>>, d: Deck, events: seq<Event>): (r: Deck)
    ensures |d.submitted| <= |r.submitted| <= |d.submitted| + |events|
    decreases |events|
  {
    if events == [] then d else Run(profiles, Apply(profiles, d, events[0]), events[1..])
  }

  /** A request names a user of the list. */
  predicate NamesListed(p: seq<User>, s: Submission) {
    exists k :: 0 <= k < |p| && p[k].id == s.userId
  }

  /** With a current profile, a like or nope press makes one request, for that profile, and advances by one. */
  lemma SwipeSubmitsCurrent(profiles: Option<seq<User>>, d: Deck, action: Action)
    requires HasCurrent(profiles, d.index)
    ensures var d' := Swipe(profiles, d, action);
      d'.index == d.index + 1 &&
      |d'.submitted| == |d.submitted| + 1 &&
      d'.submitted[..|d.submitted|] == d.submitted &&
      d'.submitted[|d.submitted|] == Submission(profiles.value[d.index].id, action)
  {
  }

  /** Without profiles, or past the end, a like or nope press makes no request and leaves the cursor. */
  lemma SwipeWhenNoCurrentIsNoOp(profiles: Option<seq<User>>, d: Deck, action: Action)
    requires !HasCurrent(profiles, d.index)
    ensures Swipe(profiles, d, action) == d
  {
  }

  /** Undo moves back by one when it can, and at 0 changes nothing. */
  lemma UndoBoundedAtZero(d: Deck)
    ensures d.index > 0 ==> Undo(d).index + 1 == d.index
    ensures d.index == 0 ==> Undo(d) == d
    ensures Undo(d).submitted == d.submitted
  {
  }

  /**
   * A like or nope press followed by an undo is back at the same cursor, so at the same
   * current profile; the request the press made is not taken back.
   */
  lemma SwipeThenUndo(profiles: Option<seq<User>>, d: Deck, action: Action)
    requires HasCurrent(profiles, d.index)
    ensures var d' := Undo(Swipe(profiles, d, action));
      d'.index == d.index &&
      HasCurrent(profiles, d'.index) && profiles.value[d'.index] == profiles.value[d.index] &&
      d'.submitted == d.submitted + [Submission(profiles.value[d.index].id, action)]
  {
  }

  /** For a fixed list, the cursor stays within `0..|list|` whatever is pressed. */
  lemma {:induction false} RunStaysInBounds(p: seq<User>, d: Deck, events: seq<Event>)
    requires d.index <= |p|
    ensures Run(Some(p), d, events).index <= |p|
    decreases |events|
  {
    if events != [] {
      var d' := Apply(Some(p), d, events[0]);
      assert d'.index <= |p|;
      RunStaysInBounds(p, d', events[1..]);
    }
  }

  /**
   * The request log only grows, by at most one request per event, and every
   * new request names a user of the list.
   */
  lemma {:induction false} RunLog(p: seq<User>, d: Deck, events: seq<Event>)
    ensures var r := Run(Some(p), d, events);
      |d.submitted| <= |r.submitted| <= |d.submitted| + |events| &&
      r.submitted[..|d.submitted|] == d.submitted &&
      forall j :: |d.submitted| <= j < |r.submitted| ==> NamesListed(p, r.submitted[j])
    decreases |events|
  {
    if events != [] {
      var d' := Apply(Some(p), d, events[0]);
      assert |d.submitted| <= |d'.submitted| <= |d.submitted| + 1;
      assert d'.submitted[..|d.submitted|] == d.submitted;
      assert forall j :: |d.submitted| <= j < |d'.submitted| ==> NamesListed(p, d'.submitted[j]) by {
        if |d'.submitted| > |d.submitted| {
          assert NamesListed(p, d'.submitted[|d.submitted|]) by {
            assert p[d.index].id == d'.submitted[|d.submitted|].userId;
          }
        }
      }
      RunLog(p, d', events[1..]);
      var r := Run(Some(p), d', events[1..]);
      assert r == Run(Some(p), d, events);
      assert r.submitted[..|d.submitted|] == r.submitted[..|d'.submitted|][..|d.submitted|];
    }
  }

  /** Before the list has arrived nothing is ever requested. */
  lemma {:induction false} NoProfilesNoRequests(d: Deck, events: seq<Event>)
    ensures Run(None, d, events).submitted == d.submitted
    decreases |events|
  {
    if events != [] {
      NoProfilesNoRequests(Apply(None, d, events[0]), events[1..]);
    }
  }

  /** What a user card is given to draw. */
  datatype CardProfile = CardProfile(
    name: Option<string>,
    age: Option<int>,
    location: Option<string>,
    bio: Option<string>,
    birthDate: Option<string>,
    profilePictureUrl: string)

  const Placeholder500: string := "https://via.placeholder.com/500"

  /**
   * `profileForCard`: the user's profile with a placeholder picture when it
   * has none, or, for a user without a profile, the user's name and fixed
   * defaults.
   */
  function ProfileForCard(u: User): (c: CardProfile)
    ensures c.profilePictureUrl != ""
    ensures u.profile.Some? ==>
      c.name == u.profile.value.name && c.age == u.profile.value.age &&
      c.location == u.profile.value.location && c.bio == u.profile.value.bio &&
      c.birthDate == u.profile.value.birthDate
    ensures u.profile.Some? && Truthy(u.profile.value.profilePictureUrl) ==>
      c.profilePictureUrl == u.profile.value.profilePictureUrl.value
    ensures (u.profile.None? || !Truthy(u.profile.value.profilePictureUrl)) ==>
      c.profilePictureUrl == Placeholder500
    ensures u.profile.None? ==>
      c == CardProfile(Some(u.name), Some(0), Some("Unknown"), Some(""), Some(""), Placeholder500)
  {
    match u.profile
    case Some(p) =>
      CardProfile(p.name, p.age, p.location, p.bio, p.birthDate, OrElse(p.profilePictureUrl, Placeholder500))
    case None =>
      CardProfile(Some(u.name), Some(0), Some("Unknown"), Some(""), Some(""), Placeholder500)
  }

  /**
   * The props a deck card is given. The component reads only `card`; the
   * screen's `profile` and swipe callbacks are not among its props.
   */
  datatype CardProps = CardProps(card: Option<UserCard.Card>, profile: Option<CardProfile>)

  /** As written: each card gets `profile` (and the swipe callbacks) but no `card`. */
  function PropsAsWritten(u: User): (props: CardProps)
    ensures props.card.None? && props.profile == Some(ProfileForCard(u))
  {
    CardProps(None, Some(ProfileForCard(u)))
  }

  /** Every deck card, as written, draws nothing. */
  lemma AsWrittenCardsDrawNothing(u: User)
    ensures UserCard.Render(PropsAsWritten(u).card) == None
  {
  }

  /** As intended: the card for the user is handed over under the prop the component reads. */
  function PropsCorrected(u: User): (props: CardProps)
    ensures props.card.Some? && props.profile == Some(ProfileForCard(u))
  {
    var c := ProfileForCard(u);
    CardProps(Some(UserCard.Card(u.id, c.name, c.age, c.profilePictureUrl)), Some(c))
  }

  /** With the corrected props each card draws the picture, name and age of its profile. */
  lemma CorrectedCardShowsProfile(u: User)
    ensures var d := UserCard.Render(PropsCorrected(u).card);
      d.Some? && d.value.pictureUri == ProfileForCard(u).profilePictureUrl && d.value.pictureUri != "" &&
      d.value.name == ProfileForCard(u).name && d.value.age == ProfileForCard(u).age
  {
  }

  /** What the screen shows. */
  datatype View = Spinner | LoadFailed | Exhausted | Cards(stack: seq<CardProfile>)

  function ViewOf(isLoading: bool, isError: bool, profiles: Option<seq<User>>, i: nat): (v: View)
    ensures v.Spinner? <==> isLoading
    ensures v.LoadFailed? <==> !isLoading && (isError || profiles.None?)
    ensures !isLoading && !isError && profiles.Some? ==>
      (v.Exhausted? <==> i >= |profiles.value|) &&
      (v.Cards? <==> i < |profiles.value|)
    ensures v.Cards? ==>
      var shown := CardStack.VisibleStack(profiles.value, i);
      HasCurrent(profiles, i) && |v.stack| == |shown| &&
      forall k :: 0 <= k < |shown| ==> v.stack[k] == ProfileForCard(shown[k])
    ensures v.Cards? ==>
      1 <= |v.stack| <= 2 &&
      |v.stack| == (if i + 2 <= |profiles.value| then 2 else 1) &&
      v.stack[|v.stack| - 1] == ProfileForCard(profiles.value[i])
    ensures v.Cards? && |v.stack| == 2 ==>
      i + 1 < |profiles.value| && v.stack[0] == ProfileForCard(profiles.value[i + 1])
  {
    if isLoading then Spinner
    else if isError || profiles.None? then LoadFailed
    else if i >= |profiles.value| then Exhausted
    else
      var shown := CardStack.VisibleStack(profiles.value, i);
      Cards(seq(|shown|, k requires 0 <= k < |shown| => ProfileForCard(shown[k])))
  }

  /** After a reset a loaded, non-empty deck shows its first profile on top again. */
  lemma ResetShowsFirst(p: seq<User>, d: Deck)
    requires p != []
    ensures var v := ViewOf(false, false, Some(p), Apply(Some(p), d, ResetPressed).index);
      v.Cards? && v.stack[|v.stack| - 1] == ProfileForCard(p[0])
  {
  }

  /** The deck as the screen component holds it. */
  class HomeDeck {
    /** The query's data, loading flag and error flag. */
    var profiles: Option<seq<User>>
    var isLoading: bool
    var isError: bool
    var currentIndex: nat
    /** Every like/dislike request handed to the mutation, in order. */
    var submitted: seq<Submission>

    ghost function State(): Deck
      reads this
    {
      Deck(currentIndex, submitted)
    }

    /** The cursor is within the list, if there is one. */
    ghost predicate InBounds()
      reads this
    {
      profiles.Some? ==> currentIndex <= |profiles.value|
    }

    constructor ()
      ensures profiles == None && isLoading && !isError
      ensures currentIndex == 0 && submitted == []
      ensures InBounds()
    {
      profiles, isLoading, isError := None, true, false;
      currentIndex, submitted := 0, [];
    }

    /**
     * The query reports new data or a new status; a refetch replaces the
     * list wholesale and the cursor is left where it was.
     */
    method QueryUpdate(data: Option<seq<User>>, loading: bool, error: bool)
      modifies this`profiles, this`isLoading, this`isError
      ensures profiles == data && isLoading == loading && isError == error
      ensures currentIndex == old(currentIndex) && submitted == old(submitted)
    {
      profiles, isLoading, isError := data, loading, error;
    }

    /** `nextCard`. */
    method NextCard()
      modifies this`currentIndex
      ensures currentIndex == old(currentIndex) + 1
    {
      currentIndex := currentIndex + 1;
    }

    method HandleLike()
      modifies this`currentIndex, this`submitted
      ensures State() == Swipe(profiles, old(State()), Like)
      ensures old(InBounds()) ==> InBounds()
    {
      if profiles.Some? && currentIndex < |profiles.value| {
        submitted := submitted + [Submission(profiles.value[currentIndex].id, Like)];
        NextCard();
      }
    }

    method HandleNope()
      modifies this`currentIndex, this`submitted
      ensures State() == Swipe(profiles, old(State()), Dislike)
      ensures old(InBounds()) ==> InBounds()
    {
      if profiles.Some? && currentIndex < |profiles.value| {
        submitted := submitted + [Submission(profiles.value[currentIndex].id, Dislike)];
        NextCard();
      }
    }

    method HandleUndo()
      modifies this`currentIndex
      ensures State() == Undo(old(State()))
      ensures old(InBounds()) ==> InBounds()
    {
      if currentIndex > 0 {
        currentIndex := currentIndex - 1;
      }
    }

    /** The "start again" button of the exhausted view. */
    method PressReset()
      modifies this`currentIndex
      ensures State() == Apply(profiles, old(State()), ResetPressed)
      ensures currentIndex == 0 && InBounds()
    {
      currentIndex := 0;
    }

    function View(): View
      reads this
    {
      ViewOf(isLoading, isError, profiles, currentIndex)
    }
  }
}
