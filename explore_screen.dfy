/**
 * The explore screen: a category filter, the users of the chosen category
 * fetched from the backend, and, for the recommended category, a deck of
 * cards whose cursor moves only once a like/dislike request has succeeded.
 * The action handler is modelled as written, although the deck's cards never
 * call it: the card component does not read the swipe callbacks it is given.
 */
module ExploreScreen {
  import opened Js
  import opened Types
  import CardStack

  datatype Category = Recommended | Liked | Disliked | LikedMe

  /**
   * A row of a category listing. The backend nests the user under one of
   * three keys depending on the category; `asUser` is the row itself read as
   * a user, for listings that are not nested.
   */
  datatype Row = Row(
    dislikedUser: Option<User>,
    likedUser: Option<User>,
    user: Option<User>,
    asUser: User)

  /** The user a row stands for: `disliked_user`, else `liked_user`, else `user`, else the row. */
  function ExtractUser(row: Row): (u: User)
    ensures Some(u) == row.dislikedUser || Some(u) == row.likedUser || Some(u) == row.user || u == row.asUser
    ensures row.dislikedUser.Some? ==> u == row.dislikedUser.value
    ensures row.dislikedUser.None? && row.likedUser.None? && row.user.None? ==> u == row.asUser
  {
    if row.dislikedUser.Some? then row.dislikedUser.value
    else if row.likedUser.Some? then row.likedUser.value
    else if row.user.Some? then row.user.value
    else row.asUser
  }

  /** The first present candidate, or the fallback when none is. */
  function FirstPresent(candidates: seq<Option<User>>, fallback: User): (u: User)
    ensures (forall k :: 0 <= k < |candidates| ==> candidates[k].None?) ==> u == fallback
    ensures forall k ::
      (0 <= k < |candidates| && candidates[k].Some? && forall j :: 0 <= j < k ==> candidates[j].None?)
      ==> u == candidates[k].value
  {
    if candidates == [] then fallback
    else if candidates[0].Some? then candidates[0].value
    else FirstPresent(candidates[1..], fallback)
  }

  /** The extraction takes the nested users by a fixed precedence. */
  lemma ExtractByPrecedence(row: Row)
    ensures ExtractUser(row) == FirstPresent([row.dislikedUser, row.likedUser, row.user], row.asUser)
  {
    var c := [row.dislikedUser, row.likedUser, row.user];
    if row.dislikedUser.None? && row.likedUser.None? && row.user.None? {
      assert forall k :: 0 <= k < |c| ==> c[k].None?;
    } else if row.dislikedUser.None? && row.likedUser.None? {
      assert c[2].Some? && forall j :: 0 <= j < 2 ==> c[j].None?;
    } else if row.dislikedUser.None? {
      assert c[1].Some? && forall j :: 0 <= j < 1 ==> c[j].None?;
    } else {
      assert c[0].Some?;
    }
  }

  /** `responseData.map(...)`: one user per row, in the rows' order. */
  function ExtractUsers(rows: seq<Row>): (users: seq<User>)
    ensures |users| == |rows|
    ensures forall k :: 0 <= k < |rows| ==> users[k] == ExtractUser(rows[k])
  {
    if rows == [] then [] else [ExtractUser(rows[0])] + ExtractUsers(rows[1..])
  }

  /** Extracting a concatenation extracts each part. */
  lemma ExtractUsersAppend(a: seq<Row>, b: seq<Row>)
    ensures ExtractUsers(a + b) == ExtractUsers(a) + ExtractUsers(b)
  {
    var l, r := ExtractUsers(a + b), ExtractUsers(a) + ExtractUsers(b);
    assert |l| == |r|;
    forall k | 0 <= k < |l| ensures l[k] == r[k] {
      if k < |a| {
        assert (a + b)[k] == a[k];
      } else {
        assert (a + b)[k] == b[k - |a|];
      }
    }
  }

  /** A listing of liked rows yields exactly the liked users. */
  lemma LikedRowsGiveLikedUsers(rows: seq<Row>)
    requires forall k :: 0 <= k < |rows| ==> rows[k].dislikedUser.None? && rows[k].likedUser.Some?
    ensures ExtractUsers(rows) == seq(|rows|, k requires 0 <= k < |rows| => rows[k].likedUser.value)
  {
  }

  /** What an endpoint answers: the recommendations are users, the other categories rows. */
  datatype Payload = UserList(users: seq<User>) | RowList(rows: seq<Row>)

  /** The endpoint for `category` answers with the matching kind of payload. */
  predicate Answers(category: Category, payload: Payload) {
    payload.UserList? <==> category == Recommended
  }

  datatype View = Spinner | NoMoreUsers | Cards(stack: seq<User>) | List(users: seq<User>)

  function ViewOf(loading: bool, users: seq<User>, category: Category, i: nat): (v: View)
    ensures loading <==> v.Spinner?
    ensures v.NoMoreUsers? <==> !loading && users == []
    ensures v.Cards? ==> category == Recommended && v.stack == CardStack.VisibleStack(users, i)
    ensures v.Cards? ==> (v.stack == [] <==> i >= |users|)
    ensures v.List? ==> category != Recommended && v.users == users
  {
    if loading then Spinner
    else if users == [] then NoMoreUsers
    else if category == Recommended then Cards(CardStack.VisibleStack(users, i))
    else List(users)
  }

  /** The screen's state as the component holds it. */
  class ExploreFeed {
    var users: seq<User>
    var loading: bool
    var category: Category
    var currentIndex: nat
    /** Every like/dislike request made, in order, whatever its outcome. */
    var requested: seq<Submission>

    constructor ()
      ensures users == [] && loading && category == Recommended && currentIndex == 0 && requested == []
    {
      users, loading, category, currentIndex, requested := [], true, Recommended, 0, [];
    }

    /** A filter button: choosing a category (the screen then fetches it). */
    method SelectCategory(c: Category)
      modifies this`category
      ensures category == c
    {
      category := c;
    }

    /** The start of `fetchUsers`: spinner on, cursor back to the first card. */
    method BeginFetch()
      modifies this`loading, this`currentIndex
      ensures loading && currentIndex == 0
    {
      loading := true;
      currentIndex := 0;
    }

    /**
     * The end of `fetchUsers`: `response` is the endpoint's answer, `None`
     * when the request failed. The spinner goes off whatever happened.
     */
    method FinishFetch(response: Option<Payload>)
      requires response.Some? ==> Answers(category, response.value)
      modifies this`users, this`loading
      ensures !loading
      ensures response.None? ==> users == []
      ensures response.Some? && category == Recommended ==> users == response.value.users
      ensures response.Some? && category != Recommended ==>
        |users| == |response.value.rows| &&
        forall k :: 0 <= k < |users| ==> users[k] == ExtractUser(response.value.rows[k])
    {
      if response.None? {
        users := [];
      } else if category == Recommended {
        users := response.value.users;
      } else {
        users := ExtractUsers(response.value.rows);
      }
      loading := false;
    }

    /**
     * `handleAction`, up to its `await`: the request is made. Other steps,
     * such as a new fetch, may run before it settles.
     */
    method HandleActionRequest(userId: int, action: Action)
      modifies this`requested
      ensures requested == old(requested) + [Submission(userId, action)]
    {
      requested := requested + [Submission(userId, action)];
    }

    /**
     * `handleAction` after its `await`: a success advances the cursor as it
     * stands now, by exactly one; a failure leaves it.
     */
    method HandleActionSettled(succeeded: bool)
      modifies this`currentIndex
      ensures currentIndex == if succeeded then old(currentIndex) + 1 else old(currentIndex)
    {
      if succeeded {
        currentIndex := currentIndex + 1;
      }
    }

    function View(): View
      reads this
    {
      ViewOf(loading, users, category, currentIndex)
    }
  }
}
