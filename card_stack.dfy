/**
 * The cards a card deck screen draws: the current user and the one after it,
 * `users.slice(i, i + 2).reverse()`, so that the current card is drawn last,
 * on top.
 */
module CardStack {
  import opened Js

  function VisibleStack<T>(users: seq<T>, i: nat): (r: seq<T>)
    ensures |r| == if i < |users| then (if i + 2 <= |users| then 2 else |users| - i) else 0
    ensures i < |users| ==> r[|r| - 1] == users[i]
    ensures |r| == 2 ==> r[0] == users[i + 1]
    ensures i >= |users| <==> r == []
  {
    Reverse(Slice(users, i, i + 2))
  }
}
