# Dating-app front end: card decks, profile forms and URL helpers

This project models the logic of a React Native dating app's screens. The app's
own code is mostly rendering and network glue; what it decides for itself is
modelled here:

- **Home deck** (`HomeScreen`). A cursor runs over the recommended users. Like
  and nope make one `userAction` request for the current user and advance. Both
  do nothing once the deck is exhausted. Undo rewinds the cursor, stopping at 0.
  "Start again" sets the cursor back to 0. The screen hands the current user and the
  next one to the card component. A user without a profile gets default card
  fields. As written, the card component draws nothing for them (see
  "## Findings").
- **Explore feed** (`ExploreScreen`). Category listings are fetched. Rows are
  unwrapped to users by a fixed precedence. Every fetch resets the cursor, and a
  failed fetch leaves the list empty. In this deck the cursor advances only
  after the action request has succeeded. The request and its settling are two
  steps, so a fetch can start in between. A success that settles after a new
  fetch then moves the fresh cursor from 0 to 1.
- **Profile editor** (`CreateProfileScreen`). The age is computed from the birth
  date and today. The form fields, the date picker and the prefill from a
  fetched profile are modelled. So is the save payload, whose birth date is
  date-only `YYYY-MM-DD` text. The button label is also modelled.
- **User card** (`UserCard`). The card component the decks draw reads a
  single `card` prop and draws nothing without it.
- **Profile screen** (`ProfileScreen`). The picture strip puts the profile
  picture first. Names longer than 18 characters are shortened.
- **Configuration** (`Config`) and the image-URL helper (`ImageUrl`). The API
  base URL has a build-time fallback. The asset URL is the base with `/api`
  removed. Stored image paths are resolved against the asset URL.

Shared modules: `Js` holds the JavaScript semantics the screens rely on:
truthiness of nullable strings, `startsWith`, first-match `replace` with an
empty replacement, and the
clamping `slice` and `reverse`. `Types` holds the backend records. `CardStack`
holds the two-card window that both card decks draw.

State that a screen updates step by step is a class: `HomeDeck`, `ExploreFeed`
and `ProfileForm`. The home deck's methods are proved against the pure step
functions `Swipe`, `Undo` and `Apply`. Its multi-step properties are lemmas
about `Run`, the fold of `Apply` over a sequence of button presses.

External effects become parameters:

- A like or dislike request is an entry in a log of submissions.
- Whether an explore action succeeded is a `succeeded` flag.
- A fetch's answer is an `Option` payload, with `None` for a failed request.
- "Today" is a `Date` argument.
- An image picker's or date picker's answer is an `Option`, with `None` when
  the picker was dismissed.
- The build environment's API URL is an `Option<string>`.

Dates are (year, month, day) triples, with months numbered 1 to 12. The source
reads both of its dates with JavaScript's 0-based `getMonth`, so the month
difference it computes is the same.

## Model

| member | source | states |
|---|---|---|
| Config.ApiBaseUrl | src/config.ts:3 | The base is the environment value when that is truthy, else `http://192.168.18.27:8000/api`. |
| Config.ApiUrlIsBase | src/config.ts:5 | `API_URL` is the base URL, whichever source the base came from. |
| Config.AssetUrl | src/config.ts:6 | Without `/api` in the base the asset URL is the base. Otherwise it is exactly 4 characters shorter, and it is the base with its leftmost `/api` cut out. |
| Config.DefaultAssetUrl | src/config.ts:3-6 | With no environment value the asset URL is `http://192.168.18.27:8000`. |
| Js.RemoveFirst | src/config.ts:6 | `replace` with a string pattern and an empty replacement returns the input when the pattern is absent. Otherwise it cuts out only the leftmost occurrence, so the result is shorter by the pattern's length. |
| Js.OrElse | src/screens/CreateProfileScreen.tsx:39-41 | The `\|\|` fallback: a truthy string is kept; a null, undefined or empty one gives the fallback. |
| Js.Slice | src/screens/HomeScreen.tsx:113 | `slice(from, to)` clamps both bounds to the length. It yields `to - from` elements taken in order from `from`, and is empty when `to <= from`. |
| Js.Reverse | src/screens/HomeScreen.tsx:113 | `reverse` keeps the length and puts element `k` at position `n-1-k`. |
| CardStack.VisibleStack | src/screens/HomeScreen.tsx:113 | The drawn stack has `min(2, n-i)` cards. It is empty exactly when `i >= n`. Its last (top) card is the current user and the card below it is the next user. The same expression is at src/screens/ExploreScreen.tsx:81. |
| ImageUrl.FullImageUrl | src/screens/CreateProfileScreen.tsx:14-18 | `getFullImageUrl` never yields an empty URL, and a truthy URL ends the result whole. Its three cases are `ThreeCases`; `AlwaysAbsolute` and `Idempotent` are its partners. |
| ImageUrl.ThreeCases | src/screens/CreateProfileScreen.tsx:14-18 | A falsy URL gives the 150px placeholder. A URL starting with `http` (so also `https`) is returned as it is. Any other URL is appended to the asset URL. |
| ImageUrl.RelativeKeepsPath | src/screens/CreateProfileScreen.tsx:17 | A relative path appears whole after the asset URL, with no separator added. |
| ImageUrl.AlwaysAbsolute | src/screens/ProfileScreen.tsx:21-25 | When the asset URL starts with `http`, every result starts with `http`. This is the same helper the profile screen defines. |
| ImageUrl.Idempotent | src/screens/ProfileScreen.tsx:21-25 | When the asset URL starts with `http`, resolving an already resolved URL changes nothing. |
| ImageUrl.DefaultHostPath | src/screens/CreateProfileScreen.tsx:12-17 | With the default configuration, a stored relative path resolves to `http://192.168.18.27:8000` followed by the path. |
| HomeScreen.Swipe | src/screens/HomeScreen.tsx:42-54 | `handleLike`/`handleNope`: the index grows by 1 exactly when there is a current profile, and otherwise nothing changes. The log keeps its old entries and gains at most one. `SwipeSubmitsCurrent` and `SwipeWhenNoCurrentIsNoOp` give the two cases exactly. |
| HomeScreen.Undo | src/screens/HomeScreen.tsx:56-60 | `handleUndo`: the log is untouched. The index drops by at most 1, and stays put exactly when it is 0. |
| HomeScreen.Apply | src/screens/HomeScreen.tsx:42-60 | One button press keeps the log's old entries and adds at most one. It keeps an in-bounds index in bounds. Undo and reset never request anything. |
| HomeScreen.Run | src/screens/HomeScreen.tsx:42-60 | A sequence of presses adds at most one request per press. `RunStaysInBounds`, `RunLog` and `NoProfilesNoRequests` are its properties. |
| HomeScreen.SwipeSubmitsCurrent | src/screens/HomeScreen.tsx:42-54 | With a current profile, like or nope appends exactly one request carrying that profile's id and the action. The index then grows by exactly 1. |
| HomeScreen.SwipeWhenNoCurrentIsNoOp | src/screens/HomeScreen.tsx:43-53 | Without a profile list, or with the index at or past its end, like and nope change nothing and request nothing. |
| HomeScreen.UndoBoundedAtZero | src/screens/HomeScreen.tsx:56-60 | Undo decrements a positive index by 1 and changes nothing at 0. It never touches the requests already made. |
| HomeScreen.SwipeThenUndo | src/screens/HomeScreen.tsx:38-60 | Like or nope followed by undo returns to the same index, and so to the same current profile. The request stays made. |
| HomeScreen.RunStaysInBounds | src/screens/HomeScreen.tsx:38-60 | For a fixed list, `0 <= index <= length` holds after any sequence of like, nope, undo and reset. |
| HomeScreen.RunLog | src/screens/HomeScreen.tsx:42-54 | Over any sequence of presses the request log only grows, by at most one request per press. Every new request names a user of the list. |
| HomeScreen.NoProfilesNoRequests | src/screens/HomeScreen.tsx:42-54 | While no profile list has arrived, no press makes a request. |
| HomeScreen.ProfileForCard | src/screens/HomeScreen.tsx:114-124 | A card always gets a non-empty picture URL. A profile's fields pass through, with the 500px placeholder when the profile has no picture. A user without a profile gets `user.name`, age 0, location `Unknown`, empty bio and birth date, and the placeholder. |
| HomeScreen.ViewOf | src/screens/HomeScreen.tsx:62-133 | Loading shows the spinner exactly while the query loads. The failure view shows exactly when it has stopped loading with an error or no data. Once loaded without error, the deck shows as exhausted exactly when `index >= length` and shows cards exactly otherwise. The cards are `profileForCard` of each user in `profiles[i..i+2)` reversed: `min(2, n-i)` cards, the current profile's card on top and the next profile's card below it. |
| HomeScreen.ResetShowsFirst | src/screens/HomeScreen.tsx:86-88 | After "start again", a loaded, non-empty deck shows its first profile on top. |
| HomeScreen.PropsAsWritten | src/screens/HomeScreen.tsx:126-131 | As written, each deck card is given `profile` and the swipe callbacks but no `card` prop. |
| HomeScreen.AsWrittenCardsDrawNothing | src/components/organisms/UserCard.tsx:14-17 | With those props the card component returns `null` for every user. |
| HomeScreen.PropsCorrected | src/screens/HomeScreen.tsx:114-131 | The corrected props hand the card for the user over as `card`, built from `profileForCard`. |
| HomeScreen.CorrectedCardShowsProfile | src/screens/HomeScreen.tsx:114-131 | With the corrected props every card draws its profile's picture URL (never empty), name and age. |
| UserCard.Render | src/components/organisms/UserCard.tsx:14-27 | The component draws nothing exactly when `card` is missing. Otherwise it draws the card's picture. |
| HomeScreen.HomeDeck.constructor | src/screens/HomeScreen.tsx:22-27 | The index starts at 0, nothing has been requested, and the query is loading. |
| HomeScreen.HomeDeck.QueryUpdate | src/screens/HomeScreen.tsx:24-27 | A query update replaces the list and its flags wholesale and leaves the cursor and the log alone. |
| HomeScreen.HomeDeck.NextCard | src/screens/HomeScreen.tsx:38-40 | `nextCard` adds 1 to the index. |
| HomeScreen.HomeDeck.HandleLike | src/screens/HomeScreen.tsx:42-47 | The new cursor and log are `Swipe(profiles, old, Like)`. The index bound is preserved. |
| HomeScreen.HomeDeck.HandleNope | src/screens/HomeScreen.tsx:49-54 | The new cursor and log are `Swipe(profiles, old, Dislike)`. The index bound is preserved. |
| HomeScreen.HomeDeck.HandleUndo | src/screens/HomeScreen.tsx:56-60 | The new cursor is `Undo(old)`. The index bound is preserved. |
| HomeScreen.HomeDeck.PressReset | src/screens/HomeScreen.tsx:86-88 | The reset button sets the index to 0. |
| ExploreScreen.ExtractUser | src/screens/ExploreScreen.tsx:33-38 | A row maps to one of its nested users or to itself. `disliked_user` wins when present, and the row itself is used only when no user is nested. `ExtractByPrecedence` gives the full order. |
| ExploreScreen.FirstPresent | src/screens/ExploreScreen.tsx:33-38 | The first present candidate wins, and the fallback is used only when none is present. This is the reference definition for the extraction. |
| ExploreScreen.ExtractByPrecedence | src/screens/ExploreScreen.tsx:33-38 | A row maps to `disliked_user` if present, else `liked_user`, else `user`, else the row itself. |
| ExploreScreen.ExtractUsers | src/screens/ExploreScreen.tsx:33-39 | The extraction keeps the number and the order of rows. |
| ExploreScreen.ExtractUsersAppend | src/screens/ExploreScreen.tsx:33-39 | Extracting a concatenation of listings is the concatenation of the extractions. |
| ExploreScreen.LikedRowsGiveLikedUsers | src/screens/ExploreScreen.tsx:33-39 | A listing of rows that each carry only `liked_user` yields exactly those users, in order. |
| ExploreScreen.ViewOf | src/screens/ExploreScreen.tsx:69-101 | Loading shows the spinner and an empty list shows "no more users". The recommended deck draws `users[i..i+2)` reversed, which is empty once `i >= length`. Other categories list all users. |
| ExploreScreen.ExploreFeed.constructor | src/screens/ExploreScreen.tsx:18-21 | The feed starts empty and loading, on the recommended category, at index 0. |
| ExploreScreen.ExploreFeed.SelectCategory | src/screens/ExploreScreen.tsx:111-121 | A filter button sets the category. |
| ExploreScreen.ExploreFeed.BeginFetch | src/screens/ExploreScreen.tsx:23-25 | Every fetch turns the spinner on and resets the index to 0 before any data arrives. |
| ExploreScreen.ExploreFeed.FinishFetch | src/screens/ExploreScreen.tsx:26-46 | The recommended list is stored unchanged. Category rows are stored extracted, row by row. A failed fetch stores the empty list. Loading is false afterwards in every case. |
| ExploreScreen.ExploreFeed.HandleActionRequest | src/screens/ExploreScreen.tsx:53-55 | `handleAction` up to its `await`: exactly one request, for the given user and action, is made. |
| ExploreScreen.ExploreFeed.HandleActionSettled | src/screens/ExploreScreen.tsx:55-60 | After the `await`, the index as it stands then advances by exactly 1 on success and is unchanged on failure. |
| CreateProfileScreen.CalculateAge | src/screens/CreateProfileScreen.tsx:118-126 | The age is the number of birthday anniversaries reached by today: the age-th anniversary is on or before today, and the next one is after it. |
| CreateProfileScreen.AgeIsUnique | src/screens/CreateProfileScreen.tsx:118-126 | No other count meets both anniversary conditions, so they define the age. |
| CreateProfileScreen.AgeDecrement | src/screens/CreateProfileScreen.tsx:120-124 | The age is the year difference minus 1 exactly when today's month is earlier than the birth month, or the months match and today's day is earlier. Otherwise it is the full difference. |
| CreateProfileScreen.AgeOnBirthday | src/screens/CreateProfileScreen.tsx:122 | On the birthday itself the full year difference is returned. |
| CreateProfileScreen.Pad | src/screens/CreateProfileScreen.tsx:132 | A number below `10^width` is written in exactly `width` decimal digits. |
| CreateProfileScreen.DigitsValue | src/screens/CreateProfileScreen.tsx:44 | A string of `n` decimal digits has a value below `10^n`. |
| CreateProfileScreen.DigitsValuePad | src/screens/CreateProfileScreen.tsx:132 | Reading back a padded number gives the number. |
| CreateProfileScreen.IsoDate | src/screens/CreateProfileScreen.tsx:132 | The date-only text is 10 characters long, with `-` at positions 4 and 7. |
| CreateProfileScreen.ParseIsoDate | src/screens/CreateProfileScreen.tsx:43-44 | Parsing a stored birth date yields only a date with a four-digit year, a month from 1 to 12 and a day from 1 to 31. |
| CreateProfileScreen.IsoDateRoundTrip | src/screens/CreateProfileScreen.tsx:132 | The `birth_date` text of a date parses back to the same date. |
| CreateProfileScreen.UpdateField | src/screens/CreateProfileScreen.tsx:55-57 | The named field takes the new value. Every other field is unchanged. |
| CreateProfileScreen.ButtonText | src/screens/CreateProfileScreen.tsx:147 | The label is `Update Profile` exactly when a profile exists, else `Add Profile`. |
| CreateProfileScreen.ProfileForm.constructor | src/screens/CreateProfileScreen.tsx:24-32 | The form starts blank, with the birth date set to today, the picker hidden and no pictures. |
| CreateProfileScreen.ProfileForm.Prefill | src/screens/CreateProfileScreen.tsx:36-53 | A fetched profile fills name, bio and location, with null or missing values becoming `''`. A truthy birth date in `YYYY-MM-DD` form replaces the current one. A truthy picture URL becomes the chosen image, and the picture list is copied. Without a profile nothing changes. |
| CreateProfileScreen.ProfileForm.HandleInputChange | src/screens/CreateProfileScreen.tsx:55-57 | The form becomes `UpdateField(old form, field, value)`. |
| CreateProfileScreen.ProfileForm.HandleDateChange | src/screens/CreateProfileScreen.tsx:59-63 | A selected date replaces the birth date and a dismissed picker keeps it. The picker is hidden either way. |
| CreateProfileScreen.ProfileForm.ChooseProfileImage | src/screens/CreateProfileScreen.tsx:88-99 | A picked image becomes the profile image. A cancelled pick changes nothing. |
| CreateProfileScreen.ProfileForm.HandleSave | src/screens/CreateProfileScreen.tsx:128-141 | The payload carries the form fields, `age = calculateAge(birthDate)` and a date-only `birth_date` that reads back as the birth date. It includes `picture` exactly when the image uri is truthy. |
| ProfileScreen.AllPictures | src/screens/ProfileScreen.tsx:70-82 | With a truthy profile picture URL the list starts with `{id: "profile", picture_url}`. All of the user's pictures follow, in order. The length is that 0 or 1 plus the number of pictures, and there are none without a user. |
| ProfileScreen.DisplayName | src/screens/ProfileScreen.tsx:116-119 | The shown name has at most 21 characters. A name of at most 18 is unchanged. A longer one keeps its first 18 characters and is 21 long. |
| ProfileScreen.DisplayNameCases | src/screens/ProfileScreen.tsx:116-119 | A name over 18 characters shows as its first 18 characters and `...`. A name of at most 18 shows unchanged. |
| ProfileScreen.DisplayNameBounded | src/screens/ProfileScreen.tsx:116-119 | The shown name has at most 21 characters and begins with the name's own first characters. |
| ProfileScreen.DisplayNameIdempotent | src/screens/ProfileScreen.tsx:116-119 | Shortening an already shown name changes nothing. |

## Left out

- Network requests (`src/services/api.ts`) and the react-query mutation and refetch are not modelled. A home-screen action is a log entry. The refetch after a successful action is `QueryUpdate`, a wholesale list replacement that may leave the cursor past the new end. `RunStaysInBounds` therefore covers a fixed list only.
- Two presses that land before the screen re-renders are not modelled. The source reads `currentIndex` from the rendered closure, so it could request the same profile twice. Each modelled press sees the state left by the one before.
- ExploreScreen.ExploreFeed.FinishFetch: takes the response as answering the current category. A response that arrives after the category changed again, racing a newer fetch, is not modelled.
- No swipe is modelled. The decks pass `onSwipeLeft` and `onSwipeRight` to `UserCard` (src/components/organisms/UserCard.tsx:14-27), which neither reads them nor handles gestures. In the home deck only the buttons call `handleLike` and `handleNope`.
- ExploreScreen.ExploreFeed.HandleActionRequest: modelled as written, though no code calls `handleAction`. Its only callers are the swipe callbacks that `UserCard` ignores.
- The main screen's third-party swiper and its gesture physics are not modelled.
- The star and boost buttons of the home screen have no handler in the source, so there is nothing to model.
- `toISOString` converts to UTC before the date part is taken, which can shift the date by one day. `new Date(text)` parses in UTC. Both are modelled as exact calendar dates.
- CreateProfileScreen.ParseIsoDate: does not model day-of-month limits beyond 31, nor the Invalid Date that a malformed stored text produces. Such a text leaves the birth date unchanged here.
- CreateProfileScreen.ProfileForm.Prefill: reads a stored birth date only in `YYYY-MM-DD` form. Other texts that `new Date` accepts, such as the date-time `1990-05-15T00:00:00Z`, leave the birth date unchanged here, while the source sets it from them.
- CreateProfileScreen.ProfileForm.HandleSave: requires a date with a four-digit year (0 to 9999). The extended six-digit year format of `toISOString` is not modelled.
- CreateProfileScreen.ProfileForm.HandleDateChange: requires the picked date to have a four-digit year, a month from 1 to 12 and a day from 1 to 31. This keeps the form within the range `HandleSave` covers. The source accepts any date the picker gives.
- Uploading and deleting additional pictures (`src/screens/CreateProfileScreen.tsx:101-116`) are network mutations and are not modelled. Picking the profile image is modelled by its outcome only.
- The profile picture list is a sequence that is always present. The source also guards against a missing `pictures` field.
- Name lengths count characters. JavaScript counts UTF-16 code units, so names with characters outside the Basic Multilingual Plane may be cut at a different place.
- Login, registration, the splash animation, navigation, the chat stubs and `AuthContext` storage are not part of this model.

## Findings

| source | as written | input that shows it | evidently intended | confidence | as-written member | corrected member |
|---|---|---|---|---|---|---|
| src/screens/HomeScreen.tsx:126-131 | Each deck card is given `profile`, `onSwipeLeft` and `onSwipeRight`. `UserCard` reads only `card` (src/components/organisms/UserCard.tsx:14-17) and returns `null` without it. Explore's deck does the same at src/screens/ExploreScreen.tsx:82-87. | Any loaded deck with a current profile: its cards draw nothing. | The card draws the user's picture, name and age from `profileForCard`, handed over as `card`. | not executed; high | HomeScreen.AsWrittenCardsDrawNothing | HomeScreen.CorrectedCardShowsProfile |
