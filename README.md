# Blog front-end: navigation, post creation and view decisions

This project models the decision logic of a single-page blog client written in
React. The client has three views: a home list of posts, an article page and a
creation form. It talks to a remote service for storage. The model covers:

- the shell's navigation state machine: `view` in {HOME, DETAIL, CREATE} and the
  selected post id, changed by four handlers (`App.AppState`, with the pure
  specification `App.Apply` / `App.Step` / `App.Run`);
- the creation form: its five fields, per-field edits, the submitted payload
  (categories split on commas, trimmed and upper-cased; the date passed in),
  and the mutation flow (`CreateBlog.CreateBlogForm`);
- the list and article views as pure functions from what the query reports
  (`isLoading`, `error`, `data`, taken as inputs) to the screen they render
  (`BlogList.Render`, `BlogDetail.Render`);
- the JavaScript built-ins these rely on (`Builtins`): `split`, `trim`,
  `toUpperCase`, `charAt`, `slice` and `x || default`.

Modules: `Wrappers` (Option), `Builtins`, `Query` (query keys and the observed
query state), `Api` (the post record), `App`, `CreateBlog`, `BlogList`,
`BlogDetail`, one file each.

Three behaviours of the code worth knowing: the Create button is on screen in
every view, so CREATE can also be entered from CREATE itself; selecting a post
with the empty id `""` is accepted, and the article page then renders nothing;
and the form's success callback stays attached to the mutation after the form
is gone, so a late success sends the shell home from whatever view it is in.

## Model

| member | source | states |
|---|---|---|
| App.Panels | src/App.tsx:98-138 | exactly one main panel renders per view (list for HOME, detail for DETAIL, form for CREATE), and the detail panel gets the selected id |
| App.Apply | src/App.tsx:17-32 | select moves to DETAIL with that id; create-new, back-to-home and create-success change only the view, to CREATE, HOME and HOME |
| App.Enabled | src/App.tsx:43-135 | the logo and Create button can be used in every view, Back exactly off HOME, Stories exactly on HOME, cards only where the list panel shows, Dismiss only where the form shows, and the form's success callback in any view |
| App.HandlerOf | src/App.tsx:48-135 | only a card calls the select handler (with its own id), only Create calls create-new, only the form's success calls create-success; Back, logo, Stories and Dismiss call back-to-home |
| App.Step | src/App.tsx:17-135 | one action keeps "DETAIL has a selected id" and never clears a made selection |
| App.Run | src/App.tsx:14-135 | every sequence of actions keeps "DETAIL has a selected id", and once an id is selected no sequence sets it back to null |
| App.ApplyKeepsInv | src/App.tsx:15-32 | no handler leaves DETAIL without a selected id |
| App.Reachable | src/App.tsx:14-15 | every state reached from the initial HOME-with-no-selection state satisfies the invariant |
| App.OnlyCardsSelect | src/App.tsx:98-106 | the selection changes only through a list card, only on HOME, and then DETAIL shows that id |
| App.DetailOnlyFromHome | src/App.tsx:98-106 | DETAIL is entered only from HOME by a card; inside DETAIL every action leaves it or changes nothing |
| App.HomeIdempotent | src/App.tsx:26-32 | Back, logo, Stories, Dismiss and create-success go to HOME wherever they can be used (the logo from every view) and repeating them changes nothing |
| App.CreateAlwaysReachable | src/App.tsx:84-89 | the Create button is rendered in every view and opens CREATE keeping the selection |
| App.HeaderPerView | src/App.tsx:43-76 | Back shows exactly off HOME, the section navigation exactly on HOME |
| App.DetailPanelHasId | src/App.tsx:110-121 | in any reachable DETAIL state the detail panel is given a non-null id |
| App.AppState.constructor | src/App.tsx:14-15 | the shell starts on HOME with no selected post |
| App.AppState.HandleSelectBlog | src/App.tsx:17-20 | sets the selected id, then the view to DETAIL |
| App.AppState.HandleCreateNew | src/App.tsx:22-24 | view becomes CREATE; selection unchanged |
| App.AppState.HandleBackToHome | src/App.tsx:26-28 | view becomes HOME; selection unchanged |
| App.AppState.HandleCreateSuccess | src/App.tsx:30-32 | view becomes HOME; selection unchanged |
| App.AppState.Click | src/App.tsx:43-135 | acting on a rendered element runs the handler it is wired to; the new state is the pure step and keeps the invariant |
| Builtins.TrimStart | src/components/CreateBlog.tsx:36 | the result is a suffix of the input, all that was cut is whitespace, and it does not start with whitespace |
| Builtins.TrimEnd | src/components/CreateBlog.tsx:36 | the result is a prefix of the input, all that was cut is whitespace, and it does not end with whitespace |
| Builtins.Trim | src/components/CreateBlog.tsx:36 | `trim()` returns a string no longer than the input that neither starts nor ends with whitespace |
| Builtins.TrimIsSlice | src/components/CreateBlog.tsx:36 | `trim()` returns the contiguous part of the input after its leading whitespace, and everything cut before and after it is whitespace |
| Builtins.TrimIdempotent | src/components/CreateBlog.tsx:36 | trimming twice is trimming once |
| Builtins.ToUpper | src/components/CreateBlog.tsx:36 | same length, no lower-case letter left, each lower-case letter replaced by its capital and every other character kept |
| Builtins.ToUpperFixedIff | src/components/CreateBlog.tsx:36 | upper-casing leaves a string unchanged exactly when it has no lower-case letter |
| Builtins.ToUpperIdempotent | src/components/CreateBlog.tsx:36 | upper-casing twice is upper-casing once |
| Builtins.ToUpperKeepsWhitespace | src/components/CreateBlog.tsx:36 | whitespace positions are the same before and after upper-casing |
| Builtins.ToUpperKeepsNonLetter | src/components/CreateBlog.tsx:36 | a non-letter such as the comma occurs after upper-casing exactly where it did before |
| Builtins.Split | src/components/CreateBlog.tsx:36 | `split(',')` gives one piece more than there are commas, and no piece holds a comma |
| Builtins.JoinSplit | src/components/CreateBlog.tsx:36 | the pieces joined with the separator give back the input: order and content are kept |
| Builtins.SplitJoin | src/components/CreateBlog.tsx:36 | splitting a join of separator-free pieces gives back those pieces |
| Builtins.CharAt | src/components/BlogDetail.tsx:72 | `charAt(i)` is the one character at `i`, or `""` exactly when `i` is out of range |
| Builtins.Slice | src/components/BlogList.tsx:102 | `slice(start, end)` is the contiguous part of the input from the clamped start, of length clamped end minus clamped start, or empty when that is not positive; negative indices count from the end |
| Builtins.SliceFrom | src/components/BlogDetail.tsx:74 | `slice(start)` is the suffix from `start`, or empty past the end |
| Builtins.CharAtAndRest | src/components/BlogDetail.tsx:72-74 | `charAt(0)` followed by `slice(1)` gives back the string, including the empty string |
| Builtins.OrDefault | src/components/BlogList.tsx:53 | `v || d` is `v` when it is a non-empty string and `d` when it is absent or empty |
| BlogList.Featured | src/components/BlogList.tsx:21 | the featured post is present exactly when the list is loaded and non-empty, and it is element 0 |
| BlogList.Others | src/components/BlogList.tsx:22 | the grid holds elements 1.. of a loaded list, and nothing for an empty or absent list |
| BlogList.Badge | src/components/BlogList.tsx:90 | the card badge is `category[0]`, absent exactly when there is no category |
| BlogList.ShownTags | src/components/BlogList.tsx:102 | at most two tags, a prefix of the post's tags of length min(2, count), none when `tags` is absent |
| BlogList.Render | src/components/BlogList.tsx:18-26 | loading shows exactly when loading, error exactly when not loading and failed, the stories otherwise; they feature a post exactly when there is a first post, and show no card when there is no list |
| BlogList.FeaturedOf | src/components/BlogList.tsx:26-56 | the featured card selects its own post and shows its cover, title, description, date and displayed read time |
| BlogList.CardOf | src/components/BlogList.tsx:73-104 | a grid card selects its own post, shows its cover, title and description, the first category as badge (none without categories) and the first two tags, none without tags |
| BlogList.ShownReadTime | src/components/BlogList.tsx:53 | the shown read time is never empty: the post's when non-empty, otherwise "5 min read" |
| BlogList.Cards | src/components/BlogList.tsx:73-81 | one card per post, in order, each built from its own post |
| BlogList.Partition | src/components/BlogList.tsx:21-26 | for a loaded list: featured present iff non-empty, featured is post 0, `[featured] + others` is the list, card k-1 shows post k |
| BlogList.CardsSelectTheirPosts | src/components/BlogList.tsx:31-80 | the ids the rendered cards select, featured first, are exactly the posts' ids in order |
| BlogDetail.DetailKey | src/components/BlogDetail.tsx:12 | the article query key is `['blog', id]`, with `null` for a missing id |
| BlogDetail.QueryEnabled | src/components/BlogDetail.tsx:14 | the query runs exactly for a non-null, non-empty id, and then its key is `['blog', id]` with that string |
| BlogDetail.ArticleOf | src/components/BlogDetail.tsx:29-85 | drop cap plus body is the content, the drop cap is at most one character, every category is filed under in order, the badge is the first category, the author, title, description and cover are the post's, and the read time is the post's when non-empty and "5 min read" otherwise |
| BlogDetail.Render | src/components/BlogDetail.tsx:17-22 | each of nothing, loading, error, not found and article shows exactly when the guards before it fail and its own holds, and the article shown is the fetched post's |
| BlogDetail.NoIdNoFetch | src/components/BlogDetail.tsx:14-17 | a null or empty id disables the query and renders nothing whatever the query reports |
| BlogDetail.DropCap | src/components/BlogDetail.tsx:72-74 | the drop cap is `charAt(0)`, the body `slice(1)`, both empty for empty content |
| CreateBlog.Set | src/components/CreateBlog.tsx:55-99 | an edit sets one field and keeps every other field |
| CreateBlog.EmptyFormIsEmpty | src/components/CreateBlog.tsx:16-22 | the form starts with all five fields empty |
| CreateBlog.RequiredFilled | src/components/CreateBlog.tsx:53-97 | the form can be submitted exactly when every field except the cover image is non-empty |
| CreateBlog.Normalize | src/components/CreateBlog.tsx:36 | a normalized category has no surrounding whitespace and no lower-case letter, and is no longer than the input |
| CreateBlog.NormalizeIdempotent | src/components/CreateBlog.tsx:36 | normalizing twice is normalizing once |
| CreateBlog.NormalizeKeepsCommaOut | src/components/CreateBlog.tsx:36 | normalizing a comma-free piece gives a comma-free category |
| CreateBlog.Categories | src/components/CreateBlog.tsx:36 | one category per comma-separated segment (commas + 1), in order, each the normalized segment: trimmed, upper-case, comma-free |
| CreateBlog.EmptyCategoryText | src/components/CreateBlog.tsx:36 | an empty category text gives `[""]` |
| CreateBlog.CategoriesIdempotent | src/components/CreateBlog.tsx:36 | re-entering the categories joined by commas yields the same categories |
| CreateBlog.Payload | src/components/CreateBlog.tsx:34-38 | title, description, content and cover image are copied, categories normalized, `date` is the submission time, and there is no id, read time, author or tags |
| CreateBlog.InvalidationReachesListOnly | src/components/CreateBlog.tsx:27 | the invalidated key `['blogs']` is the list key and is no prefix of any `['blog', id]` |
| CreateBlog.SubmitButtonFor | src/components/CreateBlog.tsx:105-106 | the submit button is disabled exactly while pending, labelled "Publishing..." then and "Publish Story" otherwise |
| CreateBlog.CreateBlogForm.constructor | src/components/CreateBlog.tsx:16-22 | the form starts empty, with nothing pending and nothing sent |
| CreateBlog.CreateBlogForm.Edit | src/components/CreateBlog.tsx:55-99 | an input's change sets its field and nothing else |
| CreateBlog.CreateBlogForm.Submit | src/components/CreateBlog.tsx:32-39 | a submission sends the payload and becomes pending exactly when not pending and every required field is filled; otherwise nothing changes |
| CreateBlog.CreateBlogForm.Settle | src/components/CreateBlog.tsx:24-30 | on success `['blogs']` is invalidated and then the parent's success callback runs; on failure neither; pending ends either way |
| CreateBlog.CreateBlogForm.Dismiss | src/components/CreateBlog.tsx:104 | Dismiss calls the cancel callback and submits nothing |

## Left out

- The query library's caching, de-duplication, refetching and stale-response handling: it is not part of this code. `isLoading`, `error` and `data` are inputs (`Query.Observed`), and invalidation is recorded as an effect with its key.
- `fetchBlogs`, `fetchBlogById` and `createBlog` in src/services/api.ts: HTTP requests and JSON parsing. Only the `Blog` record shape is modelled.
- The clock: `new Date().toISOString()` is the `now` parameter of `Submit` and `Payload`.
- The locale: `BlogList.FeaturedCard` keeps the raw `date` string, because `toLocaleDateString()` depends on the runtime's locale.
- Builtins.ToUpper: only ASCII `a`-`z` are upper-cased; full Unicode case mapping (which can change a string's length, as `ß` to `SS`) is not modelled.
- Builtins.Trim: the whitespace set is the ECMAScript one with the Zs category of current Unicode; a future Unicode version adding to Zs is not tracked.
- Builtins.CharAt and Builtins.SliceFrom: JavaScript indexes strings by UTF-16 code unit and the model by code point, so for a post whose content starts with a character outside the Basic Multilingual Plane both the drop cap and the body differ (in JavaScript each holds half of a surrogate pair).
- App.Enabled and App.Panels: a panel that is animating out is treated as already gone: App.Panels gives one panel per view, although the shell's animated panel switch keeps the old view's panel mounted until its exit animation ends, so a card clicked in an exiting list could select a post from DETAIL or CREATE. The model does not allow that, so App.OnlyCardsSelect and App.DetailOnlyFromHome hold only for clicks on a screen that has finished its transition.
- App.Enabled: the form's success callback is allowed in every view at any time, which is more than can happen (it needs a submission first); the properties proved hold of this larger set of behaviours.
- App.Enabled: the Stories link is treated as shown on HOME at every screen width, although the section nav is hidden below the `md` breakpoint.
- CreateBlog.CreateBlogForm.Settle: it requires a pending mutation, because the mutation library only settles one it started.
- The form's `required` check is modelled as "not the empty string", which is what the browser checks for text inputs; `e.preventDefault()` only stops a page reload.
- The lifetime of the form: leaving CREATE unmounts the form and discards its fields, and entering CREATE again starts from an empty form. The model keeps `App.AppState` and `CreateBlog.CreateBlogForm` separate and does not tie one to the other's view change.
- Rendering itself: markup, Tailwind classes, images, framer-motion animations and delays, React list keys, the Search and Menu buttons, and the Like and Comment buttons, which have no handler of their own (on a list card a click on them reaches the card and selects its post, which App.PostCard covers).
