# ECOFLY storefront: carousel, feedback store and feedback form

This Dafny project models the three pieces of sequential logic in the ECOFLY
storefront (a client-side React application) and proves properties of them:

- **The product card** (`product_card.dfy`, module `ProductCard`). The card
  normalises its image list so that it is never empty. An empty or missing
  list becomes one placeholder image with an empty url and the product name as
  alt text. The card keeps two indices into that list, one for the inline image
  and one for the zoom dialog. "Next" and "previous" move them cyclically and
  do nothing when there is only one image. Thumbnails set them directly.
  Opening the zoom dialog copies the inline index into the dialog's index. A
  heart click hands a snapshot of the product to the favourites store. The
  confirmation notice ("added" or "removed") is chosen from the favourite state
  read before the toggle. The class `Card` holds the widget state.
  `NextIndex`/`PrevIndex` and their iterates specify it, with lemmas proving
  that they are inverses and that `n` presses of "next" bring the index back
  to where it started.
- **The feedback store hook** (`use_feedback.dfy`, module `UseFeedback`). It
  holds a list of feedback entries, most recent first, and a loaded flag, and
  mirrors the list to the local-storage key `ecofly-feedbacks`. Storage is a
  map from key to stored text. That text is either empty, the serialisation
  of a list of entries, or malformed. The save effect runs after each
  operation, and only once the store is loaded. `AfterLoad`, `AfterAdd` and
  `AfterClear` give the state each operation leaves. The class `FeedbackHook`
  performs the same steps in place and is proved equal to them.
  `FeedbacksCount` is defined as the length of the list.
- **The feedback page** (`feedback_page.dfy`, module `FeedbackPage`). It covers
  submission validation (name and message first, then a non-zero rating),
  adding exactly one entry, resetting the form, and updating one field at a
  time. It also covers the rating labels, the highlighted selector stars (a
  hover value of 0 falls back to the selected rating), the filled and empty
  stars of a listed entry, and the singular/plural count label. The class
  `Page` holds the form state and the hook it uses.
  `FirstSubmissionScenario` walks a first submission on an empty store through
  these contracts.

The model follows the code in these places, where its behaviour is easy to misread:

- A clear empties the list and removes the storage key. On a loaded store the
  save effect runs next, because the list changed, and writes the serialised
  empty list back. So the key is absent only when the clear happens before
  loading (`AfterClear`). A store reloaded from that storage is empty either
  way (`ClearThenReloadIsEmpty`).
- On a corrupt stored value the load handler removes the key
  (`LoadHandler`). The save effect that follows then writes the serialised
  empty list (`AfterLoad`).
- An empty stored string counts as absent, as `if (savedFeedbacks)` treats
  it. It is neither parsed nor removed.
- `slice(0, limit)` with a negative limit counts back from the end of the
  list. `Recent` models that as well as the ordinary prefix.
- The load step is the only one that catches storage errors. A failing write
  in the save effect is not caught by the code.

## Model

| member | source | states |
|---|---|---|
| ProductCard.NormalizeImages | src/components/ProductCard.tsx:40-42 | the working list is never empty; it is the given images when there are any, else exactly one placeholder with empty url and the product name as alt; it has several images exactly when the given list has more than one |
| ProductCard.NextIndex | src/components/ProductCard.tsx:47-48 | "next" stays in range and is the cyclic successor: i + 1, or 0 after the last image |
| ProductCard.PrevIndex | src/components/ProductCard.tsx:55-56 | "previous" stays in range and is the cyclic predecessor: i - 1, or the last image from 0 |
| ProductCard.PrevUndoesNext | src/components/ProductCard.tsx:44-58 | "previous" after "next" and "next" after "previous" both return to the starting index |
| ProductCard.SingleImageNavigationIsIdentity | src/components/ProductCard.tsx:44-70 | with a single image, "next" and "previous" leave the index unchanged |
| ProductCard.NextTimes | src/components/ProductCard.tsx:48 | any number of "next" presses keeps the index in range |
| ProductCard.PrevTimes | src/components/ProductCard.tsx:56 | any number of "previous" presses keeps the index in range |
| ProductCard.NextTimesIsShift | src/components/ProductCard.tsx:48 | k presses of "next" move the index from i to (i + k) mod n |
| ProductCard.NextCycle | src/components/ProductCard.tsx:48 | n presses of "next" in a list of n images return to the starting image |
| ProductCard.PrevTimesUndoesNextTimes | src/components/ProductCard.tsx:44-58 | k presses of "previous" undo k presses of "next" |
| ProductCard.FavoriteSnapshot | src/components/ProductCard.tsx:84-90 | the snapshot copies id, name, category and description, and its image is the first normalised image's url (the empty-string fallback never changes it) |
| ProductCard.SnapshotWithoutImages | src/components/ProductCard.tsx:41-88 | a product whose image list is missing or empty hands an empty image url to the favourites store |
| ProductCard.ToggleFavorite | src/components/ProductCard.tsx:93 | a toggle flips the product's membership in the favourites and leaves every other id alone |
| ProductCard.Card.constructor | src/components/ProductCard.tsx:23-42 | a new card holds the normalised images, both indices at 0, the dialog closed and the image not yet loaded |
| ProductCard.Card.HasMultipleImages | src/components/ProductCard.tsx:42 | navigation is offered exactly when the working list is more than its first image |
| ProductCard.Card.CurrentImage | src/components/ProductCard.tsx:107 | the inline image is one of the card's images |
| ProductCard.Card.ModalImage | src/components/ProductCard.tsx:108 | the dialog image is one of the card's images |
| ProductCard.Card.NextImage | src/components/ProductCard.tsx:44-50 | the inline index becomes its cyclic successor (unchanged with one image); nothing else changes |
| ProductCard.Card.PrevImage | src/components/ProductCard.tsx:52-58 | the inline index becomes its cyclic predecessor (unchanged with one image); nothing else changes |
| ProductCard.Card.NextModalImage | src/components/ProductCard.tsx:60-64 | only the dialog index moves, to its cyclic successor; the inline index is untouched |
| ProductCard.Card.PrevModalImage | src/components/ProductCard.tsx:66-70 | only the dialog index moves, to its cyclic predecessor; the inline index is untouched |
| ProductCard.Card.HandleImageSelect | src/components/ProductCard.tsx:72-74 | a thumbnail click sets the inline index to that thumbnail |
| ProductCard.Card.HandleModalImageSelect | src/components/ProductCard.tsx:76-78 | a dialog thumbnail click sets only the dialog index |
| ProductCard.Card.OpenZoomModal | src/components/ProductCard.tsx:102-105 | the dialog opens, and it opens on the image shown inline |
| ProductCard.Card.SetDialogOpen | src/components/ProductCard.tsx:165 | the dialog's open/close requests set the open flag and nothing else |
| ProductCard.Card.SettleImage | src/components/ProductCard.tsx:127-128 | a load or an error both end the loading state, and the indices stay valid |
| ProductCard.Card.HandleFavoriteToggle | src/components/ProductCard.tsx:80-100 | the snapshot has the first image's url; the product's favourite membership flips; the notice is "removed" when it was a favourite before the click and "added" otherwise, so it says "added" exactly when it is a favourite afterwards |
| UseFeedback.Serialize | src/hooks/useFeedback.ts:50 | parsing the stored serialisation gives back the same list |
| UseFeedback.Parse | src/hooks/useFeedback.ts:25 | parsing succeeds exactly on a serialised list and then gives that list; the empty string and malformed text fail |
| UseFeedback.NewEntry | src/hooks/useFeedback.ts:58-62 | the new entry copies name, email, product, message and rating unchanged and carries the generated id and date |
| UseFeedback.Initial | src/hooks/useFeedback.ts:14-15 | the hook first renders with no entries and not loaded, over storage as the browser holds it, so nothing is yet owed to storage |
| UseFeedback.AfterSave | src/hooks/useFeedback.ts:47-52 | before loading, storage is left untouched; once loaded, the key holds the serialisation of the list; other keys never change |
| UseFeedback.LoadHandler | src/hooks/useFeedback.ts:21-39 | an absent key or empty value gives []; a parseable value gives the parsed list; a corrupt value gives [] and removes the key; the store is loaded in every case |
| UseFeedback.AfterLoad | src/hooks/useFeedback.ts:20-44 | loading happens once: a loaded store is left as it is; otherwise the handler's list is kept and storage then holds its serialisation |
| UseFeedback.AfterAdd | src/hooks/useFeedback.ts:54-71 | the list grows by one, with the new entry first and the old entries after it in order; storage is written only if loaded |
| UseFeedback.AfterClear | src/hooks/useFeedback.ts:77-81 | the list becomes empty; before loading the key is absent afterwards; once loaded, the save effect leaves the serialised empty list under it |
| UseFeedback.Recent | src/hooks/useFeedback.ts:73-75 | the result is a prefix of the list, of length min(limit, length) for a non-negative limit, and length + limit (at least 0) for a negative one |
| UseFeedback.ClearIsIdempotent | src/hooks/useFeedback.ts:77-81 | clearing twice leaves the same state as clearing once |
| UseFeedback.ClearThenReloadIsEmpty | src/hooks/useFeedback.ts:77-81 | a store loaded from the storage a clear left behind holds no entries |
| UseFeedback.ReloadRestoresSaved | src/hooks/useFeedback.ts:23-27 | a store loaded from synchronised storage holds exactly the saved list |
| UseFeedback.RecentOneAfterAdd | src/hooks/useFeedback.ts:64-75 | right after an addition, the single most recent entry is the new one |
| UseFeedback.AddAllPrependsReversed | src/hooks/useFeedback.ts:64-68 | after adding e1..eN the list reads eN..e1 followed by the earlier entries |
| UseFeedback.RecentAfterAddsIsNewestFirst | src/hooks/useFeedback.ts:64-75 | after N additions the N most recent entries are those N, newest first, and the count grew by N |
| UseFeedback.FeedbackHook.constructor | src/hooks/useFeedback.ts:13-15 | the hook starts with no entries, not loaded, over the browser's storage |
| UseFeedback.FeedbackHook.FeedbacksCount | src/hooks/useFeedback.ts:95 | the count is the length of the list, and 0 exactly when the list is empty |
| UseFeedback.FeedbackHook.SaveEffect | src/hooks/useFeedback.ts:47-52 | the in-place save effect leaves the state AfterSave gives |
| UseFeedback.FeedbackHook.LoadEffect | src/hooks/useFeedback.ts:20-44 | the in-place load leaves the state AfterLoad gives |
| UseFeedback.FeedbackHook.AddFeedback | src/hooks/useFeedback.ts:54-71 | the in-place addition leaves the state AfterAdd gives for the new entry, and returns that entry's id |
| UseFeedback.FeedbackHook.GetRecentFeedbacks | src/hooks/useFeedback.ts:73-75 | returns a prefix of the list of the sliced length, limit 5 by default, changing nothing |
| UseFeedback.FeedbackHook.ClearAllFeedbacks | src/hooks/useFeedback.ts:77-81 | the in-place clear leaves the state AfterClear gives |
| FeedbackPage.Validate | src/pages/Feedback.tsx:30-38 | a submission is accepted exactly when name and message are non-empty and the rating is non-zero; a missing name or message is reported whatever the rating |
| FeedbackPage.ToInput | src/pages/Feedback.tsx:41-47 | addFeedback receives the form's four fields and the rating unchanged |
| FeedbackPage.UpdateField | src/pages/Feedback.tsx:57-62 | the named field takes the new value and the other three keep theirs |
| FeedbackPage.RatingText | src/pages/Feedback.tsx:64-73 | a label is shown exactly for ratings 1 to 5 |
| FeedbackPage.RatingTextIsInjective | src/pages/Feedback.tsx:64-73 | the five labels are distinct |
| FeedbackPage.ShownRating | src/pages/Feedback.tsx:115 | the shown rating: the hover value when non-zero, else the selected rating |
| FeedbackPage.StarRow | src/pages/Feedback.tsx:111-118 | star s of the five is highlighted exactly when s is at most the hovered rating, or the selected one when nothing is hovered |
| FeedbackPage.HoverOverridesRating | src/pages/Feedback.tsx:115 | while a star is hovered, the selected rating does not affect the highlighted stars |
| FeedbackPage.NoHoverShowsRating | src/pages/Feedback.tsx:115-120 | with the hover value at 0, star s is highlighted exactly when s is at most the selected rating |
| FeedbackPage.StarRowIsPrefix | src/pages/Feedback.tsx:111-118 | the highlighted stars always form a leading run: a lit star has every star before it lit |
| FeedbackPage.SelectorLabel | src/pages/Feedback.tsx:125-129 | a label is shown beside the selector exactly when the shown rating is 1 to 5 |
| FeedbackPage.StarDisplay | src/pages/Feedback.tsx:248-253 | an entry's stars exist exactly for ratings 0 to 5, with rating filled and 5 in all |
| FeedbackPage.CountLabel | src/pages/Feedback.tsx:89 | the count label is singular exactly when there is one entry |
| FeedbackPage.Page.constructor | src/pages/Feedback.tsx:14-23 | the page starts with an empty form, no rating and no hover |
| FeedbackPage.Page.HandleInputChange | src/pages/Feedback.tsx:57-62 | the form becomes UpdateField of the old form |
| FeedbackPage.Page.HoverStar | src/pages/Feedback.tsx:119 | hovering a star sets the hover value to it |
| FeedbackPage.Page.LeaveStar | src/pages/Feedback.tsx:120 | leaving a star resets the hover value to 0 |
| FeedbackPage.Page.ClickStar | src/pages/Feedback.tsx:121 | clicking a star selects it as the rating |
| FeedbackPage.Page.HandleSubmit | src/pages/Feedback.tsx:26-55 | a refused submission reports why and changes neither form, rating nor store; an accepted one adds exactly one entry built from the form and rating, returns its id, stores a rating in 1..5, and resets the form and the rating |

## Left out

- src/pages/Home.tsx is not part of this model. It holds DOM observers, scroll listeners, a floating-point parallax offset, a timer-driven counter animation and static product data.
- src/lib/supabase.ts is not part of this model. It checks environment variables and constructs a foreign client.
- The favourites store (`useFavorites`) is not part of this model. `ToggleFavorite` assumes that a toggle inserts or removes the product id. The favourites are a parameter of `HandleFavoriteToggle`.
- Id and date generation (clock, random suffix, locale formatting) is left out. The id and date are parameters of `AddFeedback` and `HandleSubmit`.
- JSON text is left out. Stored values are the datatype `StoredText`. Valid JSON that is not a list of entries is not modelled, and the code does not check for it either.
- Storage exceptions are left out. The model has no quota or access failures in `getItem`, `setItem` or `removeItem`.
- React scheduling is left out. Each operation is taken to be followed by its save effect before the next event.
- Rendering is left out: JSX, CSS classes, toasts, console logging, and the `preventDefault`/`stopPropagation` event plumbing.
- Props are fixed for the life of a card. The model does not capture an image list that changes between renders and could leave an index out of range.
- ProductCard.Card.HandleImageSelect and ProductCard.Card.HandleModalImageSelect require an index inside the list. Their only callers are the thumbnails drawn from that list. The code itself defines nothing for other indices.
- FeedbackPage.Page.HoverStar and FeedbackPage.Page.ClickStar require a star from 1 to 5, because only the five rendered stars call them.
- Numbers are integers. Non-integer ratings and limits are not modelled.
