# Bili-ShortVid-DEL, modelled in Dafny

Bili-ShortVid-DEL is a userscript for bilibili.com. It finds the video cards on
a page and looks up the length of each card's video. A card whose video is
shorter than two minutes is blurred and gets a notice on top. Clicking a
blocked card removes the blur and the notice.

The model keeps the script's logic and replaces the browser with plain data:

- `config.dfy` (`Config`): the configuration object. Only `MinDuration` takes part in the model; the selector, the scan interval and the request delay are kept as documented values, since selector matching and timers are not modelled.
- `bvid.dfy` (`BvId`): `getBVID`. A card's links are the sequence of their
  hrefs. The first href containing `/video/` is searched for the leftmost match
  of `video\/(BV\w+)`, and the capture group is the identifier.
- `duration.dfy` (`Duration`): how the lookup's answer becomes a number of
  seconds. The answer is a `Reply` value: a transport error, a malformed body,
  or a parsed body with or without a duration. Every failure gives 0.
- `annotation.dfy` (`Annotation`): a card's child list as a sequence of
  `Node` values. Blocking appends a blur layer, which holds copies of the
  card's non-DIV children, and then an overlay. The click listener removes
  both layers. `Card` is the card element: its links, its children, its
  `checked` marker and its listener.
- `pipeline.dfy` (`Pipeline`): `processItem` and `batchProcessor`.
  - `Filter` holds the page-lifetime set `processedBV` and, as ghost state,
    the log of lookups issued. The lookup service is a total function from
    identifier to `Reply`.
  - `ScanOutcomes` is a pure specification of one scan over a list of cards.
    `BatchProcess` is proved against it.

The regular expression is modelled by its semantics. The first position where
the whole expression matches is taken. A `video/BV` not followed by a word
character is skipped, and the search goes on. `\w+` is greedy. The lemma
`MatchBvCharacterized` states this independently of the search functions.

A duration field of 0 and a missing one both give 0. Any other integer is
passed through unchanged, negative ones included, because the code does not
clamp it.

## Model

| member | source | states |
|---|---|---|
| BvId.LeftmostMatch | src/Bili-ShortVid-DEL.user.js:34 | a returned position is a match at or after the start; no match exists between the start and it, and none at all when nothing is returned |
| BvId.WordRunEnd | src/Bili-ShortVid-DEL.user.js:34 | `\w+` is greedy: every character of the run is a word character, and the run ends at the end of the href or at a non-word character |
| BvId.MatchBv | src/Bili-ShortVid-DEL.user.js:34 | there is no result exactly when the expression matches nowhere in the href; a result is always "BV" followed by one or more word characters |
| BvId.FirstVideoLink | src/Bili-ShortVid-DEL.user.js:33 | the chosen link contains "/video/" and no earlier link does; no link is chosen only when none contains it |
| BvId.GetBvid | src/Bili-ShortVid-DEL.user.js:32-35 | an extracted identifier is always "BV" followed by one or more word characters |
| BvId.NoVideoLinkNoBvid | src/Bili-ShortVid-DEL.user.js:33-34 | a card with no link to a video page has no identifier |
| BvId.GetBvidUsesFirstVideoLink | src/Bili-ShortVid-DEL.user.js:33-34 | the first "/video/" link alone decides the identifier: links after it never change the result, even when that link has no match |
| BvId.MatchBvCharacterized | src/Bili-ShortVid-DEL.user.js:34 | the identifier runs from "BV" at the leftmost match to the end of the maximal word-character run after it |
| Duration.Resolve | src/Bili-ShortVid-DEL.user.js:44-52 | a reply with a duration resolves to it; any nonzero result comes from a parsed reply carrying exactly that duration, so every failure resolves to 0 |
| Duration.FailureIsZero | src/Bili-ShortVid-DEL.user.js:47-52 | a transport error, a malformed body and a missing duration all resolve to 0, like a zero-length video |
| Annotation.NonDivs | src/Bili-ShortVid-DEL.user.js:80 | the children copied into the blur layer are children of the card whose tagName is not DIV, and there are no more of them than children |
| Annotation.NonDivsKeepsEveryNonDiv | src/Bili-ShortVid-DEL.user.js:80-83 | every non-DIV child is copied into the blur layer |
| Annotation.NonDivsAppend | src/Bili-ShortVid-DEL.user.js:80-83 | the filter distributes over concatenation, so the copies keep the children's order |
| Annotation.Annotated | src/Bili-ShortVid-DEL.user.js:86-103 | blocking keeps the existing children in place and in order, and appends exactly two nodes: a blur layer, then the overlay |
| Annotation.AnnotatedClonesSame | src/Bili-ShortVid-DEL.user.js:80 | the appended layers are DIVs, so the non-DIV children of a blocked card are the same as before blocking |
| Annotation.Detach | src/Bili-ShortVid-DEL.user.js:112 | removing an attached node shortens the children by one; removing a node that is not attached changes nothing |
| Annotation.DetachRemovesOneCopy | src/Bili-ShortVid-DEL.user.js:112 | removal takes exactly one copy of the node out of the children and leaves every other child |
| Annotation.DetachAfterAbsent | src/Bili-ShortVid-DEL.user.js:112 | removing a node that is absent from a prefix leaves that prefix untouched |
| Annotation.Reveal | src/Bili-ShortVid-DEL.user.js:110-118 | the guarded removals take out one copy of the blur layer and one of the overlay, and nothing else |
| Annotation.OnClick | src/Bili-ShortVid-DEL.user.js:106-122 | as written: a click is suppressed exactly when the listener is registered, the listener stays registered, and a card without one is unchanged |
| Annotation.OnClickDetaching | src/Bili-ShortVid-DEL.user.js:106-122 | as intended: a click is suppressed exactly when the listener is registered, and afterwards no listener is left |
| Annotation.RevealUndoesAnnotation | src/Bili-ShortVid-DEL.user.js:110-118 | removing the two layers restores exactly the children the card had before it was blocked |
| Annotation.FirstClickReveals | src/Bili-ShortVid-DEL.user.js:106-122 | the first click on a blocked card is suppressed and restores its children |
| Annotation.SecondClickStillSuppressed | src/Bili-ShortVid-DEL.user.js:106-122 | as written, a second click leaves the restored children unchanged and is still suppressed |
| Annotation.IntendedSecondClickPassesThrough | src/Bili-ShortVid-DEL.user.js:106-122 | with a listener that detaches, the first click restores the children and the second click is not suppressed |
| Annotation.Card.constructor | src/Bili-ShortVid-DEL.user.js:128 | a card found by the scan starts unmarked, without a listener, with the given links and children |
| Annotation.Card.Annotate | src/Bili-ShortVid-DEL.user.js:70-106 | the new child list is the old one with the blur layer and the overlay appended, the listener holds those two layers, and the marker is untouched |
| Annotation.Card.RemoveLayers | src/Bili-ShortVid-DEL.user.js:110-118 | the new child list is the old one with the blur layer and the overlay removed where attached; listener and marker are untouched |
| Annotation.Card.Click | src/Bili-ShortVid-DEL.user.js:106-122 | as written: the card's new children, listener and suppression flag are those of `OnClick`, so the listener stays registered and every later click is suppressed |
| Annotation.Card.ClickDetaching | src/Bili-ShortVid-DEL.user.js:106-122 | as intended: the card's new children, listener and suppression flag are those of `OnClickDetaching`, so no listener is left |
| Pipeline.Decide | src/Bili-ShortVid-DEL.user.js:59-66 | a card is skipped exactly when it has no identifier or its identifier was handled before; a card that is not skipped is blocked exactly when its resolved duration is below 120 |
| Pipeline.Looked | src/Bili-ShortVid-DEL.user.js:62-65 | a lookup is issued for at most one identifier, and for none exactly when the card is skipped |
| Pipeline.FailedLookupBlocks | src/Bili-ShortVid-DEL.user.js:44-66 | a fresh identifier whose lookup fails is always blocked |
| Pipeline.Visit | src/Bili-ShortVid-DEL.user.js:130-132 | a card is skipped exactly when it is marked, has no identifier, or its identifier was handled before; a card that is not skipped is unmarked, carries the identifier looked up, and that identifier was not handled; it is blocked exactly when the resolved duration is below 120 |
| Pipeline.Requested | src/Bili-ShortVid-DEL.user.js:62-65 | a run of outcomes issues at most one lookup per card |
| Pipeline.Handled | src/Bili-ShortVid-DEL.user.js:62 | the handled set only grows |
| Pipeline.HandledIsRequested | src/Bili-ShortVid-DEL.user.js:60-65 | the handled set grows by exactly the identifiers looked up |
| Pipeline.ScanOutcomes | src/Bili-ShortVid-DEL.user.js:127-133 | a scan has exactly one outcome per card |
| Pipeline.ScanRequestsFresh | src/Bili-ShortVid-DEL.user.js:60-65 | a scan never looks up an identifier twice, nor one handled before the scan began |
| Pipeline.ScanKeepsHandledSetExact | src/Bili-ShortVid-DEL.user.js:60-65 | if the handled set was exactly the identifiers looked up, each once, it stays so across a scan |
| Pipeline.AtMostOneLookupPerId | src/Bili-ShortVid-DEL.user.js:60-66 | of two cards in one scan that carry the same identifier, at most one is looked up, so at most one of them can be blocked |
| Pipeline.HandledComesFromLookup | src/Bili-ShortVid-DEL.user.js:62 | an identifier is handled only if it was handled before or some outcome looked it up |
| Pipeline.LookupComesFromCard | src/Bili-ShortVid-DEL.user.js:59-62 | a scan looks an identifier up only for an unmarked card that carries it |
| Pipeline.HandledComesFromCard | src/Bili-ShortVid-DEL.user.js:59-62 | after a scan, an identifier is handled only if it was handled before or an unmarked card carries it |
| Pipeline.ScanOutcomesPrefix | src/Bili-ShortVid-DEL.user.js:129-133 | scanning the first n cards gives the first n outcomes of the whole scan: a card's outcome never depends on later cards |
| Pipeline.FirstCardWithIdIsLookedUp | src/Bili-ShortVid-DEL.user.js:59-65 | the first unmarked card carrying an identifier not handled before is looked up; with `AtMostOneLookupPerId`, it is the only card with that identifier that can be blocked |
| Pipeline.RescanOfMarkedCardsIsNoOp | src/Bili-ShortVid-DEL.user.js:130 | scanning cards that are all marked skips every one of them and issues no lookup |
| Pipeline.Filter.constructor | src/Bili-ShortVid-DEL.user.js:29 | the handled set starts empty and no lookup has been issued |
| Pipeline.Filter.ProcessItem | src/Bili-ShortVid-DEL.user.js:58-124 | the handled set grows by the card's identifier exactly when it is looked up; the card gets the two layers and the listener exactly when it is blocked, and is otherwise unchanged; the handled set stays exactly the identifiers looked up, each once |
| Pipeline.Filter.CheckItem | src/Bili-ShortVid-DEL.user.js:130-132 | a marked card changes nothing; any other card is marked and then processed, with the outcome `Visit` gives |
| Pipeline.Filter.Advance | src/Bili-ShortVid-DEL.user.js:129-133 | one turn of the loop extends the scan's outcomes, the handled set and the lookup log by the next card, finishes that card and leaves the later cards untouched |
| Pipeline.Filter.BatchProcess | src/Bili-ShortVid-DEL.user.js:127-134 | after one pass every card is marked; the handled set, the lookup log and every card's children and listener are those `ScanOutcomes` gives for the cards as they were; the handled set stays exactly the identifiers looked up, each once |

## Left out

- The lookup request is not modelled: `GM_xmlhttpRequest`, the URL template, the 3000 ms timeout and JSON parsing. The lookup is a function from identifier to `Reply`.
- A request that times out is not modelled. The request sets a 3000 ms timeout but registers no `ontimeout` callback, and in common userscript managers a timeout calls only that callback. The promise at line 39 then probably never settles (a reading of the code, not executed): the card stays marked but is never annotated, and the scan stops at that card. The model's `Reply` has no such case; every reply it has resolves.
- The `requestDelay` pause, the `MutationObserver`, the `setInterval` re-scan and overlapping asynchronous scans are timing and concurrency. A scan is one sequential loop.
- CSS selector matching and URL resolution are not modelled. A scan gets its cards as a sequence, and a card's links are given as absolute hrefs.
- Styles, `innerHTML`, z-index and blur values are not modelled. The two layers are the tagged nodes `BlurLayer` and `Overlay`.
- Event capture and propagation are reduced to whether a click is suppressed.
- Duration.Resolve: the duration field is an optional integer. Strings, fractions and booleans, which the comparison with 120 would coerce, are not modelled.
- Annotation.Card.Click: the `parentNode` guard is read as "is still a child of this card". Moving a layer to another parent is not modelled.
- Annotation.Detach: nodes are values, so value equality stands for node identity. `Detach` removes the first equal child, where `remove()` removes that exact node. The two agree when the children before blocking are host elements only (`HostOnly`, as in `RevealUndoesAnnotation`); `Card.Valid` does not state this.
- Pipeline.Filter.ProcessItem: requires the card to have no listener yet. The script calls it only on cards that were unmarked, and such cards have no listener. A second listener on one card is not modelled.
- Pipeline.Filter.BatchProcess: requires the cards to be distinct objects, as `querySelectorAll` returns them.

## Findings

| source | as written | input that shows it | evidently intended | confidence | as-written member | corrected member |
|---|---|---|---|---|---|---|
| src/Bili-ShortVid-DEL.user.js:121 | the listener tries to remove itself with `arguments.callee`; the listener is an arrow function in strict code (line 18), so that throws and the listener stays registered | a blocked card clicked twice: the second click changes nothing, but it is still stopped and its default action prevented, so the card never opens the video | the listener runs once: the first click reveals the card, and later clicks reach the page | high; not executed | Annotation.SecondClickStillSuppressed | Annotation.IntendedSecondClickPassesThrough |

`Annotation.OnClick` and `Annotation.Card.Click` model the listener as written. `Annotation.OnClickDetaching` and `Annotation.Card.ClickDetaching` are the corrected listener.
