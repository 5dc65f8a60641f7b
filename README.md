# Personal site: metrics relay, trivia flashcards, navigation and blog catalogue

This project is a Dafny model of four parts of a personal web site, with proofs about each.

- **Live fitness-metrics relay** (`fitness.dfy`). A POST endpoint parses a JSON body and hands it to every registered listener. A listener that throws is removed from the registry. Each open server-sent-events stream owns a FIFO `pending` queue that its listener appends to. The stream's loop shifts every queued body off and writes it as a `metrics` event with a 3000 ms retry. It then waits for a notification or the keep-alive timer, and writes a `ping` if the queue is still empty when it wakes.
  - `Fitness.Relay` keeps the registry, the queues, the waiting streams and everything each stream has written.
  - Its ghost state carries the end-to-end invariant: every open stream has written, or still queues, exactly the bodies published while its listener was registered, in publish order, each once. Every method states how it changes that ghost state, so the bodies it counts are exactly those of the POSTs made so far.
  - A disconnect only removes the stream's listener from the registry. The stream's loop has no exit: it keeps its queue, and goes on waking and writing keep-alive pings.
  - Scheduling is left to the caller: which request runs next, and whether the notification or the timer wins a wait.
- **Trivia flashcards** (`trivia.dfy`). `Trivia.Flashcards` holds the page state:
  - the loaded questions;
  - the filtered (possibly shuffled) deck;
  - the current index and the flipped flag;
  - the set of studied positions;
  - the category filter.

  The page starts empty, and the question fetch, when it succeeds, sets only the two question lists. Its methods are the page's handlers: flip, next, previous, shuffle, filter by category, click on a card half, keyboard, and resetting the studied count. The shuffle is the Fisher–Yates loop of `src/pages/Trivia.tsx` over an array copy. The random positions are a parameter, and the result is proved to be a permutation.
- **Navigation links** (`routes.dfy`). The route table, and `getNavLinks`: the first home route (if any), followed by the other non-hidden routes sorted by label. The label comparison is a parameter.
- **Blog catalogue** (`posts.dfy`):
  - the post definitions;
  - the key under which a post's markdown is bundled;
  - the reading-time text;
  - the post list;
  - lookup by slug.

Shared pieces:
- `seqs.dfy`: `Filter` and `Find`, the model of JavaScript's `Array.prototype.filter` and `find`.
- `numerals.dfy`: decimal rendering of naturals and its inverse.
- `json.dfy`: JSON values and their `JSON.stringify` text.
- `wrappers.dfy`: `Option`.

The relay passes the parsed body through unchanged, whatever JSON value `c.req.json()` parses. Its only state is the in-memory registry and the streams' queues.

## Model

| member | source | states |
|---|---|---|
| Fitness.Relay.constructor | packages/api/src/routes/fitness.ts:8-9 | At module load the registry is empty, there is no stream and nothing has been published; the relay invariant holds. |
| Fitness.Relay.Subscribe | packages/api/src/routes/fitness.ts:11-21 | A new stream gets a fresh identity and an empty queue and log, and its listener joins the registry. The stream is due the bodies published from now on. Nothing else changes, and the invariant is kept. |
| Fitness.Relay.Abort | packages/api/src/routes/fitness.ts:22 | The disconnecting stream's listener leaves the registry, and nothing else changes: the stream keeps its queue, its wait and its output. From then on it is due no published body. The invariant is kept. |
| Fitness.Relay.Publish | packages/api/src/routes/fitness.ts:46-65 | An unparsable body gets 400 `{"error":"invalid JSON"}` and changes nothing. A parsed body gets 200 `{"ok":true}`. The registry loses exactly the listeners that threw. Exactly the streams whose listener was registered and returned get the body appended to their queue, once. No stream's output changes. The body is added to the published history, the streams whose listener threw are due nothing more, and the invariant is kept. |
| Fitness.Relay.CallListeners | packages/api/src/routes/fitness.ts:56-62 | The `for … of listeners` loop deletes exactly the registered listeners that throw. It appends the body exactly once to the queue of every other registered listener and leaves every other queue alone. |
| Fitness.Relay.Drain | packages/api/src/routes/fitness.ts:24-34 | A stream writes its whole queue, oldest first, as `metrics` events carrying the JSON text and retry 3000. The queue is then empty and the stream waits. The ghost state records the queue as delivered, and the invariant is kept. |
| Fitness.Relay.WriteQueued | packages/api/src/routes/fitness.ts:25-31 | The `while (pending.length > 0)` loop appends `MetricsEvents` of the old queue to the log and empties the queue, keeping the delivery account. |
| Fitness.Relay.Wake | packages/api/src/routes/fitness.ts:33-41 | When the wait ends, a `ping` with empty data is written exactly when the queue is empty; otherwise nothing is written. The ghost state is unchanged, and the invariant is kept. |
| Fitness.Relay.StreamAccount | packages/api/src/routes/fitness.ts:13-31 | For an open stream, the metrics events written so far followed by the queued ones are the bodies published while its listener was registered, in publish order. The published bodies are those of the successful POSTs, as the methods' contracts state. |
| Fitness.SubscribeAccounted | packages/api/src/routes/fitness.ts:13-21 | A new stream with an empty queue and log starts with an empty account, and every other stream's account is unaffected. |
| Fitness.AbortAccounted | packages/api/src/routes/fitness.ts:22 | Unregistering a listener keeps every queue and every account. The stream stops being due anything published later. |
| Fitness.PublishAccounted | packages/api/src/routes/fitness.ts:56-62 | After a publish, a stream whose listener returned is due the body and queues it. A stream whose listener threw is not due it, and is due nothing published later. |
| Fitness.DrainAccounted | packages/api/src/routes/fitness.ts:25-31 | Writing a stream's whole queue as metrics events keeps every account and keeps every stream's output to metrics and pings. |
| Fitness.WakeAccounted | packages/api/src/routes/fitness.ts:39-41 | A ping written on an empty queue keeps every account. |
| Fitness.DrainAll | packages/api/src/routes/fitness.ts:25-31 | Writing the whole queue, oldest first, moves it into what has been delivered and empties it. |
| Fitness.PublishReaches | packages/api/src/routes/fitness.ts:16-18 | A publish while a stream is registered extends both what it is due and its queue by the body. |
| Fitness.PublishPasses | packages/api/src/routes/fitness.ts:56-61 | A publish after a stream's listener was dropped leaves that stream's account unchanged. |
| Fitness.DrainOne | packages/api/src/routes/fitness.ts:25-30 | Shifting the oldest queued payload and writing it as a metrics event keeps the delivery account. |
| Fitness.PingDeliversNothing | packages/api/src/routes/fitness.ts:39-41 | A ping does not count as a delivered payload. |
| Fitness.MetricsEvent | packages/api/src/routes/fitness.ts:26-30 | A drained payload is written as a `metrics` event with retry 3000, which is never a keep-alive ping. |
| Fitness.MetricsEvents | packages/api/src/routes/fitness.ts:25-31 | A batch of payloads is written as one event each, all of them `metrics` events. |
| Fitness.MetricsAppendOne | packages/api/src/routes/fitness.ts:26-30 | Appending one event adds it to the metrics view exactly when it is a metrics event. |
| Fitness.MetricsEventsAppend | packages/api/src/routes/fitness.ts:25-31 | Writing two batches of payloads writes the events of the first, then those of the second. |
| Fitness.InvalidBodyScenario | packages/api/src/routes/fitness.ts:47-52 | With one open stream, an unparsable POST is refused with the 400 response. Nothing is queued, and the listener stays registered. |
| Fitness.OneStreamScenario | packages/api/src/routes/fitness.ts:11-65 | With one open, waiting stream, POSTing `{"<key>": <n>}` is acknowledged. The woken stream then writes exactly one event, `metrics` with data `{"<key>":<n>}` and retry 3000, and no ping. |
| Fitness.AbortedStreamScenario | packages/api/src/routes/fitness.ts:16-42 | After its client disconnects, a later POST is acknowledged but never queued on the stream. The stream's loop runs on and writes a `ping` when woken. |
| Fitness.ThrowingListenerScenario | packages/api/src/routes/fitness.ts:56-62 | A listener that throws once is dropped and gets nothing; the other stream still receives that body and every later one. |
| Json.Escape | packages/api/src/routes/fitness.ts:28 | The escaped text reads back as the original string under `Unescape`, which reads a JSON string literal's body as `JSON.parse` does and refuses a raw quote or control character. It is never shorter than the string. |
| Json.UnescapeRejectsRaw | packages/api/src/routes/fitness.ts:28 | A raw quote or control character in a string literal's body does not read back, so the round trip of `Escape` requires `JSON.stringify` to escape them. |
| Json.UnescapeChar | packages/api/src/routes/fitness.ts:28 | The escape of any one character reads back as that character, whatever text follows it. |
| Json.EscapePlain | packages/api/src/routes/fitness.ts:28 | A string without quotes, backslashes or control characters is written unchanged. |
| Json.Stringify | packages/api/src/routes/fitness.ts:28 | The JSON text of a value is never empty. |
| Json.StringifyOneMember | packages/api/src/routes/fitness.ts:28 | A one-member object with a plain key is written `{"key":<value text>}`. |
| Numerals.Decimal | packages/api/src/routes/fitness.ts:28 | A natural is written as a non-empty numeral of decimal digits with no leading zero. |
| Numerals.DecimalRoundTrip | packages/web/src/lib/posts.ts:14 | Reading back the decimal numeral of `n` gives `n`. |
| Seqs.Filter | src/lib/routes.ts:35-36 | `filter` keeps only elements that pass, in their original order (a subsequence), and never lengthens. |
| Seqs.FilterCount | src/lib/routes.ts:35-36 | `filter` keeps every passing element exactly as often as it occurs and drops every other one. |
| Seqs.Find | src/lib/routes.ts:34 | `find` returns nothing exactly when no element passes; otherwise it returns the first element that passes. |
| Trivia.Flashcards.constructor | src/pages/Trivia.tsx:34-39 | The page starts with no questions, on the first card, question side up, nothing studied, filter "all"; the deck matches the filter. |
| Trivia.Flashcards.Load | src/pages/Trivia.tsx:44-51 | A successful fetch sets both lists to the loaded questions and leaves the index, the flip, the studied set and the filter as they were. The deck matches the filter when that is "all". |
| Trivia.Flashcards.LoadFiltered | src/pages/Trivia.tsx:44-51 | The load as evidently intended: the deck is what the chosen filter shows of the loaded questions, so it matches the filter. |
| Trivia.FilterDuringLoad | src/pages/Trivia.tsx:49-50 | A category chosen while the questions load, then the load as written, leaves the filter on that category with a card of another category in the deck. |
| Trivia.FilterDuringLoadFiltered | src/pages/Trivia.tsx:49-50 | The same clicks with the intended load leave the deck empty when no loaded card is of the chosen category. |
| Trivia.Flashcards.FlipCard | src/pages/Trivia.tsx:60-69 | The card turns over. Turning it to its answer adds the current position to the studied set. Nothing else changes. |
| Trivia.Flashcards.NextCard | src/pages/Trivia.tsx:71-76 | Unless on the last card, move one card on with the question side up; otherwise nothing changes. The index stays within the deck. |
| Trivia.Flashcards.PreviousCard | src/pages/Trivia.tsx:78-83 | Unless on the first card, move one card back with the question side up; otherwise nothing changes. |
| Trivia.Flashcards.ShuffleCards | src/pages/Trivia.tsx:85-95 | The deck becomes the Fisher–Yates shuffle of the old deck under the drawn positions. It keeps the same cards with the same multiplicities, so a deck that matched the filter still does. The session restarts on the first card with nothing studied. |
| Trivia.Flashcards.FilterCategory | src/pages/Trivia.tsx:97-107 | The deck becomes all questions (for "all") or those of the category in load order, so it matches the filter. The session restarts. |
| Trivia.Flashcards.HandleCardClick | src/pages/Trivia.tsx:124-144 | Question side: left goes back, right flips. Answer side: left turns the card back without touching the studied set, right goes on. |
| Trivia.Flashcards.HandleKeyDown | src/pages/Trivia.tsx:110-121 | ArrowRight is next, ArrowLeft is previous, space flips; any other key changes nothing. |
| Trivia.Flashcards.ResetStudied | src/pages/Trivia.tsx:174-182 | The studied set empties and nothing else changes. |
| Trivia.Flashcards.StudiedWithinDeck | src/pages/Trivia.tsx:170-173 | The studied count never exceeds the number of cards in the deck (or one, for an empty deck). |
| Trivia.Swap | src/pages/Trivia.tsx:89 | The two cards trade places and every other card stays where it is. |
| Trivia.SwapInPlace | src/pages/Trivia.tsx:89 | Swapping two array slots leaves the array holding `Swap` of its old contents. |
| Trivia.FisherYates | src/pages/Trivia.tsx:86-90 | The shuffled copy has the same length and the same cards with the same multiplicities. |
| Trivia.ShuffleInPlace | src/pages/Trivia.tsx:86-90 | The descending swap loop leaves the array holding `FisherYates` of its old contents. |
| Trivia.ShuffleDownPermutes | src/pages/Trivia.tsx:87-90 | The swaps only reorder: length and multiset of cards are preserved. |
| Trivia.SwapPermutes | src/pages/Trivia.tsx:89 | One swap preserves length and multiset. |
| Trivia.ShuffleDownIdentity | src/pages/Trivia.tsx:87-90 | With every position drawn as itself, the shuffle leaves the deck unchanged. |
| Trivia.Visible | src/pages/Trivia.tsx:99-103 | "all" shows every loaded question as loaded. A category shows only cards of that category, in load order. |
| Trivia.VisibleCounts | src/pages/Trivia.tsx:99-103 | A category filter keeps every question of that category as often as it was loaded, and no other; "all" keeps everything. |
| Routes.Insert | src/lib/routes.ts:37 | Inserting a route adds exactly that route to the multiset. |
| Routes.SortByLabel | src/lib/routes.ts:37 | Sorting is a permutation. |
| Routes.InsertSorted | src/lib/routes.ts:37 | Under a total preorder, inserting into a label-sorted list keeps it sorted. |
| Routes.SortSorted | src/lib/routes.ts:37 | Under a total preorder, the sort's result is sorted by label. |
| Routes.NavLinks | src/lib/routes.ts:33-40 | The links are, counted with multiplicity, the first home route (if any) and the listed routes. |
| Routes.NavLinksShape | src/lib/routes.ts:33-40 | The links start with a home route exactly when the table has one, and then it is the first such route. Their number is one for home plus the number of listed routes. |
| Routes.NavLinksListed | src/lib/routes.ts:35-36 | Every link after home has a path other than "/" and is not hidden. |
| Routes.NavLinksCount | src/lib/routes.ts:35-37 | After home, each listed route appears as often as in the table, and no other route appears. |
| Routes.NavLinksSorted | src/lib/routes.ts:37 | Under a total preorder, the links after home are in label order. |
| Routes.RouteTableLinks | src/lib/routes.ts:14-40 | With the site's table the links are Home then Blog, in every label order; the hidden "Blog Post" route never appears. |
| Posts.PostPath | packages/web/src/lib/posts.ts:11 | The bundle key is the posts directory, then exactly the slug, then `.md`. |
| Posts.PostPathInjective | packages/web/src/lib/posts.ts:11 | Distinct slugs give distinct bundle keys. |
| Posts.MarkdownContent | packages/web/src/lib/posts.ts:17-19 | A post's content is present exactly when its key is bundled, and is then that file's text. |
| Posts.ReadMinutes | packages/web/src/lib/posts.ts:10-15 | At least one minute. A missing or empty file gives exactly one minute. Otherwise the count is the rounded estimate raised to one minute when it is less, that is, the larger of the two. |
| Posts.ReadTime | packages/web/src/lib/posts.ts:10-15 | The reading-time text ends in " min read" and has something before it. |
| Posts.ReadTimeReadsBack | packages/web/src/lib/posts.ts:10-15 | The reading-time text is a numeral that reads back to the minute count (at least one), followed by " min read". |
| Posts.MissingFileReadsOneMinute | packages/web/src/lib/posts.ts:12 | Without its markdown, or with an empty file, a post reads "1 min read". |
| Posts.Meta | packages/web/src/lib/posts.ts:51-54 | Every field of the definition is copied, and the reading time of its slug is added. |
| Posts.PostsOf | packages/web/src/lib/posts.ts:51-54 | One entry per definition, in order, with every field copied and the reading time of its slug added. |
| Posts.PostBySlug | packages/web/src/lib/posts.ts:56-57 | A post is found exactly when some definition has the slug; it is then the first such definition with its reading time. |
| Posts.SitePosts | packages/web/src/lib/posts.ts:40-57 | With the site's definitions, "escaping" finds the one post and every other slug finds nothing. |

## Left out

- Hono routing, `streamSSE`, the server-sent-events wire framing, `stream.sleep` and the 15-second timer, `Promise.race` and the `notify` resolver. The model keeps only their effect: a waiting stream is woken by whoever drives the model.
- `console.log` of each published body: output only.
- `c.req.json()`: body parsing is an oracle. Its result, or `None` when it throws, is the `parsed` argument of `Fitness.Relay.Publish`.
- Why a listener throws: the set of listeners that throw is the `failing` argument.
- Fitness.Relay.CallListeners: does not fix the order in which the listeners are called (JavaScript's `Set` iterates in insertion order), and does not return the sequence of calls. It states each call's effect: a throwing listener is deleted, and every other listener's queue gets the body once.
- Fitness.Relay.Drain: the inner write loop is one step. In fitness.ts, a publish can also land between two writes. Its body then joins the end of the queue and is written in the same drain rather than after a wake, and the stream's output is the same.
- JSON numbers are integers, written in plain decimal; that is how JavaScript writes integers below 10^21 in magnitude, and larger ones, which it writes in exponent form (`1e+21`), are not modelled. Floating-point numbers, their text, and `JSON.stringify` of lone surrogates are not modelled either.
- Json.Stringify: states only that the text is never empty. Its exact text is stated for one-member objects and, through `Escape`, for strings. An object's members are written in the order of its member list. `JSON.stringify` writes integer-like keys first, in ascending order, and a parsed object never has duplicate keys; neither rule is part of the model.
- Fitness.Relay.Abort: what Hono does with the writes of a stream whose client has gone (the loop goes on writing pings to it) is not modelled. The model's stream simply keeps writing to its log.
- Trivia.Flashcards.Load: requires the page's state before the load, with no questions and an empty deck. The mount effect runs once, before any of the handlers can have filled the deck. A failed fetch leaves the page empty and is not modelled apart from that.
- The trivia page's fetch itself and its error and loading flags, the rendering, `preventDefault`, and the click-geometry arithmetic. The result of that arithmetic is the `isLeftHalf` argument.
- `Math.random`: the shuffle's random positions are the `picks` argument, each required to be at most its position.
- `localeCompare`: the label order is a parameter `le`, assumed only to be a total preorder, wherever sortedness is claimed.
- Routes.SortByLabel: does not claim stability (the order of routes whose labels compare equal).
- The page components each route renders (`lazy` imports) are not modelled.
- The `reading-time` library and `Math.round`: the rounded estimate is the `rounded` parameter.
- `import.meta.glob`: the bundled markdown is the `files` map parameter.

## Findings

| source | as written | input that shows it | evidently intended | confidence | as-written member | corrected member |
|---|---|---|---|---|---|---|
| src/pages/Trivia.tsx:49-50 | The load sets both question lists to every loaded question and keeps the filter chosen during loading. | While "Loading questions..." shows, click the "Script" filter; the questions then load with one of category "themes". The "Script" button stays highlighted and the deck shows the "themes" card. | The deck is what the highlighted filter shows of the loaded questions. | medium; not executed | Trivia.FilterDuringLoad | Trivia.Flashcards.LoadFiltered |
