# AtlasAI core, modelled in Dafny

AtlasAI shows Google Maps places and offers an AI panel ("Atlas") about the selected
place. This project models the three pieces of the repository that are logic rather
than presentation, and proves what they promise:

- **The AI backend** (`backend/main.py`, module `Backend`): the place-details
  dictionary is flattened into `key: value` lines with `None` values dropped, reviews
  are joined with newlines, the reviews are substituted into both fixed prompt
  templates and the details into the question-answering template, and the `response` field of the model's reply is stripped of surrounding whitespace.
  The templates, as literal text, are constants of the model.
- **The Atlas chat panel** (`AtlasModal.tsx`, module `Atlas`): a class holding the
  transcript (`seq<Message>`), the input buffer and the number of canned replies
  scheduled and not yet delivered. The effect that, while the panel is visible,
  resets the transcript when it is shown or the place name changes, `handleSend`, the text field's `onChange`
  and the deferred reply are its methods.
- **The map view** (`Map.tsx`, module `MapView`): nearby-search results become `Place`
  records with defaults for missing fields; a marker's place is merged with its detail
  response (only `website`, `openTime` and `type` change, the type normalised);
  the view state (`places`, `selectedPlace`) is a class whose methods are the two
  service callbacks.

Module `Text` holds the library string operations the three rely on (`"\n".join`,
Python `strip()`, JavaScript `trim()`, `replace(/_/g, ' ')`, `toLowerCase()`),
restricted to ASCII, with a `Split` inverse used to state that a join can be read
back. Module `Wrappers` holds `Option` and `Result`.

Behaviour that the code does not have is not modelled. In particular there is no
generation counter guarding the detail callback: `handleMarkerClick` sets the selected
place from whichever detail response arrives last, so an older click's response that
arrives late replaces a newer one. `MapView.LastArrivalWins` states this and
`MapView.OlderResponseOverwrites` shows the two-click case. Likewise there is no
summary cache, no request coalescing and no call from the chat panel to the backend:
the panel's greeting and its reply are fixed texts.

## Model

| member | source | states |
|---|---|---|
| Text.Strip | backend/main.py:75 | Python `strip()`/JS `trim()`: the result is the slice of the input between an all-whitespace prefix and an all-whitespace suffix; it is empty exactly when the input is all whitespace; otherwise its first and last characters are not whitespace |
| Text.PyWhitespace | backend/main.py:75 | definition of the characters Python's `str.strip()` removes, restricted to ASCII (also used at backend/main.py:96); its properties are the rows Strip and ReplyText |
| Text.JsWhitespace | src/components/Atlas/AtlasModal.tsx:156 | definition of the characters JavaScript's `String.prototype.trim()` removes, restricted to ASCII; its properties are the rows Strip and SendableIffTrimNonEmpty |
| Text.LeadingEnd | backend/main.py:75 | the first index not in the whitespace set: everything before it is whitespace and the character at it is not |
| Text.TrailingStart | backend/main.py:96 | the index after the last non-whitespace character of a range: everything after it is whitespace |
| Text.StripIdempotent | backend/main.py:96 | stripping an already stripped text changes nothing |
| Text.NoEdgesStripsToItself | backend/main.py:96 | a text not starting or ending with whitespace is its own strip |
| Text.Join | backend/main.py:80 | definition of `sep.join(parts)`; its properties are the rows SplitJoin, JoinSplit, JoinSnoc, JoinEndsWithLast, JoinStartsWithFirst and JoinLength |
| Text.Split | backend/main.py:80 | reference inverse of `join`: always at least one piece, and no piece contains the separator |
| Text.SplitJoin | backend/main.py:80 | `split(c)` of `c.join(parts)` gives back the parts when no part contains `c` |
| Text.JoinSplit | backend/main.py:85 | `c.join(s.split(c))` gives back `s` for every text |
| Text.JoinSnoc | backend/main.py:65 | joining one more part appends the separator and that part |
| Text.JoinEndsWithLast | backend/main.py:80 | a join ends with its last part, so there is no trailing separator |
| Text.JoinStartsWithFirst | backend/main.py:80 | a join starts with its first part |
| Text.JoinLength | backend/main.py:80 | a join's length is the parts' total length plus one separator per neighbouring pair |
| Text.LowerChar | src/components/Map/Map.tsx:110 | ASCII `toLowerCase` of one character: upper-case letters move down by 32, all else is kept, and the result is never upper-case |
| Text.ToLower | src/components/Map/Map.tsx:110 | `toLowerCase` keeps the length and lowers each character |
| Text.ReplaceAll | src/components/Map/Map.tsx:110 | `replace(/_/g, ' ')` keeps the length and replaces exactly the `_` characters |
| Backend.Show | backend/main.py:80 | definition of `str(v)` as the f-string substitutes `{v}`: `None` as `"None"`, booleans as `"True"`/`"False"`, a string as itself, any other value as its given rendering; used through FlattenSplitsIntoLines |
| Backend.Kept | backend/main.py:80 | definition of the `if v is not None` filter over the dict's items; its properties are the rows KeptMembers, KeptAppend, KeptAllWhenNoNone and FlattenEmptyWhenAllNone |
| Backend.RenderEntry | backend/main.py:80 | definition of `f"{k}: {v}"`; its properties are the rows FlattenSplitsIntoLines and FlattenEndsWithLastLine |
| Backend.DetailLines | backend/main.py:80 | the list comprehension: one rendered line per kept item (its contract gives the count) |
| Backend.FlattenDetails | backend/main.py:80 | definition of `place_details_str`; its properties are the rows FlattenEmptyWhenAllNone, FlattenSplitsIntoLines and FlattenEndsWithLastLine |
| Backend.JoinReviews | backend/main.py:65 | definition of `"\n".join(req.reviews)` (also line 85); its properties are the rows JoinReviewsSmall, JoinReviewsRoundTrip and JoinReviewsAppend |
| Backend.SummaryTemplate | backend/main.py:35-49 | definition of `PROMPT_TEMPLATE.format(...)` as literal text around the two slots; its properties are the rows SummaryPromptStart and SummaryPromptEnd |
| Backend.QaTemplate | backend/main.py:51-59 | definition of `QA_PROMPT_TEMPLATE.format(...)` as literal text around the four slots; its properties are the rows QaPromptLayout and QaPromptEndsWithQuestion |
| Backend.SummaryPrompt | backend/main.py:63-66 | definition of the summarize route's prompt; its properties are the row SummaryPromptOfRequest |
| Backend.QaPrompt | backend/main.py:82-87 | definition of the QA route's prompt; its properties are the row QaPromptOfRequest |
| Backend.KeptMembers | backend/main.py:80 | an item is kept exactly when it is in the dict and its value is not `None` (both directions) |
| Backend.KeptAppend | backend/main.py:80 | the `if v is not None` filter distributes over concatenation, so kept items stay in dict order |
| Backend.KeptAllWhenNoNone | backend/main.py:80 | with no `None` value every item is kept |
| Backend.FlattenEmptyWhenAllNone | backend/main.py:80 | an empty or all-`None` dict flattens to `""` |
| Backend.FlattenSplitsIntoLines | backend/main.py:80 | when no line contains a newline, the flattened text splits into exactly one `key + ": " + str(value)` line per kept item, in order |
| Backend.FlattenEndsWithLastLine | backend/main.py:80 | the flattened text ends with the last kept line (no trailing newline) |
| Backend.JoinReviewsSmall | backend/main.py:65 | no reviews join to `""`; one review joins to itself |
| Backend.JoinReviewsRoundTrip | backend/main.py:85 | reviews without newlines are read back from the joined text in input order |
| Backend.JoinReviewsAppend | backend/main.py:65 | one more review appends `"\n"` and that review |
| Backend.SummaryPromptStart | backend/main.py:35-49 | the summary prompt starts with `"Summarize all the user reviews for " + place_name` |
| Backend.SummaryPromptEnd | backend/main.py:63-66 | the summary prompt ends with `"\nReviews:\n" + joined reviews + "\n\nSummary:"` |
| Backend.QaPromptLayout | backend/main.py:51-59 | the QA prompt holds the place name, then the details, then the reviews, then the question, each at the position the template text before it fixes, spanning the whole prompt with the answer cue |
| Backend.QaPromptEndsWithQuestion | backend/main.py:82-87 | the QA prompt ends with `"Question: " + question + "\n\nAnswer:"` |
| Backend.SummaryPromptOfRequest | backend/main.py:63-66 | the summarize route's prompt starts with the request line naming `req.place_name` and ends with `"\nReviews:\n"`, the newline-joined `req.reviews` and `"\n\nSummary:"` |
| Backend.QaPromptOfRequest | backend/main.py:80-87 | the QA route's prompt holds `req.place_name`, the flattened `req.place_details`, the joined `req.reviews` and `req.question` in their own slots, in that order, and ends with `"Question: " + question + "\n\nAnswer:"` |
| Backend.Layout | backend/main.py:82-87 | where four texts substituted into a template sit in the result |
| Backend.ReplyText | backend/main.py:74-75 | the returned text is the stripped `response` field, `""` when absent, and an error when the field is not a string |
| Backend.ReplyTextIsStripped | backend/main.py:95-96 | a returned answer neither starts nor ends with whitespace and is its own strip |
| Backend.ReplyTextEmptyIff | backend/main.py:95-96 | the returned text is empty exactly when the field is absent or all whitespace |
| Atlas.Sendable | src/components/Atlas/AtlasModal.tsx:156 | definition of the guard `input.trim()` being non-empty; its property is the row SendableIffTrimNonEmpty |
| Atlas.WellFormed | src/components/Atlas/AtlasModal.tsx:143-166 | definition of the transcript invariant: user messages are non-blank, assistant messages are the canned reply or a leading greeting; kept by every method of AtlasModal |
| Atlas.UserCount | src/components/Atlas/AtlasModal.tsx:158 | definition of the number of user messages; used by SendThenReply |
| Atlas.AtlasModal.Valid | src/components/Atlas/AtlasModal.tsx:138 | definition of the class invariant: the transcript is WellFormed; required and ensured by every method |
| Atlas.Greeting | src/components/Atlas/AtlasModal.tsx:143-151 | the reset message is an assistant message whose text begins `"Here's a summary of reviews for " + placeName` |
| Atlas.SendableIffTrimNonEmpty | src/components/Atlas/AtlasModal.tsx:156 | a send is accepted exactly when `input.trim()` is not empty |
| Atlas.AtlasModal.constructor | src/components/Atlas/AtlasModal.tsx:137-153 | first render: empty input, no scheduled replies, and the transcript is the greeting when visible, empty otherwise |
| Atlas.AtlasModal.Rerender | src/components/Atlas/AtlasModal.tsx:141-153 | while visible, a change of `isVisible` or `placeName` replaces the transcript with the one greeting; when hidden or unchanged it is kept; input and scheduled replies are kept |
| Atlas.AtlasModal.Type | src/components/Atlas/AtlasModal.tsx:200 | the input buffer becomes the field's value |
| Atlas.AtlasModal.Send | src/components/Atlas/AtlasModal.tsx:155-160 | blank input changes nothing; otherwise the untrimmed input is appended as one user message after the unchanged earlier ones, the input is cleared and one reply is scheduled |
| Atlas.AtlasModal.Reply | src/components/Atlas/AtlasModal.tsx:162-167 | a scheduled reply appends exactly one assistant message with the canned text at the end and keeps everything before it |
| Atlas.SendThenReply | src/components/Atlas/AtlasModal.tsx:158-167 | an accepted send followed by its reply grows the transcript by the user message and then the canned reply, keeping earlier messages, the props and the well-formedness invariant (user messages are non-blank; assistant messages are the canned reply or a leading greeting) |
| MapView.FirstType | src/components/Map/Map.tsx:77 | `types?.[0]` is present exactly when the list is present and non-empty, and is then its first element |
| MapView.IsOpenNow | src/components/Map/Map.tsx:79 | definition of `opening_hours?.isOpen()`, falling back to `false` when missing or undefined; its property is the isOpen clause of ToPlaceDefaults |
| MapView.ToPlace | src/components/Map/Map.tsx:73-82 | a nearby result never carries `openTime` or `website` |
| MapView.ToPlaceDefaults | src/components/Map/Map.tsx:74-81 | name, address and placeId default to `''`, rating and totalRatings to `0`, type to `''` or else the first type, isOpen to `false`; a present `geometry.location` is carried over and otherwise location is (0, 0) |
| MapView.ToPlaces | src/components/Map/Map.tsx:73-82 | results map one-to-one, in order, to places |
| MapView.ToPlacesAppend | src/components/Map/Map.tsx:73 | the mapping distributes over concatenation |
| MapView.ApplySearch | src/components/Map/Map.tsx:72-83 | the places are replaced by the mapped results on an OK status with results, and kept otherwise |
| MapView.NormalizeType | src/components/Map/Map.tsx:110 | the normalised type has the raw type's length and no `_` and no upper-case letter |
| MapView.NormalizeTypeAt | src/components/Map/Map.tsx:110 | per character: `_` becomes a space, an upper-case letter its lower-case, anything else is kept |
| MapView.NormalizeTypeIdempotent | src/components/Map/Map.tsx:110 | normalising twice is normalising once |
| MapView.DetailType | src/components/Map/Map.tsx:110 | no first type, or an empty one, falls back to the marker's type; otherwise the normalised first type |
| MapView.OpenTimeOf | src/components/Map/Map.tsx:109 | `openTime` is the first `weekday_text` line, or `''` when absent |
| MapView.Merge | src/components/Map/Map.tsx:106-111 | the merged place equals the marker's place except for `website`, `openTime` and `type`, which come from the detail response |
| MapView.MergeReadsOnlyDetailFields | src/components/Map/Map.tsx:106-111 | detail responses that agree on website, first weekday line and types give the same merge |
| MapView.MergedTypeIsNormalized | src/components/Map/Map.tsx:110 | the merged type is the marker's own or has no `_` and no upper-case letter |
| MapView.Accepted | src/components/Map/Map.tsx:105 | definition of the guard of the detail callback: an OK status and a result present; its properties are the rows ApplyDetails, LastAccepted and LastArrivalWins |
| MapView.ApplyDetails | src/components/Map/Map.tsx:104-114 | the selection becomes the merge on an OK status with a result and is left as it was otherwise |
| MapView.SelectedAfter | src/components/Map/Map.tsx:104-113 | definition of the selection after detail callbacks applied in arrival order; its properties are the rows LastArrivalWins and OlderResponseOverwrites |
| MapView.LastAccepted | src/components/Map/Map.tsx:105 | the index of the last accepted callback, with no accepted callback after it |
| MapView.LastArrivalWins | src/components/Map/Map.tsx:98-114 | after any sequence of detail callbacks the selection is the merge of the last accepted one to arrive, or unchanged when none was accepted |
| MapView.OlderResponseOverwrites | src/components/Map/Map.tsx:98-114 | when the older click's response arrives after the newer one's, the older click's place is selected |
| MapView.MapState.constructor | src/components/Map/Map.tsx:46-47 | no places and no selection at first |
| MapView.MapState.OnNearbySearch | src/components/Map/Map.tsx:71-85 | the places follow `ApplySearch`; the selection is untouched |
| MapView.MapState.OnDetails | src/components/Map/Map.tsx:104-114 | the selection follows `ApplyDetails`; the places are untouched |
| MapView.MapState.AtlasPlaceName | src/components/Map/Map.tsx:160 | the Atlas panel gets the selected place's name, or `''` with nothing selected |

## Left out

- HTTP: the Ollama request (model name, `stream` flag), `raise_for_status`, FastAPI routing, request validation and CORS. The decoded reply body is an input of `Backend.ReplyText`; a body that is not a JSON object is not modelled.
- `str()` of numbers, lists and objects in the details dictionary: such values carry the text `str()` gives them (`PyRendered`); only `None`, booleans and strings are rendered by the model.
- A Python dict has distinct keys; the model's item sequence does not require it, and no property depends on it.
- Unicode: `strip()`, `trim()` and `toLowerCase()` are modelled on ASCII only (Python's `strip()` also removes `\x1c`-`\x1f`, which `trim()` does not; both sets are as in the languages).
- `setTimeout` timing: a scheduled reply is a separate `Reply` step that may come at any later point, including after a reset, as in the code, where the timer is never cancelled.
- `handleSend` reads the input of the last render; the model reads the current buffer, the same whenever a render happens between keystrokes and sends.
- Scroll-to-bottom, all styled components and JSX rendering, the intro splash, the frame and the place-details panel.
- Google Maps loading, the `idle` listener, `PlacesService` calls and markers; their callbacks arrive as a status and an optional result. `opening_hours.isOpen()` depends on the clock and is an input (`isOpenNow`).
- `google.maps.LatLng` is a pair of reals passed through unchanged; a `NaN` rating, which `|| 0` would turn into `0`, is not represented.
- `src/utils/ai.ts`: a fetch wrapper for the two backend routes; neither `AtlasModal.tsx` nor `Map.tsx` calls it.
