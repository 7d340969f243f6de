# Workout video cleanup tool — verified model of its core logic

The cleanup tool is a small admin utility for curating the demonstration
videos of a workout database. A Flask backend (`cleanup_tool/app.py`) serves
the workout list, searches YouTube for short replacement videos and writes a
chosen video back into the JSON database; a browser client
(`cleanup_tool/static/script.js`) filters the list, composes search queries,
previews candidates in a modal and updates its own copy of the list after a
selection.

This project models the logic inside that glue and proves what it promises:

- `text.dfy` (`Text`): ASCII lower-casing and the substring test the filter uses.
- `workouts.dfy` (`Workouts`): the workout record and lookup of the first record with a given id.
- `backend.dfy` (`Backend`): `update_workout` as a loop over the loaded records with an
  `updated` flag and `break`, proved against a loop-free specification `UpdateSpec`;
  `search_videos` with its two guards, the `" shorts"` suffix, the
  high → medium → default thumbnail fallback and the per-item mapping loop.
- `frontend.dfy` (`Frontend`): the filter predicate and `filter` of `renderWorkouts`,
  the distinct material options of `populateFilterOptions`, the query composed in
  `searchAlternatives`, the local update in `selectVideo`, and the client's list as
  a class.
- `preview.dfy` (`Preview`): the preview modal as a two-field state machine and a class.

Inputs that come from outside are parameters: the database file's contents
(`db`), the JSON request fields (`Option<string>`, None for a missing or null
field), the YouTube client (a function from request to response, None when no
API key is configured), the DOM control values, and the outcome of the
client's update call. What `save_db` would write is returned as `saved`
(None: no save); the request handed to the YouTube API is returned as `sent`
(None: no search).

The client composes the search query as exercise name, then material
(`${query} ${workout.material_name}`), and asks for confirmation before the
update call. The server answers a rejected update with an `{'error': ...}`
body (status 400 or 404) and saves nothing, yet the client's reply handler
still writes the new video into its list; see "## Findings".

## Model

| member | source | states |
|---|---|---|
| `Text.Lower` | cleanup_tool/static/script.js:30 | defined by its body: ASCII lower-casing of each character; properties in `Text.LowerIdempotent` |
| `Text.Contains` | cleanup_tool/static/script.js:35 | defined by its body: a left-to-right prefix scan; properties in `Text.ContainsIffOccurs`, `Text.ContainsEmpty` |
| `Text.ContainsIffOccurs` | cleanup_tool/static/script.js:35 | the substring test holds exactly when the search text occurs at some position of the name |
| `Text.ContainsEmpty` | cleanup_tool/static/script.js:35 | every name contains the empty search text |
| `Text.LowerIdempotent` | cleanup_tool/static/script.js:30 | lower-casing is idempotent and leaves no ASCII capital |
| `Workouts.FindById` | cleanup_tool/static/script.js:100 | the lookup returns the position of the first workout with the id, or None exactly when no workout has it |
| `Workouts.FindByIdUnique` | cleanup_tool/app.py:88-96 | when ids are unique, the first match is the one record with that id |
| `Backend.UpdateReply.Body` | cleanup_tool/app.py:90-108 | defined by its body: `{'error': "Missing workout_id"}`, `{'error': "Workout not found"}` or `{'message': "Requirement updated successfully"}`; properties in `Backend.UpdateWorkout` |
| `Backend.Overwrite` | cleanup_tool/app.py:97-100 | defined by its body: the conditional overwrite of the two media fields; properties in `Backend.OverwriteFields` |
| `Backend.UpdateSpec` | cleanup_tool/app.py:90-108 | defined by its body: the reply and the saved database without the loop; properties in `Backend.MissingIdRejected`, `Backend.UpdatedIffFound`, `Backend.SaveChangesOnlyFirstMatch` |
| `Backend.OverwriteFields` | cleanup_tool/app.py:97-100 | on the matched record the video URL is overwritten only by a truthy value, likewise the thumbnail; every other field is kept |
| `Backend.UpdateWorkout` | cleanup_tool/app.py:83-108 | the loop with flag and break gives the reply and the saved database that `UpdateSpec` prescribes; the reply body is an `error` exactly when nothing is saved |
| `Backend.MissingIdRejected` | cleanup_tool/app.py:90-91 | a missing or empty workout_id yields "Missing workout_id" and no save, whatever the database holds |
| `Backend.UpdatedIffFound` | cleanup_tool/app.py:94-108 | the reply is "updated" iff a save happens iff the id is truthy and some record has it; otherwise "Workout not found" exactly when no record has it |
| `Backend.SaveChangesOnlyFirstMatch` | cleanup_tool/app.py:95-105 | a saved database has the same length; only the first record with the id differs, only in its two media fields, each set as the truthiness rule says |
| `Backend.PickThumbnail` | cleanup_tool/app.py:68 | defined by its body: the nested `get` on high, medium, default; properties in `Backend.PickThumbnailIsMostPreferred`, `Backend.PickThumbnailNone` |
| `Backend.PickThumbnailIsMostPreferred` | cleanup_tool/app.py:68 | the chosen thumbnail is u iff some size has url u, is present, and every more preferred size (high, medium, default) is absent |
| `Backend.PickThumbnailNone` | cleanup_tool/app.py:68 | no thumbnail is chosen exactly when none of the three sizes is present |
| `Backend.WatchUrl` | cleanup_tool/app.py:74 | defined by its body: the watch URL prefix followed by the video id; properties in `Backend.ToCandidateFields` |
| `Backend.EmbedUrl` | cleanup_tool/app.py:75 | defined by its body: the embed URL prefix followed by the video id; properties in `Backend.ToCandidateFields` |
| `Backend.ToCandidate` | cleanup_tool/app.py:64-76 | defined by its body: one item mapped to its candidate, None when the thumbnail lookup raises; properties in `Backend.ToCandidateFields` |
| `Backend.ReplyFor` | cleanup_tool/app.py:62-80 | defined by its body: an exception from the API becomes its message as error, a thumbnail-less item the TypeError's message, otherwise the shaped list; properties in `Backend.ShapeItems` and `Backend.SearchVideos` |
| `Backend.ToCandidateFields` | cleanup_tool/app.py:64-76 | an item yields a candidate iff it has a thumbnail; the candidate carries its id, title, chosen thumbnail, watch URL and embed URL |
| `Backend.ShapeItems` | cleanup_tool/app.py:62-77 | the mapping succeeds iff every item has a thumbnail, and then yields one candidate per item, in order |
| `Backend.SearchVideos` | cleanup_tool/app.py:40-80 | no client: not-configured error and no search; falsy query: "No query provided" and no search; otherwise the request sent is snippet, 5 results, `query + " shorts"`, type video, and the reply is the shaped response or its error |
| `Frontend.Keeps` | cleanup_tool/static/script.js:34-43 | defined by its body: the filter predicate; properties in the `Frontend.Filter…` rows |
| `Frontend.FilterWorkouts` | cleanup_tool/static/script.js:34-43 | defined by its body: `workouts.filter(Keeps)`; properties in `Frontend.FilterMembership`, `Frontend.FilterCounts`, `Frontend.FilterIsOrderedSelection`, `Frontend.FilterKeepsAllByDefault` |
| `Frontend.FilterMembership` | cleanup_tool/static/script.js:34-43 | a workout is shown iff it is in the list, its lower-cased name contains the lower-cased search text, and the material is "all" or equal to the workout's |
| `Frontend.FilterCounts` | cleanup_tool/static/script.js:34-43 | a kept workout is shown as many times as it occurs; a dropped one never |
| `Frontend.FilterIsOrderedSelection` | cleanup_tool/static/script.js:34-45 | the filtered list is the order-preserving subsequence of the workouts at exactly the positions that pass the predicate |
| `Frontend.FilterKeepsAllByDefault` | cleanup_tool/static/script.js:35-36 | an empty search with material "all" keeps every workout in order |
| `Frontend.DisplayedAreExactlyKept` | cleanup_tool/static/script.js:45-53 | with or without the "missing only" reordering, the displayed workouts are exactly the kept ones |
| `Frontend.Materials` | cleanup_tool/static/script.js:19 | defined by its body: `workouts.map(w => w.material_name)`; properties in `Frontend.DistinctMaterials` |
| `Frontend.DistinctMaterials` | cleanup_tool/static/script.js:18-25 | the options are exactly the workouts' materials, each once, ordered by first occurrence |
| `Frontend.ComposeQuery` | cleanup_tool/static/script.js:100-101 | the query is `query + " " + material` of the first workout with the id; None (the TypeError) exactly when no workout has it |
| `Frontend.SetLocalVideo` | cleanup_tool/static/script.js:149-151 | the first workout with the id gets the new video URL and thumbnail; its other fields, every other workout and the length are unchanged; without a match the list is unchanged |
| `Frontend.ReconcileAsWritten` | cleanup_tool/static/script.js:145-151 | defined by its body: the reply handler as written, running the local update on every parsed reply; properties in `Frontend.AsWrittenUpdatesOnErrorReply` |
| `Frontend.AsWrittenUpdatesOnErrorReply` | cleanup_tool/static/script.js:145-151 | the as-written local update changes the list after a "Missing workout_id" or "Workout not found" reply that saved nothing |
| `Frontend.Reconcile` | cleanup_tool/static/script.js:145-152 | a rejected fetch or an `error` body leaves the list unchanged; a successful reply applies the local update |
| `Frontend.ReconcileMirrorsServer` | cleanup_tool/static/script.js:136-151 | when the client's list is the server's database, the reconciled list is what the server saved, or the old list when nothing was saved |
| `Frontend.WorkoutStore.constructor` | cleanup_tool/static/script.js:2 | the store starts empty |
| `Frontend.WorkoutStore.Load` | cleanup_tool/static/script.js:11-12 | the fetched list replaces the store |
| `Frontend.WorkoutStore.SelectVideo` | cleanup_tool/static/script.js:133-153 | the corrected, success-gated handler (see "## Findings"): the new list is the reconciled old list for the outcome; its length is unchanged |
| `Preview.Step` | cleanup_tool/static/script.js:160-176 | defined by its body: the state after one handler; properties in the `Preview` lemma rows |
| `Preview.Run` | cleanup_tool/static/script.js:160-176 | defined by its body: the state after a sequence of handlers; properties in `Preview.RunKeepsQuiet`, `Preview.LastPreviewWins`, `Preview.PreviewTwice` |
| `Preview.StepKeepsQuiet` | cleanup_tool/static/script.js:160-176 | no handler leaves a player behind a hidden modal |
| `Preview.RunKeepsQuiet` | cleanup_tool/static/script.js:160-176 | no sequence of handlers leaves a player behind a hidden modal |
| `Preview.LastPreviewWins` | cleanup_tool/static/script.js:160-164 | after previewing u, clicks that miss the backdrop leave the modal visible with the player for u |
| `Preview.PreviewTwice` | cleanup_tool/static/script.js:160-164 | previewing twice leaves only the second URL's player |
| `Preview.PreviewModal.constructor` | cleanup_tool/static/script.js:157 | the modal starts hidden with an empty player container, so no player runs behind it |
| `Preview.PreviewModal.Preview` | cleanup_tool/static/script.js:160-164 | the modal is visible with the player for the URL, as `Step` prescribes; no player runs behind a hidden modal |
| `Preview.PreviewModal.CloseButtonClick` | cleanup_tool/static/script.js:166-169 | the modal is hidden and the container emptied, as `Step` prescribes |
| `Preview.PreviewModal.WindowClicked` | cleanup_tool/static/script.js:171-176 | a click on the backdrop hides and empties the modal; any other click changes nothing; a quiet modal stays quiet |

## Findings

| source | as written | input that shows it | evidently intended | confidence | as-written member | corrected member |
|---|---|---|---|---|---|---|
| cleanup_tool/static/script.js:145-151 | the local update runs for every reply that parses as JSON, including the server's `{'error': ...}` replies, so the client shows a video as linked although nothing was saved | a workout whose id is `""` (the server answers "Missing workout_id"), or a client list that still holds a workout the database no longer has (the server answers "Workout not found") | update the local list only after the success reply: the server saves nothing when it answers `{'error': ...}` (cleanup_tool/app.py:91, 108), so the list should change only when the server saved | medium; not executed | `Frontend.ReconcileAsWritten`, shown by `Frontend.AsWrittenUpdatesOnErrorReply` | `Frontend.Reconcile`, with `Frontend.ReconcileMirrorsServer`; used by `Frontend.WorkoutStore.SelectVideo` |

## Left out

- HTTP transport: `fetch`, Flask routing, `jsonify`, status codes and parsing of `request.json` (a body that is not a JSON object is not modelled); request fields and response items are parameters.
- `load_db` and `save_db` (cleanup_tool/app.py:18-28): file I/O. The database is the `db` parameter (a read error makes it the empty list); a save is the `saved` result.
- Building the Google API client and calling `execute()`: a foreign call, modelled as a function parameter whose result is the items or the message of the exception it raised.
- JSON values other than strings and null in the request fields and in workout ids: only a missing/null field and `""` count as falsy, and ids are compared as strings. Keys of a record other than the seven workout fields are not modelled (they are never touched).
- Exceptions when a search item lacks `videoId`, `title` or a thumbnail's `url`; only the missing-thumbnail case (all three sizes absent) is modelled, as the error reply its TypeError produces.
- DOM construction and `innerHTML` templates (including the unescaped exercise name in the "Find Alternatives" handler), the thumbnail placeholder, `toggleDetails`, `confirm`, `alert`, and the rendering of search results and their error message: user interface.
- The comparator of the "missing only" sort (cleanup_tool/static/script.js:47) ignores its second argument and is not consistent, so no order is promised; only that the displayed list is a reordering of the filtered list.
- `toLowerCase` is modelled on ASCII letters only.
- `Frontend.DistinctMaterials` returns the options in the order they are appended; the options already in the select element (the page's "all" entry, in index.html, which is not part of this model) are not modelled, nor that a material literally named "all" cannot be selected on its own.
- `Preview.PreviewModal.constructor`: assumes the page starts with the modal hidden and the container empty, since index.html is not part of this model.
- The order in which asynchronous completions run and the last-write-wins results panels: event-loop behaviour.
