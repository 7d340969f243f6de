/**
 * The two Flask endpoints of cleanup_tool/app.py whose logic is more than
 * plumbing: `update_workout` (find a record by id and overwrite its video
 * and thumbnail) and `search_videos` (guards, the " shorts" suffix and the
 * shaping of YouTube search items into video candidates).
 *
 * The JSON database file is a sequence of workouts handed in as `db`; what
 * `save_db` would write is returned as `saved`. The YouTube client is a
 * function from request to response, absent when no API key is configured.
 */
module Backend {
  import opened Wrappers
  import opened Text
  import opened Workouts

  /** Python truthiness of an optional JSON string: present and non-empty. */
  predicate Truthy(v: Option<string>) {
    v.Some? && v.value != ""
  }

  // ---------------------------------------------------------------------
  // update_workout
  // ---------------------------------------------------------------------

  const MissingWorkoutIdError := "Missing workout_id"
  const WorkoutNotFoundError := "Workout not found"
  const UpdatedMessage := "Requirement updated successfully"

  /** The three answers of `update_workout`. */
  datatype UpdateReply = MissingWorkoutId | WorkoutNotFound | Updated {

    /**
     * The JSON body sent back: `{'message': ...}` for a successful update,
     * `{'error': ...}` for the two rejections.
     */
    function Body(): ReplyBody {
      match this
      case MissingWorkoutId => ErrorBody(MissingWorkoutIdError)
      case WorkoutNotFound => ErrorBody(WorkoutNotFoundError)
      case Updated => MessageBody(UpdatedMessage)
    }
  }

  /** A reply body with a single `message` or `error` field. */
  datatype ReplyBody = MessageBody(text: string) | ErrorBody(text: string)

  /** What one call does: its reply, and the database it saves (None: no save). */
  datatype UpdateEffect = UpdateEffect(reply: UpdateReply, saved: Option<seq<Workout>>)

  /** The matched record after the conditional overwrite of its two media fields. */
  function Overwrite(w: Workout, videoUrl: Option<string>, thumbnailUrl: Option<string>): Workout {
    var withVideo := if Truthy(videoUrl) then w.(videoSearchUrl := videoUrl.value) else w;
    if Truthy(thumbnailUrl) then withVideo.(thumbnail := Some(thumbnailUrl.value)) else withVideo
  }

  /** On the matched record, a field is overwritten only by a truthy value; nothing else changes. */
  lemma OverwriteFields(w: Workout, videoUrl: Option<string>, thumbnailUrl: Option<string>)
    ensures SameExceptMedia(w, Overwrite(w, videoUrl, thumbnailUrl))
    ensures Overwrite(w, videoUrl, thumbnailUrl).videoSearchUrl
            == if Truthy(videoUrl) then videoUrl.value else w.videoSearchUrl
    ensures Overwrite(w, videoUrl, thumbnailUrl).thumbnail
            == if Truthy(thumbnailUrl) then Some(thumbnailUrl.value) else w.thumbnail
  {
  }

  /** The specification of `update_workout`, stated without the loop. */
  function UpdateSpec(db: seq<Workout>, workoutId: Option<string>,
                      videoUrl: Option<string>, thumbnailUrl: Option<string>): UpdateEffect
  {
    if !Truthy(workoutId) then UpdateEffect(MissingWorkoutId, None)
    else match FindById(db, workoutId.value)
      case None => UpdateEffect(WorkoutNotFound, None)
      case Some(i) => UpdateEffect(Updated, Some(db[i := Overwrite(db[i], videoUrl, thumbnailUrl)]))
  }

  /**
   * The endpoint body: reject a falsy id, then scan the loaded records,
   * overwrite the first one whose id matches, stop, and save only if a
   * record was updated.
   */
  method UpdateWorkout(db: seq<Workout>, workoutId: Option<string>,
                       videoUrl: Option<string>, thumbnailUrl: Option<string>)
    returns (reply: UpdateReply, saved: Option<seq<Workout>>)
    ensures UpdateEffect(reply, saved) == UpdateSpec(db, workoutId, videoUrl, thumbnailUrl)
    ensures reply.Body().ErrorBody? <==> saved.None?
  {
    if !Truthy(workoutId) {
      return MissingWorkoutId, None;
    }
    var data := db;
    var updated := false;
    var i := 0;
    while i < |data|
      invariant 0 <= i <= |data|
      invariant !updated && data == db
      invariant forall j :: 0 <= j < i ==> db[j].id != workoutId.value
    {
      if data[i].id == workoutId.value {
        data := data[i := Overwrite(data[i], videoUrl, thumbnailUrl)];
        updated := true;
        break;
      }
      i := i + 1;
    }
    if updated {
      reply, saved := Updated, Some(data);
    } else {
      reply, saved := WorkoutNotFound, None;
    }
  }

  /** A falsy id is rejected whatever the database holds, and nothing is saved. */
  lemma MissingIdRejected(db: seq<Workout>, workoutId: Option<string>,
                          videoUrl: Option<string>, thumbnailUrl: Option<string>)
    requires !Truthy(workoutId)
    ensures UpdateSpec(db, workoutId, videoUrl, thumbnailUrl) == UpdateEffect(MissingWorkoutId, None)
  {
  }

  /** The reply is "updated", and a save happens, exactly when some record has the id. */
  lemma UpdatedIffFound(db: seq<Workout>, workoutId: Option<string>,
                        videoUrl: Option<string>, thumbnailUrl: Option<string>)
    ensures var e := UpdateSpec(db, workoutId, videoUrl, thumbnailUrl);
            (e.reply == Updated <==> e.saved.Some?)
            && (e.reply == Updated <==>
                  Truthy(workoutId) && exists j :: 0 <= j < |db| && db[j].id == workoutId.value)
            && (e.reply == WorkoutNotFound <==>
                  Truthy(workoutId) && forall j :: 0 <= j < |db| ==> db[j].id != workoutId.value)
  {
  }

  /**
   * A save writes back a list of the same length in which only the first
   * record with the id differs, and only in its two media fields.
   */
  lemma SaveChangesOnlyFirstMatch(db: seq<Workout>, workoutId: Option<string>,
                                  videoUrl: Option<string>, thumbnailUrl: Option<string>,
                                  s: seq<Workout>)
    requires UpdateSpec(db, workoutId, videoUrl, thumbnailUrl).saved == Some(s)
    ensures Truthy(workoutId) && |s| == |db|
    ensures exists i :: IsFirstWithId(db, workoutId.value, i)
                        && (forall j :: 0 <= j < |db| && j != i ==> s[j] == db[j])
                        && SameExceptMedia(db[i], s[i])
                        && s[i].videoSearchUrl == (if Truthy(videoUrl) then videoUrl.value else db[i].videoSearchUrl)
                        && s[i].thumbnail == (if Truthy(thumbnailUrl) then Some(thumbnailUrl.value) else db[i].thumbnail)
  {
  }

  // ---------------------------------------------------------------------
  // search_videos
  // ---------------------------------------------------------------------

  const NotConfiguredError := "YouTube API Key not configured. Please add YOUTUBE_API_KEY to .env"
  const NoQueryError := "No query provided"
  /** What `str(e)` gives for the TypeError raised by `None['url']`. */
  const NoThumbnailError := "'NoneType' object is not subscriptable"
  const ShortsSuffix := " shorts"
  const WatchPrefix := "https://www.youtube.com/watch?v="
  const EmbedPrefix := "https://www.youtube.com/embed/"
  /** Thumbnail sizes, most preferred first. */
  const ThumbnailPreference: seq<string> := ["high", "medium", "default"]

  /** One entry of a search item's `thumbnails` dictionary. */
  datatype Thumbnail = Thumbnail(url: string)

  /** The parts of a search result item the endpoint reads. */
  datatype SearchItem = SearchItem(videoId: string, title: string, thumbnails: map<string, Thumbnail>)

  /** The arguments of `youtube.search().list(...)`. */
  datatype SearchRequest = SearchRequest(part: string, maxResults: nat, q: string, kind: string)

  /** What `execute()` gives: the response items, or the message of the exception it raised. */
  datatype ApiResponse = Items(items: seq<SearchItem>) | ApiFailure(message: string)

  /** One entry of the endpoint's JSON list. */
  datatype Candidate = Candidate(videoId: string, title: string, thumbnail: string,
                                 url: string, embedUrl: string)

  /** The endpoint's answer: the candidate list, or `{'error': message}`. */
  datatype SearchReply = Results(candidates: seq<Candidate>) | SearchError(message: string)

  /** `high` if present, else `medium` if present, else `default`; None when none is present. */
  function PickThumbnail(thumbnails: map<string, Thumbnail>): Option<string> {
    if "high" in thumbnails then Some(thumbnails["high"].url)
    else if "medium" in thumbnails then Some(thumbnails["medium"].url)
    else if "default" in thumbnails then Some(thumbnails["default"].url)
    else None
  }

  /** The chosen thumbnail is the present size that comes first in the preference order. */
  lemma PickThumbnailIsMostPreferred(thumbnails: map<string, Thumbnail>, u: string)
    ensures PickThumbnail(thumbnails) == Some(u) <==>
            exists k :: 0 <= k < |ThumbnailPreference|
                        && ThumbnailPreference[k] in thumbnails
                        && thumbnails[ThumbnailPreference[k]].url == u
                        && forall j :: 0 <= j < k ==> ThumbnailPreference[j] !in thumbnails
  {
    assert ThumbnailPreference[0] == "high" && ThumbnailPreference[1] == "medium"
           && ThumbnailPreference[2] == "default";
    if PickThumbnail(thumbnails) != Some(u) {
      forall k | 0 <= k < |ThumbnailPreference| && ThumbnailPreference[k] in thumbnails
                 && thumbnails[ThumbnailPreference[k]].url == u
        ensures exists j :: 0 <= j < k && ThumbnailPreference[j] in thumbnails
      {
        if k == 1 {
          assert ThumbnailPreference[0] in thumbnails;
        } else if k == 2 {
          assert ThumbnailPreference[0] in thumbnails || ThumbnailPreference[1] in thumbnails;
        }
      }
    }
  }

  /** No thumbnail is chosen exactly when none of the three sizes is present. */
  lemma PickThumbnailNone(thumbnails: map<string, Thumbnail>)
    ensures PickThumbnail(thumbnails).None? <==>
            forall k :: 0 <= k < |ThumbnailPreference| ==> ThumbnailPreference[k] !in thumbnails
  {
    if PickThumbnail(thumbnails).None? {
      forall k | 0 <= k < |ThumbnailPreference|
        ensures ThumbnailPreference[k] !in thumbnails
      {
        assert ThumbnailPreference[k] in {"high", "medium", "default"};
      }
    } else {
      assert "high" in thumbnails || "medium" in thumbnails || "default" in thumbnails;
      assert ThumbnailPreference[0] == "high" && ThumbnailPreference[1] == "medium"
             && ThumbnailPreference[2] == "default";
    }
  }

  /** `f"https://www.youtube.com/watch?v={video_id}"` */
  function WatchUrl(videoId: string): string {
    WatchPrefix + videoId
  }

  /** `f"https://www.youtube.com/embed/{video_id}"` */
  function EmbedUrl(videoId: string): string {
    EmbedPrefix + videoId
  }

  /** One item mapped to its candidate; None when its thumbnail lookup raises. */
  function ToCandidate(item: SearchItem): Option<Candidate> {
    match PickThumbnail(item.thumbnails)
    case None => None
    case Some(thumb) =>
      Some(Candidate(item.videoId, item.title, thumb, WatchUrl(item.videoId), EmbedUrl(item.videoId)))
  }

  /**
   * A single item yields a candidate exactly when a thumbnail is chosen for
   * it; the candidate carries the item's id and title, that thumbnail, and
   * the watch and embed URLs of its id.
   */
  lemma ToCandidateFields(item: SearchItem)
    ensures ToCandidate(item).Some? <==> PickThumbnail(item.thumbnails).Some?
    ensures ToCandidate(item).Some? ==>
              var c := ToCandidate(item).value;
              && c.videoId == item.videoId && c.title == item.title
              && Some(c.thumbnail) == PickThumbnail(item.thumbnails)
              && c.url == WatchPrefix + item.videoId
              && c.embedUrl == EmbedPrefix + item.videoId
  {
  }

  /** The per-item loop as a function: the list of candidates, or None if some item has no thumbnail. */
  function ShapeItems(items: seq<SearchItem>): (r: Option<seq<Candidate>>)
    ensures r.Some? <==> forall k :: 0 <= k < |items| ==> ToCandidate(items[k]).Some?
    ensures r.Some? ==> |r.value| == |items|
                        && forall k :: 0 <= k < |items| ==> ToCandidate(items[k]) == Some(r.value[k])
  {
    if items == [] then Some([])
    else match ToCandidate(items[0])
      case None => None
      case Some(c) =>
        match ShapeItems(items[1..])
        case None => None
        case Some(cs) => Some([c] + cs)
  }

  /** The reply for a response from the search API. */
  function ReplyFor(response: ApiResponse): SearchReply {
    match response
    case ApiFailure(message) => SearchError(message)
    case Items(items) =>
      match ShapeItems(items)
      case None => SearchError(NoThumbnailError)
      case Some(cs) => Results(cs)
  }

  /**
   * The endpoint body. `sent` is the request handed to the API, None when
   * a guard answered before any search.
   */
  method SearchVideos(youtube: Option<SearchRequest -> ApiResponse>, query: Option<string>)
    returns (reply: SearchReply, sent: Option<SearchRequest>)
    ensures youtube.None? ==> reply == SearchError(NotConfiguredError) && sent.None?
    ensures youtube.Some? && !Truthy(query) ==> reply == SearchError(NoQueryError) && sent.None?
    ensures youtube.Some? && Truthy(query) ==>
              && sent == Some(SearchRequest("snippet", 5, query.value + ShortsSuffix, "video"))
              && reply == ReplyFor(youtube.value(sent.value))
  {
    if youtube.None? {
      return SearchError(NotConfiguredError), None;
    }
    if !Truthy(query) {
      return SearchError(NoQueryError), None;
    }
    var request := SearchRequest("snippet", 5, query.value + ShortsSuffix, "video");
    sent := Some(request);
    var response := youtube.value(request);
    match response {
      case ApiFailure(message) =>
        reply := SearchError(message);
      case Items(items) =>
        var results: seq<Candidate> := [];
        var k := 0;
        while k < |items|
          invariant 0 <= k <= |items| && |results| == k
          invariant forall j :: 0 <= j < k ==> ToCandidate(items[j]) == Some(results[j])
        {
          var item := items[k];
          var thumb := PickThumbnail(item.thumbnails);
          if thumb.None? {
            reply := SearchError(NoThumbnailError);
            return;
          }
          results := results + [Candidate(item.videoId, item.title, thumb.value,
                                          WatchUrl(item.videoId), EmbedUrl(item.videoId))];
          k := k + 1;
        }
        reply := Results(results);
    }
  }
}
