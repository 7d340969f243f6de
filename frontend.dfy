/**
 * The workout list of cleanup_tool/static/script.js: the filter applied on
 * every render, the distinct material options, the query composed for
 * "Find Alternatives", and the local update of the list after a video is
 * selected. DOM controls are parameters (`searchText` is the search box,
 * `material` the selected option of the material filter).
 */
module Frontend {
  import opened Wrappers
  import opened Text
  import opened Workouts
  import opened Backend

  /** The value of the material filter's wildcard option. */
  const AllMaterials := "all"

  // ---------------------------------------------------------------------
  // renderWorkouts: the filter
  // ---------------------------------------------------------------------

  /** The filter predicate: case-insensitive name search and material match. */
  predicate Keeps(w: Workout, searchText: string, material: string) {
    && Contains(Lower(w.exerciseName), Lower(searchText))
    && (material == AllMaterials || w.materialName == material)
  }

  /** `workouts.filter(Keeps)`. */
  function FilterWorkouts(ws: seq<Workout>, searchText: string, material: string): seq<Workout> {
    if ws == [] then []
    else (if Keeps(ws[0], searchText, material) then [ws[0]] else [])
         + FilterWorkouts(ws[1..], searchText, material)
  }

  /** A workout is shown exactly when it is in the list and passes the predicate. */
  lemma {:induction false} FilterMembership(ws: seq<Workout>, searchText: string, material: string, w: Workout)
    ensures w in FilterWorkouts(ws, searchText, material) <==> w in ws && Keeps(w, searchText, material)
  {
    if ws != [] {
      FilterMembership(ws[1..], searchText, material, w);
      assert ws == [ws[0]] + ws[1..];
    }
  }

  /** A kept workout appears as often as in the list; a dropped one not at all. */
  lemma {:induction false} FilterCounts(ws: seq<Workout>, searchText: string, material: string, w: Workout)
    ensures multiset(FilterWorkouts(ws, searchText, material))[w]
            == if Keeps(w, searchText, material) then multiset(ws)[w] else 0
  {
    if ws != [] {
      FilterCounts(ws[1..], searchText, material, w);
      assert ws == [ws[0]] + ws[1..];
    }
  }

  /** `idx` lists, strictly increasing, positions of `ws` that spell out `r`. */
  ghost predicate SelectsPositions(r: seq<Workout>, ws: seq<Workout>, idx: seq<int>) {
    && |idx| == |r|
    && (forall k :: 0 <= k < |idx| ==> 0 <= idx[k] < |ws| && r[k] == ws[idx[k]])
    && (forall k, l :: 0 <= k < l < |idx| ==> idx[k] < idx[l])
  }

  /** Positions selected in `ws[1..]`, shifted by one, are positions selected in `ws`. */
  lemma ShiftPositions(r: seq<Workout>, ws: seq<Workout>, rest: seq<int>) returns (shifted: seq<int>)
    requires ws != [] && SelectsPositions(r, ws[1..], rest)
    ensures SelectsPositions(r, ws, shifted)
    ensures forall k :: 0 <= k < |shifted| ==> 0 < shifted[k]
    ensures forall j :: 0 < j < |ws| ==> (j in shifted <==> j - 1 in rest)
  {
    shifted := seq(|rest|, k requires 0 <= k < |rest| => rest[k] + 1);
    forall j | 0 < j < |ws| && j - 1 in rest
      ensures j in shifted
    {
      var k :| 0 <= k < |rest| && rest[k] == j - 1;
      assert shifted[k] == j;
    }
  }

  /** Prepending the head at position 0 to a selection of later positions. */
  lemma PrependHead(r: seq<Workout>, ws: seq<Workout>, shifted: seq<int>)
    requires ws != [] && SelectsPositions(r, ws, shifted)
    requires forall k :: 0 <= k < |shifted| ==> 0 < shifted[k]
    ensures SelectsPositions([ws[0]] + r, ws, [0] + shifted)
  {
  }

  /**
   * The filtered list is the order-preserving subsequence of `ws` made of
   * exactly the positions whose workout passes the predicate.
   */
  lemma {:induction false} FilterIsOrderedSelection(ws: seq<Workout>, searchText: string, material: string)
    returns (idx: seq<int>)
    ensures SelectsPositions(FilterWorkouts(ws, searchText, material), ws, idx)
    ensures forall j :: 0 <= j < |ws| ==> (j in idx <==> Keeps(ws[j], searchText, material))
  {
    if ws == [] {
      idx := [];
    } else {
      var tail := FilterWorkouts(ws[1..], searchText, material);
      var rest := FilterIsOrderedSelection(ws[1..], searchText, material);
      var shifted := ShiftPositions(tail, ws, rest);
      assert forall j :: 0 < j < |ws| ==> ws[j] == ws[1..][j - 1];
      if Keeps(ws[0], searchText, material) {
        PrependHead(tail, ws, shifted);
        idx := [0] + shifted;
      } else {
        idx := shifted;
      }
    }
  }

  /** An empty search with the wildcard material keeps every workout, in order. */
  lemma {:induction false} FilterKeepsAllByDefault(ws: seq<Workout>)
    ensures FilterWorkouts(ws, "", AllMaterials) == ws
  {
    if ws != [] {
      ContainsEmpty(Lower(ws[0].exerciseName));
      assert Lower("") == "";
      FilterKeepsAllByDefault(ws[1..]);
    }
  }

  /**
   * The list `renderWorkouts` appends: the filtered list itself, or, with
   * "missing only" ticked, some reordering of it (the comparator passed to
   * `sort` is inconsistent, so no order is promised).
   */
  ghost predicate MayDisplay(ws: seq<Workout>, searchText: string, material: string,
                             missingOnly: bool, shown: seq<Workout>)
  {
    var filtered := FilterWorkouts(ws, searchText, material);
    if missingOnly then multiset(shown) == multiset(filtered) else shown == filtered
  }

  /** Whatever order is displayed, the displayed workouts are exactly the kept ones. */
  lemma DisplayedAreExactlyKept(ws: seq<Workout>, searchText: string, material: string,
                                missingOnly: bool, shown: seq<Workout>, w: Workout)
    requires MayDisplay(ws, searchText, material, missingOnly, shown)
    ensures w in shown <==> w in ws && Keeps(w, searchText, material)
  {
    FilterMembership(ws, searchText, material, w);
    var filtered := FilterWorkouts(ws, searchText, material);
    assert (w in shown <==> w in multiset(shown)) && (w in filtered <==> w in multiset(filtered));
  }

  // ---------------------------------------------------------------------
  // populateFilterOptions: distinct materials
  // ---------------------------------------------------------------------

  /** `workouts.map(w => w.material_name)`. */
  function Materials(ws: seq<Workout>): seq<string> {
    seq(|ws|, i requires 0 <= i < |ws| => ws[i].materialName)
  }

  /** The position of the first occurrence of `x` in `s`. */
  function FirstIndex(s: seq<string>, x: string): (r: nat)
    requires x in s
    ensures r < |s| && s[r] == x && x !in s[..r]
  {
    if s[0] == x then 0
    else
      var r := 1 + FirstIndex(s[1..], x);
      assert s[..r] == [s[0]] + s[1..][..r - 1];
      r
  }

  /**
   * The options appended to the material filter: the materials in the
   * insertion order of the JavaScript `Set` built from them, so each
   * distinct material once, ordered by its first occurrence.
   */
  method DistinctMaterials(ws: seq<Workout>) returns (mats: seq<string>)
    ensures forall m :: m in mats <==> m in Materials(ws)
    ensures forall i, j :: 0 <= i < j < |mats| ==> mats[i] != mats[j]
    ensures forall i, j :: 0 <= i < j < |mats| ==>
              FirstIndex(Materials(ws), mats[i]) < FirstIndex(Materials(ws), mats[j])
  {
    var names := Materials(ws);
    mats := [];
    var k := 0;
    while k < |names|
      invariant 0 <= k <= |names|
      invariant forall m :: m in mats <==> m in names[..k]
      invariant forall i, j :: 0 <= i < j < |mats| ==> mats[i] != mats[j]
      invariant forall i :: 0 <= i < |mats| ==> mats[i] in names && FirstIndex(names, mats[i]) < k
      invariant forall i, j :: 0 <= i < j < |mats| ==>
                  FirstIndex(names, mats[i]) < FirstIndex(names, mats[j])
    {
      assert names[..k + 1] == names[..k] + [names[k]];
      if names[k] !in mats {
        mats := mats + [names[k]];
      }
      k := k + 1;
    }
    assert names[..k] == names;
  }

  // ---------------------------------------------------------------------
  // searchAlternatives: the composed query
  // ---------------------------------------------------------------------

  /**
   * `${query} ${workout.material_name}` for the first workout with the id;
   * None where `find` returns undefined and reading its material throws.
   */
  function ComposeQuery(ws: seq<Workout>, query: string, id: string): (r: Option<string>)
    ensures r.None? <==> forall j :: 0 <= j < |ws| ==> ws[j].id != id
    ensures r.Some? ==> exists i :: IsFirstWithId(ws, id, i) && r.value == query + " " + ws[i].materialName
  {
    match FindById(ws, id)
    case None => None
    case Some(i) => Some(query + " " + ws[i].materialName)
  }

  // ---------------------------------------------------------------------
  // selectVideo: local update after the update call
  // ---------------------------------------------------------------------

  /**
   * Sets the linked video and the thumbnail of the first workout with the
   * id. Without a match, the assignment to undefined throws before
   * anything is written.
   */
  function SetLocalVideo(ws: seq<Workout>, id: string, videoUrl: string, thumbUrl: string): (r: seq<Workout>)
    ensures |r| == |ws|
    ensures (forall j :: 0 <= j < |ws| ==> ws[j].id != id) ==> r == ws
    ensures forall i :: IsFirstWithId(ws, id, i) ==>
              && r[i].videoSearchUrl == videoUrl
              && r[i].thumbnail == Some(thumbUrl)
              && SameExceptMedia(ws[i], r[i])
              && forall j :: 0 <= j < |ws| && j != i ==> r[j] == ws[j]
  {
    match FindById(ws, id)
    case None => ws
    case Some(i) => ws[i := ws[i].(videoSearchUrl := videoUrl, thumbnail := Some(thumbUrl))]
  }

  /** How the update call ended: a parsed JSON reply, or a rejected fetch. */
  datatype UpdateOutcome = Replied(reply: UpdateReply) | FetchRejected

  /** The local update as the source writes it: run on every parsed reply, error replies included. */
  function ReconcileAsWritten(ws: seq<Workout>, id: string, videoUrl: string, thumbUrl: string,
                              outcome: UpdateOutcome): seq<Workout>
  {
    match outcome
    case FetchRejected => ws
    case Replied(_) => SetLocalVideo(ws, id, videoUrl, thumbUrl)
  }

  /**
   * The as-written local update changes the list although the server
   * reported an error and saved nothing: for a workout whose id is empty
   * (the server calls it missing) and for a list that is stale (the server
   * no longer has the workout).
   */
  lemma AsWrittenUpdatesOnErrorReply()
    ensures var w := Workout("", "Push Up", "Strength", "Mat", "", "", None);
            var e := UpdateSpec([w], Some(""), Some(EmbedUrl("abc")), Some("t.jpg"));
            && e == UpdateEffect(MissingWorkoutId, None)
            && ReconcileAsWritten([w], "", EmbedUrl("abc"), "t.jpg", Replied(e.reply)) != [w]
    ensures var w := Workout("7", "Squat", "Strength", "None", "", "", None);
            var e := UpdateSpec([], Some("7"), Some(EmbedUrl("abc")), Some("t.jpg"));
            && e == UpdateEffect(WorkoutNotFound, None)
            && ReconcileAsWritten([w], "7", EmbedUrl("abc"), "t.jpg", Replied(e.reply)) != [w]
  {
  }

  /**
   * The local update gated on a successful reply, so the list changes only
   * when the server saved: an `{'error': ...}` body or a rejected fetch
   * leaves it as it was.
   */
  function Reconcile(ws: seq<Workout>, id: string, videoUrl: string, thumbUrl: string,
                     outcome: UpdateOutcome): (r: seq<Workout>)
    ensures outcome.FetchRejected? || outcome.reply.Body().ErrorBody? ==> r == ws
    ensures outcome == Replied(Updated) ==> r == SetLocalVideo(ws, id, videoUrl, thumbUrl)
  {
    if outcome == Replied(Updated) then SetLocalVideo(ws, id, videoUrl, thumbUrl) else ws
  }

  /**
   * When the client's list is the database the server loaded, the list
   * after a reconciled update is exactly what the server saved (or the old
   * list when it saved nothing). The client always sends the non-empty
   * embed URL and thumbnail of a search candidate.
   */
  lemma ReconcileMirrorsServer(db: seq<Workout>, id: string, videoUrl: string, thumbUrl: string)
    requires videoUrl != "" && thumbUrl != ""
    ensures var e := UpdateSpec(db, Some(id), Some(videoUrl), Some(thumbUrl));
            Reconcile(db, id, videoUrl, thumbUrl, Replied(e.reply)) == e.saved.GetOr(db)
  {
  }

  /** The client's list of workouts, replaced on load and updated after a selection. */
  class WorkoutStore {
    var workouts: seq<Workout>

    /** `let workouts = [];` */
    constructor ()
      ensures workouts == []
    {
      workouts := [];
    }

    /** The fetched list becomes the store. */
    method Load(data: seq<Workout>)
      modifies this
      ensures workouts == data
    {
      workouts := data;
    }

    /** The handler of the update reply, with the local write gated on success. */
    method SelectVideo(workoutId: string, videoUrl: string, thumbUrl: string, outcome: UpdateOutcome)
      modifies this
      ensures workouts == Reconcile(old(workouts), workoutId, videoUrl, thumbUrl, outcome)
      ensures |workouts| == |old(workouts)|
    {
      if outcome == Replied(Updated) {
        match FindById(workouts, workoutId) {
          case None =>
          case Some(i) =>
            workouts := workouts[i := workouts[i].(videoSearchUrl := videoUrl, thumbnail := Some(thumbUrl))];
        }
      }
    }
  }
}
