/** The workout record shared by the server's JSON database and the client's list. */
module Workouts {
  import opened Wrappers

  /**
   * One workout. `videoSearchUrl` may be empty (no video linked yet) and
   * `thumbnail` may be null.
   */
  datatype Workout = Workout(
    id: string,
    exerciseName: string,
    category: string,
    materialName: string,
    instructions: string,
    videoSearchUrl: string,
    thumbnail: Option<string>)

  /** Position `i` holds the first workout whose id is `id`. */
  predicate IsFirstWithId(ws: seq<Workout>, id: string, i: int) {
    0 <= i < |ws| && ws[i].id == id && forall j :: 0 <= j < i ==> ws[j].id != id
  }

  /** The position of the first workout with id `id`, scanning from the front. */
  function FindById(ws: seq<Workout>, id: string): (r: Option<nat>)
    ensures r.Some? ==> IsFirstWithId(ws, id, r.value)
    ensures r.None? ==> forall j :: 0 <= j < |ws| ==> ws[j].id != id
  {
    if ws == [] then None
    else if ws[0].id == id then Some(0)
    else match FindById(ws[1..], id)
      case None => None
      case Some(k) => Some(k + 1)
  }

  /** Ids are unique within the list. */
  predicate UniqueIds(ws: seq<Workout>) {
    forall i, j :: 0 <= i < j < |ws| ==> ws[i].id != ws[j].id
  }

  /** With unique ids, the first match is the only match. */
  lemma FindByIdUnique(ws: seq<Workout>, j: nat)
    requires UniqueIds(ws) && j < |ws|
    ensures FindById(ws, ws[j].id) == Some(j)
  {
  }

  /** `a` and `b` agree on every field except the linked video and the thumbnail. */
  predicate SameExceptMedia(a: Workout, b: Workout) {
    && a.id == b.id
    && a.exerciseName == b.exerciseName
    && a.category == b.category
    && a.materialName == b.materialName
    && a.instructions == b.instructions
  }
}
