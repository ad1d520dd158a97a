/** The navigator's primary API: next and previous locations, as the
    neighbours of a location in the location path. */
module Navigator {
  import opened Outcomes
  import opened Questionnaire
  import opened Paths

  /** `path.index(loc)`: the position of the first occurrence of `loc`. */
  function IndexOf(path: seq<Location>, loc: Location): (r: Option<nat>)
    ensures r.None? <==> loc !in path
    ensures r.Some? ==> r.value < |path| && path[r.value] == loc && loc !in path[..r.value]
    decreases |path|
  {
    if |path| == 0 then None
    else if path[0] == loc then Some(0)
    else
      match IndexOf(path[1..], loc)
      case None => None
      case Some(i) =>
        assert path[..i + 1] == [path[0]] + path[1..][..i];
        Some(i + 1)
  }

  /** The location after `loc` in `path`; None after the last one, and an
      error when `loc` is not on the path. */
  function NextLocation(path: seq<Location>, loc: Location): (r: Result<Option<Location>, NavError>)
    ensures r.Err? <==> loc !in path
    ensures r.Err? ==> r.error == LocationNotFound(loc)
  {
    match IndexOf(path, loc)
    case None => Err(LocationNotFound(loc))
    case Some(i) => Ok(if i + 1 < |path| then Some(path[i + 1]) else None)
  }

  /** The location before `loc` in `path`; None before the first one, and an
      error when `loc` is not on the path. */
  function PreviousLocation(path: seq<Location>, loc: Location): (r: Result<Option<Location>, NavError>)
    ensures r.Err? <==> loc !in path
    ensures r.Err? ==> r.error == LocationNotFound(loc)
    ensures |path| > 0 ==> (r == Ok(None) <==> loc == path[0])
  {
    match IndexOf(path, loc)
    case None => Err(LocationNotFound(loc))
    case Some(i) => Ok(if i > 0 then Some(path[i - 1]) else None)
  }

  /** On a path without repeats, every position is where its location is
      found. */
  lemma IndexOfDistinct(path: seq<Location>, i: nat)
    requires NoDup(path) && i < |path|
    ensures IndexOf(path, path[i]) == Some(i)
  {
    var j := IndexOf(path, path[i]).value;
    assert path[j] == path[i];
  }

  /** On a path without repeats, next and previous are the neighbours: the
      next of the i-th location is the (i+1)-th and the previous of the
      (i+1)-th is the i-th. */
  lemma NextAndPreviousAreNeighbours(path: seq<Location>, i: nat)
    requires NoDup(path) && i + 1 < |path|
    ensures NextLocation(path, path[i]) == Ok(Some(path[i + 1]))
    ensures PreviousLocation(path, path[i + 1]) == Ok(Some(path[i]))
  {
    IndexOfDistinct(path, i);
    IndexOfDistinct(path, i + 1);
  }

  /** The ends of a path without repeats: nothing after the last location. */
  lemma LastHasNoNext(path: seq<Location>)
    requires NoDup(path) && |path| > 0
    ensures NextLocation(path, path[|path| - 1]) == Ok(None)
  {
    IndexOfDistinct(path, |path| - 1);
  }

  /** Going forward and then back returns to the same location, and going
      back and then forward does too. */
  lemma ForwardThenBack(path: seq<Location>, loc: Location, other: Location)
    requires NoDup(path)
    ensures NextLocation(path, loc) == Ok(Some(other)) ==> PreviousLocation(path, other) == Ok(Some(loc))
    ensures PreviousLocation(path, loc) == Ok(Some(other)) ==> NextLocation(path, other) == Ok(Some(loc))
  {
    if NextLocation(path, loc) == Ok(Some(other)) {
      var i := IndexOf(path, loc).value;
      NextAndPreviousAreNeighbours(path, i);
    }
    if PreviousLocation(path, loc) == Ok(Some(other)) {
      var i := IndexOf(path, loc).value;
      NextAndPreviousAreNeighbours(path, i - 1);
    }
  }

  /** On a path without repeats, `loc` is found where it stands. */
  lemma FoundWhereItStands(path: seq<Location>, loc: Location)
    requires NoDup(path)
    ensures forall i :: 0 <= i < |path| && path[i] == loc ==> IndexOf(path, loc) == Some(i)
  {
    forall i | 0 <= i < |path| && path[i] == loc
      ensures IndexOf(path, loc) == Some(i)
    {
      IndexOfDistinct(path, i);
    }
  }

  /** `get_next_location`: the next screen on the respondent's location path.
      A path that cannot be computed passes its error on, a location off the
      path is not found, and on a path without repeats the screen after the
      i-th is the (i+1)-th, with none after the last. */
  function GetNextLocation(s: Schema, store: AnswerStore, md: Metadata, loc: Location): (r: Result<Option<Location>, NavError>)
    ensures LocationPath(s, store, md).Err? ==> r == Err(LocationPath(s, store, md).error)
    ensures r.Ok? ==> LocationPath(s, store, md).Ok? && loc in LocationPath(s, store, md).value
    ensures LocationPath(s, store, md).Ok? && loc !in LocationPath(s, store, md).value ==> r == Err(LocationNotFound(loc))
    ensures LocationPath(s, store, md).Ok? && NoDup(LocationPath(s, store, md).value) ==>
      var path := LocationPath(s, store, md).value;
      forall i :: 0 <= i < |path| && path[i] == loc ==> r == Ok(if i + 1 < |path| then Some(path[i + 1]) else None)
  {
    match LocationPath(s, store, md)
    case Err(e) => Err(e)
    case Ok(path) =>
      if NoDup(path) then FoundWhereItStands(path, loc); NextLocation(path, loc)
      else NextLocation(path, loc)
  }

  /** `get_previous_location`: the previous screen on the location path. A
      path that cannot be computed passes its error on, a location off the
      path is not found, and on a path without repeats the screen before the
      i-th is the (i-1)-th, with none before the first. */
  function GetPreviousLocation(s: Schema, store: AnswerStore, md: Metadata, loc: Location): (r: Result<Option<Location>, NavError>)
    ensures LocationPath(s, store, md).Err? ==> r == Err(LocationPath(s, store, md).error)
    ensures r.Ok? ==> LocationPath(s, store, md).Ok? && loc in LocationPath(s, store, md).value
    ensures LocationPath(s, store, md).Ok? && loc !in LocationPath(s, store, md).value ==> r == Err(LocationNotFound(loc))
    ensures LocationPath(s, store, md).Ok? && NoDup(LocationPath(s, store, md).value) ==>
      var path := LocationPath(s, store, md).value;
      forall i :: 0 <= i < |path| && path[i] == loc ==> r == Ok(if i > 0 then Some(path[i - 1]) else None)
  {
    match LocationPath(s, store, md)
    case Err(e) => Err(e)
    case Ok(path) =>
      if NoDup(path) then FoundWhereItStands(path, loc); PreviousLocation(path, loc)
      else PreviousLocation(path, loc)
  }
}
