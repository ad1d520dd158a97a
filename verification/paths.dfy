/** The path builder: the schema expanded into the respondent's block list
    (skipped groups dropped, repeating groups expanded into instances,
    skipped blocks dropped per instance), the routing walk over that list,
    and the full location path with the introduction and closing screens. */
module Paths {
  import opened Outcomes
  import opened Questionnaire
  import opened Rules

  /** One screen of the expanded block list, with its block's routing rules. */
  datatype Entry = Entry(loc: Location, routing: seq<Goto>)

  /** `e` is a screen of a block of group `g`. */
  predicate FromGroup(e: Entry, g: Group) {
    e.loc.groupId == g.id && exists b :: b in g.blocks && b.id == e.loc.blockId && b.routing == e.routing
  }

  function Locs(entries: seq<Entry>): (r: seq<Location>)
    ensures |r| == |entries|
    ensures forall k :: 0 <= k < |entries| ==> r[k] == entries[k].loc
  {
    seq(|entries|, k requires 0 <= k < |entries| => entries[k].loc)
  }

  /** No two entries are screens of the same location. */
  predicate DistinctLocs(entries: seq<Entry>) {
    forall i, j :: 0 <= i < j < |entries| ==> entries[i].loc != entries[j].loc
  }

  /** The screens of instance `gi` of a group: its blocks in order, less the
      blocks whose skip condition holds in that instance. */
  function InstanceEntries(groupId: string, blocks: seq<Block>, gi: nat, store: AnswerStore, md: Metadata): (r: seq<Entry>)
    ensures |r| <= |blocks|
    decreases |blocks|
  {
    if |blocks| == 0 then []
    else
      (if BlockSkipped(blocks[0], store, md, gi) then [] else [Entry(Location(groupId, gi, blocks[0].id), blocks[0].routing)])
      + InstanceEntries(groupId, blocks[1..], gi, store, md)
  }

  /** A block kept in instance `gi`, seen as a screen. */
  predicate KeptScreen(e: Entry, groupId: string, blocks: seq<Block>, gi: nat, store: AnswerStore, md: Metadata) {
    e.loc.groupId == groupId && e.loc.groupInstance == gi
    && exists b :: b in blocks && !BlockSkipped(b, store, md, gi) && b.id == e.loc.blockId && b.routing == e.routing
  }

  /** An instance has exactly one screen per block its skip conditions keep. */
  lemma {:induction false} InstanceEntriesMembers(groupId: string, blocks: seq<Block>, gi: nat, store: AnswerStore, md: Metadata, e: Entry)
    ensures e in InstanceEntries(groupId, blocks, gi, store, md) <==> KeptScreen(e, groupId, blocks, gi, store, md)
    decreases |blocks|
  {
    if |blocks| > 0 {
      InstanceEntriesMembers(groupId, blocks[1..], gi, store, md, e);
      assert forall b :: b in blocks <==> b == blocks[0] || b in blocks[1..];
    }
  }

  /** The screens of instances `0 .. n-1` of a group, instance by instance. */
  function InstancesEntries(groupId: string, blocks: seq<Block>, n: nat, store: AnswerStore, md: Metadata): seq<Entry>
    decreases n
  {
    if n == 0 then []
    else InstancesEntries(groupId, blocks, n - 1, store, md) + InstanceEntries(groupId, blocks, n - 1, store, md)
  }

  /** The screens of the first `n` instances are those of each instance. */
  lemma {:induction false} InstancesEntriesMembers(groupId: string, blocks: seq<Block>, n: nat, store: AnswerStore, md: Metadata, e: Entry)
    ensures e in InstancesEntries(groupId, blocks, n, store, md) <==>
      e.loc.groupInstance < n && KeptScreen(e, groupId, blocks, e.loc.groupInstance, store, md)
    decreases n
  {
    if n > 0 {
      var init := InstancesEntries(groupId, blocks, n - 1, store, md);
      var last := InstanceEntries(groupId, blocks, n - 1, store, md);
      assert e in init + last <==> e in init || e in last;
      InstancesEntriesMembers(groupId, blocks, n - 1, store, md, e);
      InstanceEntriesMembers(groupId, blocks, n - 1, store, md, e);
      if e.loc.groupInstance == n - 1 {
        assert e !in init;
      } else if e.loc.groupInstance < n - 1 {
        assert e !in last;
      }
    }
  }

  /** How many instances a group has: one unless it repeats. Groups do not
      nest, so a repeat rule reads the answers of the first (and only)
      instance of the group that collects them. Only an unknown repeat tag
      makes the count fail. */
  function InstanceCount(g: Group, store: AnswerStore): (r: Result<nat, NavError>)
    ensures g.repeat.None? ==> r == Ok(1)
    ensures r.Err? <==> g.repeat.Some? && ParseRepeatKind(g.repeat.value.tag).Err?
  {
    if g.repeat.None? then Ok(1) else RepeatCount(g.repeat.value, store, 0)
  }

  /** The screens a group contributes: none when its skip condition holds,
      otherwise every instance's screens. */
  function GroupEntries(g: Group, store: AnswerStore, md: Metadata): (r: Result<seq<Entry>, NavError>)
    ensures GroupSkipped(g, store, md) ==> r == Ok([])
    ensures r.Err? <==> !GroupSkipped(g, store, md) && InstanceCount(g, store).Err?
  {
    if GroupSkipped(g, store, md) then Ok([])
    else
      var n :- InstanceCount(g, store);
      Ok(InstancesEntries(g.id, g.blocks, n, store, md))
  }

  /** Every screen of a group is one of its blocks, kept in some instance. */
  lemma GroupEntriesFromGroup(g: Group, store: AnswerStore, md: Metadata, e: Entry)
    requires GroupEntries(g, store, md).Ok? && e in GroupEntries(g, store, md).value
    ensures !GroupSkipped(g, store, md) && FromGroup(e, g)
    ensures KeptScreen(e, g.id, g.blocks, e.loc.groupInstance, store, md)
  {
    InstancesEntriesMembers(g.id, g.blocks, InstanceCount(g, store).value, store, md, e);
  }

  /** The expanded block list of a sequence of groups, in schema order. */
  function Expand(groups: seq<Group>, store: AnswerStore, md: Metadata): (r: Result<seq<Entry>, NavError>)
    decreases |groups|
  {
    if |groups| == 0 then Ok([])
    else
      var first :- GroupEntries(groups[0], store, md);
      var rest :- Expand(groups[1..], store, md);
      Ok(first + rest)
  }

  /** Every screen of the expanded list belongs to a group that was not
      skipped and is one of that group's blocks. */
  lemma {:induction false} ExpandFromGroups(groups: seq<Group>, store: AnswerStore, md: Metadata, e: Entry)
    requires Expand(groups, store, md).Ok? && e in Expand(groups, store, md).value
    ensures exists i :: 0 <= i < |groups| && !GroupSkipped(groups[i], store, md) && FromGroup(e, groups[i])
                        && GroupEntries(groups[i], store, md).Ok? && e in GroupEntries(groups[i], store, md).value
    decreases |groups|
  {
    var first := GroupEntries(groups[0], store, md).value;
    if e in first {
      GroupEntriesFromGroup(groups[0], store, md, e);
    } else {
      ExpandFromGroups(groups[1..], store, md, e);
      var i :| 0 <= i < |groups[1..]| && !GroupSkipped(groups[1..][i], store, md) && FromGroup(e, groups[1..][i])
               && GroupEntries(groups[1..][i], store, md).Ok? && e in GroupEntries(groups[1..][i], store, md).value;
      assert groups[1..][i] == groups[i + 1];
    }
  }

  /** Expansion fails exactly when some group that is not skipped has a
      repeat rule that fails. */
  lemma {:induction false} ExpandFails(groups: seq<Group>, store: AnswerStore, md: Metadata)
    ensures Expand(groups, store, md).Err? <==>
      exists i :: 0 <= i < |groups| && !GroupSkipped(groups[i], store, md) && InstanceCount(groups[i], store).Err?
    decreases |groups|
  {
    if |groups| > 0 {
      ExpandFails(groups[1..], store, md);
      assert forall i :: 1 <= i < |groups| ==> groups[1..][i - 1] == groups[i];
    }
  }

  /** Why a routing walk stopped. */
  datatype Ending =
    | FellOffEnd        // past the last block: the closing screens follow
    | JumpedToSummary   // a rule sent the respondent to the summary
    | AwaitingAnswer    // a block has rules and none holds yet
    | LoopedBack        // a rule sent the respondent to an earlier screen

  datatype Route = Route(path: seq<Location>, ending: Ending)

  /** `_block_index_for_location`: the index of the first entry whose group
      id, group instance and block id all match; StopIteration otherwise. */
  function BlockIndexForLocation(entries: seq<Entry>, loc: Location): (r: Result<nat, NavError>)
    ensures r.Ok? ==> r.value < |entries| && entries[r.value].loc == loc
                      && forall m :: 0 <= m < r.value ==> entries[m].loc != loc
    ensures r.Err? <==> forall k :: 0 <= k < |entries| ==> entries[k].loc != loc
    ensures r.Err? ==> r.error == LocationNotFound(loc)
  {
    IndexFrom(entries, loc, 0)
  }

  function IndexFrom(entries: seq<Entry>, loc: Location, from: nat): (r: Result<nat, NavError>)
    requires from <= |entries|
    ensures r.Ok? ==> from <= r.value < |entries| && entries[r.value].loc == loc
                      && forall m :: from <= m < r.value ==> entries[m].loc != loc
    ensures r.Err? <==> forall k :: from <= k < |entries| ==> entries[k].loc != loc
    ensures r.Err? ==> r.error == LocationNotFound(loc)
    decreases |entries| - from
  {
    if from == |entries| then Err(LocationNotFound(loc))
    else if entries[from].loc == loc then Ok(from)
    else IndexFrom(entries, loc, from + 1)
  }

  /** A location whose group id, or whose block id, no entry has cannot be
      found: a mismatch in either field alone is enough. */
  lemma MismatchIsNotFound(entries: seq<Entry>, loc: Location)
    requires (forall k :: 0 <= k < |entries| ==> entries[k].loc.groupId != loc.groupId)
          || (forall k :: 0 <= k < |entries| ==> entries[k].loc.blockId != loc.blockId)
    ensures BlockIndexForLocation(entries, loc) == Err(LocationNotFound(loc))
  {
  }

  /** The first screen of group `groupId` in the block list. */
  function FirstOfGroup(entries: seq<Entry>, groupId: string, from: nat): (r: Result<nat, NavError>)
    requires from <= |entries|
    ensures r.Ok? ==> from <= r.value < |entries| && entries[r.value].loc.groupId == groupId
                      && forall m :: from <= m < r.value ==> entries[m].loc.groupId != groupId
    ensures r.Err? <==> forall k :: from <= k < |entries| ==> entries[k].loc.groupId != groupId
    ensures r.Err? ==> r.error == GroupNotFound(groupId)
    decreases |entries| - from
  {
    if from == |entries| then Err(GroupNotFound(groupId))
    else if entries[from].loc.groupId == groupId then Ok(from)
    else FirstOfGroup(entries, groupId, from + 1)
  }

  /** The index a routing target names, seen from location `at`: a block of
      the same group instance, or the first screen of a group. */
  function ResolveTarget(entries: seq<Entry>, at: Location, t: Target): (r: Result<nat, NavError>)
    requires !t.ToSummary?
    ensures r.Ok? ==> r.value < |entries|
    ensures r.Ok? && t.ToBlock? ==> entries[r.value].loc == Location(at.groupId, at.groupInstance, t.blockId)
    ensures r.Ok? && t.ToGroup? ==> entries[r.value].loc.groupId == t.groupId
  {
    match t
    case ToBlock(b) => BlockIndexForLocation(entries, Location(at.groupId, at.groupInstance, b))
    case ToGroup(g) => FirstOfGroup(entries, g, 0)
  }

  /** The routing walk from entry `k`: record the screen; a block without
      rules falls through to the next entry; otherwise the first rule that
      holds decides, and when none holds the path ends there. */
  function Walk(entries: seq<Entry>, k: nat, store: AnswerStore, md: Metadata): (r: Result<Route, NavError>)
    ensures r.Ok? && k < |entries| ==> |r.value.path| > 0 && r.value.path[0] == entries[k].loc
    ensures r.Ok? && k >= |entries| ==> r.value == Route([], FellOffEnd)
    decreases |entries| - k
  {
    if k >= |entries| then Ok(Route([], FellOffEnd))
    else
      var e := entries[k];
      if |e.routing| == 0 then
        var rest :- Walk(entries, k + 1, store, md);
        Ok(Route([e.loc] + rest.path, rest.ending))
      else
        match FirstFiring(e.routing, store, md, e.loc.groupInstance)
        case None => Ok(Route([e.loc], AwaitingAnswer))
        case Some(ToSummary) => Ok(Route([e.loc], JumpedToSummary))
        case Some(t) =>
          var j :- ResolveTarget(entries, e.loc, t);
          if j <= k then Ok(Route([e.loc, entries[j].loc], LoopedBack))
          else
            var rest :- Walk(entries, j, store, md);
            Ok(Route([e.loc] + rest.path, rest.ending))
  }

  /** `get_routing_path`: the walk over the whole expanded block list. */
  function RoutingPath(s: Schema, store: AnswerStore, md: Metadata): Result<Route, NavError> {
    var entries :- Expand(s.groups, store, md);
    Walk(entries, 0, store, md)
  }

  /** The introduction screen, in the first group, when the schema has one. */
  function Preamble(s: Schema): (r: seq<Location>)
    ensures |r| <= 1
    ensures |r| == 1 <==> s.hasIntroduction && |s.groups| > 0
    ensures forall l :: l in r ==> |s.groups| > 0 && l == Location(s.groups[0].id, 0, IntroductionId)
  {
    if s.hasIntroduction && |s.groups| > 0 then [Location(s.groups[0].id, 0, IntroductionId)] else []
  }

  /** The closing screens, in the first instance of the last group. */
  function Closing(s: Schema): (r: seq<Location>)
    ensures |r| == (if |s.groups| == 0 then 0 else |s.closing|)
    ensures forall k :: 0 <= k < |r| ==> r[k] == Location(s.groups[|s.groups| - 1].id, 0, s.closing[k])
  {
    if |s.groups| == 0 then []
    else seq(|s.closing|, k requires 0 <= k < |s.closing| => Location(s.groups[|s.groups| - 1].id, 0, s.closing[k]))
  }

  predicate ReachesClosing(e: Ending) {
    e == FellOffEnd || e == JumpedToSummary
  }

  /** `get_location_path`: the introduction, the routing path, and the
      closing screens when the walk reached the end or jumped to the summary. */
  function LocationPath(s: Schema, store: AnswerStore, md: Metadata): Result<seq<Location>, NavError> {
    var route :- RoutingPath(s, store, md);
    Ok(Preamble(s) + route.path + (if ReachesClosing(route.ending) then Closing(s) else []))
  }
}
