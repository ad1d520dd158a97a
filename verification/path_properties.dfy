/** What the location path guarantees for a well-formed schema: no screen
    appears twice, so next and previous are inverse neighbours; a skipped
    group contributes no screens; a schema without routing rules is walked in
    order; and a repeating group lays its instances out one after another. */
module PathProperties {
  import opened Outcomes
  import opened Questionnaire
  import opened Rules
  import opened Paths
  import opened Navigator

  /** The part of well-formedness that expansion relies on. */
  predicate GroupsWellFormed(groups: seq<Group>) {
    UniqueGroupIds(groups) && forall g :: g in groups ==> UniqueBlockIds(g.blocks)
  }

  /** `l` is the location of an entry at index `from` or later. */
  predicate LocFrom(entries: seq<Entry>, l: Location, from: nat) {
    exists i :: from <= i < |entries| && entries[i].loc == l
  }

  /** No screen of `a` is a screen of `b`. */
  predicate Apart(a: seq<Entry>, b: seq<Entry>) {
    forall x, y :: x in a && y in b ==> x.loc != y.loc
  }

  lemma DistinctLocsConcat(a: seq<Entry>, b: seq<Entry>)
    requires DistinctLocs(a) && DistinctLocs(b) && Apart(a, b)
    ensures DistinctLocs(a + b)
  {
    forall i, j | 0 <= i < j < |a + b|
      ensures (a + b)[i].loc != (a + b)[j].loc
    {
      if j < |a| {
        assert (a + b)[i] == a[i] && (a + b)[j] == a[j];
      } else if i >= |a| {
        assert (a + b)[i] == b[i - |a|] && (a + b)[j] == b[j - |a|];
      } else {
        assert (a + b)[i] in a && (a + b)[j] in b;
      }
    }
  }

  lemma NoDupConcat<T>(a: seq<T>, b: seq<T>)
    requires NoDup(a) && NoDup(b)
    requires forall x :: x in a ==> x !in b
    ensures NoDup(a + b)
  {
    forall i, j | 0 <= i < j < |a + b|
      ensures (a + b)[i] != (a + b)[j]
    {
      if j < |a| {
        assert (a + b)[i] == a[i] && (a + b)[j] == a[j];
      } else if i >= |a| {
        assert (a + b)[i] == b[i - |a|] && (a + b)[j] == b[j - |a|];
      } else {
        assert (a + b)[i] in a && (a + b)[j] in b;
      }
    }
  }

  /** Within one instance, the kept blocks give distinct screens. */
  lemma {:induction false} InstanceEntriesDistinct(groupId: string, blocks: seq<Block>, gi: nat, store: AnswerStore, md: Metadata)
    requires UniqueBlockIds(blocks)
    ensures DistinctLocs(InstanceEntries(groupId, blocks, gi, store, md))
    decreases |blocks|
  {
    if |blocks| > 0 {
      var head := if BlockSkipped(blocks[0], store, md, gi) then [] else [Entry(Location(groupId, gi, blocks[0].id), blocks[0].routing)];
      var tail := InstanceEntries(groupId, blocks[1..], gi, store, md);
      assert UniqueBlockIds(blocks[1..]) by {
        forall i, j | 0 <= i < j < |blocks[1..]|
          ensures blocks[1..][i].id != blocks[1..][j].id
        {
          assert blocks[1..][i] == blocks[i + 1] && blocks[1..][j] == blocks[j + 1];
        }
      }
      InstanceEntriesDistinct(groupId, blocks[1..], gi, store, md);
      forall x, y | x in head && y in tail
        ensures x.loc != y.loc
      {
        InstanceEntriesMembers(groupId, blocks[1..], gi, store, md, y);
        var b :| b in blocks[1..] && !BlockSkipped(b, store, md, gi) && b.id == y.loc.blockId && b.routing == y.routing;
        var p :| 0 <= p < |blocks[1..]| && blocks[1..][p] == b;
        assert blocks[p + 1] == b;
      }
      DistinctLocsConcat(head, tail);
    }
  }

  /** Across instances, screens differ by their instance number. */
  lemma {:induction false} InstancesEntriesDistinct(groupId: string, blocks: seq<Block>, n: nat, store: AnswerStore, md: Metadata)
    requires UniqueBlockIds(blocks)
    ensures DistinctLocs(InstancesEntries(groupId, blocks, n, store, md))
    decreases n
  {
    if n > 0 {
      InstancesEntriesDistinct(groupId, blocks, n - 1, store, md);
      NextInstanceDistinct(groupId, blocks, n, store, md);
    }
  }

  /** One more instance keeps the screens distinct. */
  lemma NextInstanceDistinct(groupId: string, blocks: seq<Block>, n: nat, store: AnswerStore, md: Metadata)
    requires n > 0 && UniqueBlockIds(blocks)
    requires DistinctLocs(InstancesEntries(groupId, blocks, n - 1, store, md))
    ensures DistinctLocs(InstancesEntries(groupId, blocks, n, store, md))
  {
    var init := InstancesEntries(groupId, blocks, n - 1, store, md);
    var last := InstanceEntries(groupId, blocks, n - 1, store, md);
    InstanceEntriesDistinct(groupId, blocks, n - 1, store, md);
    EarlierInstancesDiffer(groupId, blocks, n - 1, store, md);
    DistinctLocsConcat(init, last);
  }

  /** No screen of instances `0 .. n-1` is a screen of instance `n`. */
  lemma EarlierInstancesDiffer(groupId: string, blocks: seq<Block>, n: nat, store: AnswerStore, md: Metadata)
    ensures Apart(InstancesEntries(groupId, blocks, n, store, md), InstanceEntries(groupId, blocks, n, store, md))
  {
    forall x, y | x in InstancesEntries(groupId, blocks, n, store, md) && y in InstanceEntries(groupId, blocks, n, store, md)
      ensures x.loc.groupInstance != y.loc.groupInstance
    {
      InstancesEntriesMembers(groupId, blocks, n, store, md, x);
      InstanceEntriesMembers(groupId, blocks, n, store, md, y);
    }
  }

  /** The expanded block list of well-formed groups has no screen twice. */
  lemma {:induction false} ExpandDistinct(groups: seq<Group>, store: AnswerStore, md: Metadata)
    requires GroupsWellFormed(groups)
    ensures Expand(groups, store, md).Ok? ==> DistinctLocs(Expand(groups, store, md).value)
    decreases |groups|
  {
    if |groups| > 0 && Expand(groups, store, md).Ok? {
      var g := groups[0];
      var first := GroupEntries(g, store, md).value;
      var rest := Expand(groups[1..], store, md).value;
      assert GroupsWellFormed(groups[1..]) by {
        forall i, j | 0 <= i < j < |groups[1..]|
          ensures groups[1..][i].id != groups[1..][j].id
        {
          assert groups[1..][i] == groups[i + 1] && groups[1..][j] == groups[j + 1];
        }
      }
      ExpandDistinct(groups[1..], store, md);
      if !GroupSkipped(g, store, md) {
        InstancesEntriesDistinct(g.id, g.blocks, InstanceCount(g, store).value, store, md);
      }
      forall x, y | x in first && y in rest
        ensures x.loc != y.loc
      {
        GroupEntriesFromGroup(g, store, md, x);
        ExpandFromGroups(groups[1..], store, md, y);
        var i :| 0 <= i < |groups[1..]| && !GroupSkipped(groups[1..][i], store, md) && FromGroup(y, groups[1..][i])
                 && GroupEntries(groups[1..][i], store, md).Ok? && y in GroupEntries(groups[1..][i], store, md).value;
        assert groups[1..][i] == groups[i + 1];
      }
      DistinctLocsConcat(first, rest);
    }
  }

  lemma NoDupCons<T>(x: T, s: seq<T>)
    requires NoDup(s) && x !in s
    ensures NoDup([x] + s)
  {
    NoDupConcat([x], s);
  }

  // How the walk routes from one screen: the partners of `Walk`, one per
  // branch a routed block can take.

  /** A block without routing rules falls through to the next screen. */
  lemma WalkFallThrough(entries: seq<Entry>, k: nat, store: AnswerStore, md: Metadata, rest: Route)
    requires k < |entries| && |entries[k].routing| == 0
    requires Walk(entries, k + 1, store, md) == Ok(rest)
    ensures Walk(entries, k, store, md) == Ok(Route([entries[k].loc] + rest.path, rest.ending))
  {
  }

  /** The first rule that holds sends the walk forward to its target, which
      continues from there. */
  lemma WalkJump(entries: seq<Entry>, k: nat, store: AnswerStore, md: Metadata, t: Target, j: nat, rest: Route)
    requires k < |entries| && |entries[k].routing| > 0
    requires FirstFiring(entries[k].routing, store, md, entries[k].loc.groupInstance) == Some(t) && !t.ToSummary?
    requires ResolveTarget(entries, entries[k].loc, t) == Ok(j) && k < j
    requires Walk(entries, j, store, md) == Ok(rest)
    ensures Walk(entries, k, store, md) == Ok(Route([entries[k].loc] + rest.path, rest.ending))
  {
  }

  /** A rule that holds and targets the summary ends the walk, which then
      reaches the closing screens. */
  lemma WalkToSummary(entries: seq<Entry>, k: nat, store: AnswerStore, md: Metadata)
    requires k < |entries| && |entries[k].routing| > 0
    requires FirstFiring(entries[k].routing, store, md, entries[k].loc.groupInstance) == Some(ToSummary)
    ensures Walk(entries, k, store, md) == Ok(Route([entries[k].loc], JumpedToSummary))
  {
  }

  /** A block with rules of which none holds ends the walk there: the path
      waits for the answer that would route it. */
  lemma WalkWaits(entries: seq<Entry>, k: nat, store: AnswerStore, md: Metadata)
    requires k < |entries| && |entries[k].routing| > 0
    requires FirstFiring(entries[k].routing, store, md, entries[k].loc.groupInstance).None?
    ensures Walk(entries, k, store, md) == Ok(Route([entries[k].loc], AwaitingAnswer))
  {
  }

  /** A rule that holds and targets an earlier screen (or the same one)
      records that screen and stops: the walk has looped back. */
  lemma WalkLoopsBack(entries: seq<Entry>, k: nat, store: AnswerStore, md: Metadata, t: Target, j: nat)
    requires k < |entries| && |entries[k].routing| > 0
    requires FirstFiring(entries[k].routing, store, md, entries[k].loc.groupInstance) == Some(t) && !t.ToSummary?
    requires ResolveTarget(entries, entries[k].loc, t) == Ok(j) && j <= k
    ensures Walk(entries, k, store, md) == Ok(Route([entries[k].loc, entries[j].loc], LoopedBack))
  {
  }

  /** A rule whose target is not in the expanded list makes the walk fail
      with the target's error. */
  lemma WalkTargetMissing(entries: seq<Entry>, k: nat, store: AnswerStore, md: Metadata, t: Target)
    requires k < |entries| && |entries[k].routing| > 0
    requires FirstFiring(entries[k].routing, store, md, entries[k].loc.groupInstance) == Some(t) && !t.ToSummary?
    requires ResolveTarget(entries, entries[k].loc, t).Err?
    ensures Walk(entries, k, store, md) == Err(ResolveTarget(entries, entries[k].loc, t).error)
  {
  }

  /** One step of the walk from entry `k`: either it records the entry and
      continues from a later entry `next`, or it stops, having recorded the
      entry and, when it looped back, the earlier entry it jumped to. */
  lemma WalkStep(entries: seq<Entry>, k: nat, store: AnswerStore, md: Metadata) returns (next: nat, stepped: bool)
    requires k < |entries| && Walk(entries, k, store, md).Ok?
    ensures stepped ==> k < next && Walk(entries, next, store, md).Ok?
    ensures stepped ==> Walk(entries, k, store, md).value
                        == Route([entries[k].loc] + Walk(entries, next, store, md).value.path, Walk(entries, next, store, md).value.ending)
    ensures !stepped && Walk(entries, k, store, md).value.ending != LoopedBack ==>
              Walk(entries, k, store, md).value.path == [entries[k].loc]
    ensures !stepped ==> forall l :: l in Walk(entries, k, store, md).value.path ==> LocFrom(entries, l, 0)
  {
    var e := entries[k];
    next, stepped := k + 1, false;
    if |e.routing| == 0 {
      stepped := true;
    } else {
      var f := FirstFiring(e.routing, store, md, e.loc.groupInstance);
      if f.Some? && !f.value.ToSummary? {
        var j := ResolveTarget(entries, e.loc, f.value).value;
        if j > k {
          next, stepped := j, true;
        } else {
          assert Walk(entries, k, store, md).value.path == [e.loc, entries[j].loc];
          assert LocFrom(entries, entries[j].loc, 0);
        }
      }
    }
    assert LocFrom(entries, e.loc, 0);
  }

  /** Every screen of a walk from entry `k` is the screen of an entry. Unless
      the walk looped back, each is an entry at `k` or later, and over a block
      list without repeated screens no screen appears twice. */
  lemma {:induction false} WalkShape(entries: seq<Entry>, k: nat, store: AnswerStore, md: Metadata)
    requires Walk(entries, k, store, md).Ok?
    ensures forall l :: l in Walk(entries, k, store, md).value.path ==> LocFrom(entries, l, 0)
    ensures Walk(entries, k, store, md).value.ending != LoopedBack ==>
      forall l :: l in Walk(entries, k, store, md).value.path ==> LocFrom(entries, l, k)
    ensures Walk(entries, k, store, md).value.ending != LoopedBack && DistinctLocs(entries) ==>
      NoDup(Walk(entries, k, store, md).value.path)
    decreases |entries| - k
  {
    if k < |entries| {
      var e := entries[k];
      var route := Walk(entries, k, store, md).value;
      var next, stepped := WalkStep(entries, k, store, md);
      assert LocFrom(entries, e.loc, k);
      if stepped {
        var rest := Walk(entries, next, store, md).value;
        WalkShape(entries, next, store, md);
        assert forall l :: l in route.path ==> l == e.loc || l in rest.path;
        if route.ending != LoopedBack && DistinctLocs(entries) {
          forall l | l in rest.path
            ensures l != e.loc
          {
            var i :| next <= i < |entries| && entries[i].loc == l;
          }
          NoDupCons(e.loc, rest.path);
        }
      }
    }
  }

  /** No screen of the walk is the introduction or a closing screen. */
  lemma RouteAvoidsFixedScreens(s: Schema, store: AnswerStore, md: Metadata, entries: seq<Entry>, l: Location)
    requires WellFormed(s)
    requires Expand(s.groups, store, md) == Ok(entries)
    requires LocFrom(entries, l, 0)
    ensures l.blockId != IntroductionId && l.blockId !in s.closing
  {
    var i :| 0 <= i < |entries| && entries[i].loc == l;
    ExpandFromGroups(s.groups, store, md, entries[i]);
    var p :| 0 <= p < |s.groups| && !GroupSkipped(s.groups[p], store, md) && FromGroup(entries[i], s.groups[p])
             && GroupEntries(s.groups[p], store, md).Ok? && entries[i] in GroupEntries(s.groups[p], store, md).value;
    assert GroupWellFormed(s.groups[p], s.closing);
  }

  /** The introduction is on the location path exactly when the schema has
      one (and a group to put it in), and then it is the first screen. */
  lemma IntroductionOnPathExactly(s: Schema, store: AnswerStore, md: Metadata)
    requires WellFormed(s) && LocationPath(s, store, md).Ok?
    ensures (exists l :: l in LocationPath(s, store, md).value && l.blockId == IntroductionId)
            <==> s.hasIntroduction && |s.groups| > 0
    ensures s.hasIntroduction && |s.groups| > 0 ==>
            LocationPath(s, store, md).value[0] == Location(s.groups[0].id, 0, IntroductionId)
  {
    var entries := Expand(s.groups, store, md).value;
    var route := Walk(entries, 0, store, md).value;
    WalkShape(entries, 0, store, md);
    var pre := Preamble(s);
    var post := if ReachesClosing(route.ending) then Closing(s) else [];
    var path := LocationPath(s, store, md).value;
    assert path == pre + route.path + post;
    if s.hasIntroduction && |s.groups| > 0 {
      assert path[0] == pre[0];
      assert path[0] in path;
    } else {
      assert pre == [];
      forall l | l in path
        ensures l.blockId != IntroductionId
      {
        if l in route.path {
          RouteAvoidsFixedScreens(s, store, md, entries, l);
        } else {
          assert l in post;
        }
      }
    }
  }

  /** For a well-formed schema whose walk did not loop back, the location
      path never repeats a screen. */
  lemma LocationPathNoDup(s: Schema, store: AnswerStore, md: Metadata)
    requires WellFormed(s)
    requires RoutingPath(s, store, md).Ok? && RoutingPath(s, store, md).value.ending != LoopedBack
    ensures LocationPath(s, store, md).Ok? && NoDup(LocationPath(s, store, md).value)
  {
    var entries := Expand(s.groups, store, md).value;
    var route := Walk(entries, 0, store, md).value;
    ExpandDistinct(s.groups, store, md);
    WalkShape(entries, 0, store, md);
    var pre := Preamble(s);
    var post := if ReachesClosing(route.ending) then Closing(s) else [];
    forall l | l in route.path
      ensures l.blockId != IntroductionId && l.blockId !in s.closing
    {
      RouteAvoidsFixedScreens(s, store, md, entries, l);
    }
    assert NoDup(post) by {
      forall i, j | 0 <= i < j < |post|
        ensures post[i] != post[j]
      {
        assert post[i].blockId == s.closing[i] && post[j].blockId == s.closing[j];
      }
    }
    assert forall l :: l in post ==> l.blockId in s.closing;
    NoDupConcat(pre, route.path);
    NoDupConcat(pre + route.path, post);
  }

  /** On such a path, going forward and then back returns to the screen the
      respondent started from, and so does going back and then forward. */
  lemma ForwardThenBackOnLocationPath(s: Schema, store: AnswerStore, md: Metadata, loc: Location, other: Location)
    requires WellFormed(s)
    requires RoutingPath(s, store, md).Ok? && RoutingPath(s, store, md).value.ending != LoopedBack
    ensures GetNextLocation(s, store, md, loc) == Ok(Some(other)) ==> GetPreviousLocation(s, store, md, other) == Ok(Some(loc))
    ensures GetPreviousLocation(s, store, md, loc) == Ok(Some(other)) ==> GetNextLocation(s, store, md, other) == Ok(Some(loc))
  {
    LocationPathNoDup(s, store, md);
    ForwardThenBack(LocationPath(s, store, md).value, loc, other);
  }

  /** The next screen of each screen of the location path is the one after
      it, and the previous screen of that one is the screen itself. */
  lemma NextIsFollowingScreen(s: Schema, store: AnswerStore, md: Metadata, i: nat)
    requires WellFormed(s)
    requires RoutingPath(s, store, md).Ok? && RoutingPath(s, store, md).value.ending != LoopedBack
    requires i + 1 < |LocationPath(s, store, md).value|
    ensures var path := LocationPath(s, store, md).value;
            GetNextLocation(s, store, md, path[i]) == Ok(Some(path[i + 1]))
            && GetPreviousLocation(s, store, md, path[i + 1]) == Ok(Some(path[i]))
  {
    LocationPathNoDup(s, store, md);
    NextAndPreviousAreNeighbours(LocationPath(s, store, md).value, i);
  }

  /** A group whose skip condition holds contributes no screens: the only
      locations of the path in that group are the introduction or closing
      screens placed there. */
  lemma SkippedGroupAbsent(s: Schema, store: AnswerStore, md: Metadata, p: nat)
    requires WellFormed(s)
    requires p < |s.groups| && GroupSkipped(s.groups[p], store, md)
    requires LocationPath(s, store, md).Ok?
    ensures forall l :: l in LocationPath(s, store, md).value && l.groupId == s.groups[p].id ==>
      l.blockId == IntroductionId || l.blockId in s.closing
  {
    var entries := Expand(s.groups, store, md).value;
    var route := Walk(entries, 0, store, md).value;
    WalkShape(entries, 0, store, md);
    forall l | l in route.path
      ensures l.groupId != s.groups[p].id
    {
      var i :| 0 <= i < |entries| && entries[i].loc == l;
      ExpandFromGroups(s.groups, store, md, entries[i]);
      var q :| 0 <= q < |s.groups| && !GroupSkipped(s.groups[q], store, md) && FromGroup(entries[i], s.groups[q])
               && GroupEntries(s.groups[q], store, md).Ok? && entries[i] in GroupEntries(s.groups[q], store, md).value;
      assert q != p;
    }
  }

  /** A block list without routing rules is walked in order to its end. */
  lemma {:induction false} WalkWithoutRules(entries: seq<Entry>, k: nat, store: AnswerStore, md: Metadata)
    requires k <= |entries|
    requires forall i :: 0 <= i < |entries| ==> |entries[i].routing| == 0
    ensures Walk(entries, k, store, md) == Ok(Route(Locs(entries[k..]), FellOffEnd))
    decreases |entries| - k
  {
    if k < |entries| {
      WalkWithoutRules(entries, k + 1, store, md);
      assert Locs(entries[k..]) == [entries[k].loc] + Locs(entries[k + 1..]);
    }
  }

  /** A schema without routing rules: the routing path is every screen of
      the expanded block list in order, and the closing screens follow. */
  lemma PathWithoutRules(s: Schema, store: AnswerStore, md: Metadata)
    requires forall g, b :: g in s.groups && b in g.blocks ==> |b.routing| == 0
    requires Expand(s.groups, store, md).Ok?
    ensures var entries := Expand(s.groups, store, md).value;
            RoutingPath(s, store, md) == Ok(Route(Locs(entries), FellOffEnd))
            && LocationPath(s, store, md) == Ok(Preamble(s) + Locs(entries) + Closing(s))
  {
    var entries := Expand(s.groups, store, md).value;
    forall i | 0 <= i < |entries|
      ensures |entries[i].routing| == 0
    {
      ExpandFromGroups(s.groups, store, md, entries[i]);
    }
    WalkWithoutRules(entries, 0, store, md);
    assert entries[0..] == entries;
  }

  /** Position of block `b` of instance `i` when each instance has `width`
      screens, counted instance by instance (`i * width + b`, as
      `SlotIsProduct` states). */
  function Slot(i: nat, width: nat, b: nat): (r: nat)
    ensures r >= b
    decreases i
  {
    if i == 0 then b else width + Slot(i - 1, width, b)
  }

  lemma {:induction false} SlotIsProduct(i: nat, width: nat, b: nat)
    ensures Slot(i, width, b) == i * width + b
    decreases i
  {
    if i > 0 {
      SlotIsProduct(i - 1, width, b);
      assert i * width == (i - 1) * width + width;
    }
  }

  lemma {:induction false} SlotShift(i: nat, width: nat, b: nat)
    ensures Slot(i, width, b) == Slot(i, width, 0) + b
    decreases i
  {
    if i > 0 {
      SlotShift(i - 1, width, b);
    }
  }

  lemma {:induction false} SlotBelow(i: nat, m: nat, width: nat, b: nat)
    requires i < m && b < width
    ensures Slot(i, width, b) < Slot(m, width, 0)
    decreases m
  {
    if i + 1 == m {
      SlotShift(i, width, b);
    } else {
      SlotBelow(i, m - 1, width, b);
    }
  }

  /** Without block skip conditions an instance has one screen per block, in
      block order. */
  lemma {:induction false} InstanceEntriesUnskipped(groupId: string, blocks: seq<Block>, gi: nat, store: AnswerStore, md: Metadata)
    requires forall b :: b in blocks ==> b.skip.None?
    ensures var r := InstanceEntries(groupId, blocks, gi, store, md);
            |r| == |blocks|
            && forall b :: 0 <= b < |blocks| ==> r[b] == Entry(Location(groupId, gi, blocks[b].id), blocks[b].routing)
    decreases |blocks|
  {
    if |blocks| > 0 {
      InstanceEntriesUnskipped(groupId, blocks[1..], gi, store, md);
      var tail := InstanceEntries(groupId, blocks[1..], gi, store, md);
      assert forall b :: 1 <= b < |blocks| ==> blocks[1..][b - 1] == blocks[b];
    }
  }

  /** Without block skip conditions every instance has one screen per block. */
  lemma {:induction false} InstancesLength(groupId: string, blocks: seq<Block>, n: nat, store: AnswerStore, md: Metadata)
    requires forall b :: b in blocks ==> b.skip.None?
    ensures |InstancesEntries(groupId, blocks, n, store, md)| == Slot(n, |blocks|, 0)
    decreases n
  {
    if n > 0 {
      InstancesLength(groupId, blocks, n - 1, store, md);
      InstanceEntriesUnskipped(groupId, blocks, n - 1, store, md);
    }
  }

  /** The first `n` instances of a group without block skip conditions are
      laid out instance by instance: block `b` of instance `i` is at
      position `Slot(i, |blocks|, b)`. */
  lemma InstancesLayout(groupId: string, blocks: seq<Block>, n: nat, store: AnswerStore, md: Metadata)
    requires forall b :: b in blocks ==> b.skip.None?
    ensures var r := InstancesEntries(groupId, blocks, n, store, md);
            |r| == Slot(n, |blocks|, 0)
            && forall i, b :: 0 <= i < n && 0 <= b < |blocks| ==>
                 Slot(i, |blocks|, b) < |r| && r[Slot(i, |blocks|, b)].loc == Location(groupId, i, blocks[b].id)
  {
    InstancesLength(groupId, blocks, n, store, md);
    forall i, b | 0 <= i < n && 0 <= b < |blocks|
      ensures var r := InstancesEntries(groupId, blocks, n, store, md);
              Slot(i, |blocks|, b) < |r| && r[Slot(i, |blocks|, b)].loc == Location(groupId, i, blocks[b].id)
    {
      LayoutPoint(groupId, blocks, n, store, md, i, b);
    }
  }

  lemma {:induction false} LayoutPoint(groupId: string, blocks: seq<Block>, n: nat, store: AnswerStore, md: Metadata, i: nat, b: nat)
    requires forall b :: b in blocks ==> b.skip.None?
    requires i < n && b < |blocks|
    ensures var r := InstancesEntries(groupId, blocks, n, store, md);
            Slot(i, |blocks|, b) < |r| && r[Slot(i, |blocks|, b)].loc == Location(groupId, i, blocks[b].id)
    decreases n
  {
    var w := |blocks|;
    var init := InstancesEntries(groupId, blocks, n - 1, store, md);
    var last := InstanceEntries(groupId, blocks, n - 1, store, md);
    assert InstancesEntries(groupId, blocks, n, store, md) == init + last;
    InstancesLength(groupId, blocks, n - 1, store, md);
    InstanceEntriesUnskipped(groupId, blocks, n - 1, store, md);
    if i < n - 1 {
      LayoutPoint(groupId, blocks, n - 1, store, md, i, b);
    }
    LayoutJoin(init, last, n - 1, w, i, b, Location(groupId, i, blocks[b].id));
  }

  /** Slot `(i, b)` of `m` instances followed by one more holds `loc` when
      the instance it falls in holds it there. */
  lemma LayoutJoin(init: seq<Entry>, last: seq<Entry>, m: nat, width: nat, i: nat, b: nat, loc: Location)
    requires |init| == Slot(m, width, 0) && |last| == width && i <= m && b < width
    requires i < m ==> Slot(i, width, b) < |init| && init[Slot(i, width, b)].loc == loc
    requires i == m ==> last[b].loc == loc
    ensures Slot(i, width, b) < |init + last| && (init + last)[Slot(i, width, b)].loc == loc
  {
    LayoutStep(init, last, m, width, i, b);
  }

  /** Where slot `(i, b)` falls in the concatenation of `m` instances and one
      more instance. */
  lemma LayoutStep(init: seq<Entry>, last: seq<Entry>, m: nat, width: nat, i: nat, b: nat)
    requires |init| == Slot(m, width, 0) && |last| == width
    requires i <= m && b < width
    ensures i < m ==> Slot(i, width, b) < |init| && (init + last)[Slot(i, width, b)] == init[Slot(i, width, b)]
    ensures i == m ==> Slot(i, width, b) == |init| + b && (init + last)[Slot(i, width, b)] == last[b]
  {
    if i < m {
      SlotBelow(i, m, width, b);
    } else {
      SlotShift(i, width, b);
    }
  }

  /** A repeating group that is not skipped and has no block skip
      conditions contributes `count * |blocks|` screens, laid out instance
      by instance. */
  lemma RepeatingGroupLayout(g: Group, store: AnswerStore, md: Metadata, count: nat)
    requires forall b :: b in g.blocks ==> b.skip.None?
    requires !GroupSkipped(g, store, md) && InstanceCount(g, store) == Ok(count)
    ensures GroupEntries(g, store, md).Ok?
    ensures var r := GroupEntries(g, store, md).value;
            |r| == count * |g.blocks|
            && forall i, b :: 0 <= i < count && 0 <= b < |g.blocks| ==>
                 Slot(i, |g.blocks|, b) < |r| && r[Slot(i, |g.blocks|, b)].loc == Location(g.id, i, g.blocks[b].id)
  {
    assert GroupEntries(g, store, md) == Ok(InstancesEntries(g.id, g.blocks, count, store, md));
    InstancesLayout(g.id, g.blocks, count, store, md);
    SlotIsProduct(count, |g.blocks|, 0);
  }
}
