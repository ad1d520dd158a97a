/** Concrete questionnaires in the shapes the navigator's tests use, and the
    paths and neighbours the model gives them: metadata routing, a skipped
    group, repeats counted by value and by answers, a per-instance block skip,
    a jump to the summary and a block that waits for its answer. */
module Scenarios {
  import opened Outcomes
  import opened Questionnaire
  import opened Rules
  import opened Paths
  import opened Navigator
  import PathProperties
  import Text
  import FrontEnd

  function Plain(id: string): Block {
    Block(id, None, [])
  }

  function Given(groupId: string, gi: nat, blockId: string, answerId: string, ai: nat, value: string): Answer {
    Answer(groupId, gi, blockId, answerId, ai, Some(value))
  }

  // Single steps of the expansion and of the routing walk, so that a
  // concrete path is checked one screen at a time.

  lemma KeepBlock(groupId: string, b: Block, rest: seq<Block>, gi: nat, store: AnswerStore, md: Metadata)
    requires !BlockSkipped(b, store, md, gi)
    ensures InstanceEntries(groupId, [b] + rest, gi, store, md)
            == [Entry(Location(groupId, gi, b.id), b.routing)] + InstanceEntries(groupId, rest, gi, store, md)
  {
    assert ([b] + rest)[1..] == rest;
  }

  lemma DropBlock(groupId: string, b: Block, rest: seq<Block>, gi: nat, store: AnswerStore, md: Metadata)
    requires BlockSkipped(b, store, md, gi)
    ensures InstanceEntries(groupId, [b] + rest, gi, store, md) == InstanceEntries(groupId, rest, gi, store, md)
  {
    assert ([b] + rest)[1..] == rest;
  }

  lemma NextInstance(groupId: string, blocks: seq<Block>, n: nat, store: AnswerStore, md: Metadata)
    ensures InstancesEntries(groupId, blocks, n + 1, store, md)
            == InstancesEntries(groupId, blocks, n, store, md) + InstanceEntries(groupId, blocks, n, store, md)
  {
  }

  lemma GroupOf(g: Group, store: AnswerStore, md: Metadata, n: nat)
    requires !GroupSkipped(g, store, md) && InstanceCount(g, store) == Ok(n)
    ensures GroupEntries(g, store, md) == Ok(InstancesEntries(g.id, g.blocks, n, store, md))
  {
  }

  lemma ExpandCons(g: Group, rest: seq<Group>, store: AnswerStore, md: Metadata, first: seq<Entry>, others: seq<Entry>)
    requires GroupEntries(g, store, md) == Ok(first) && Expand(rest, store, md) == Ok(others)
    ensures Expand([g] + rest, store, md) == Ok(first + others)
  {
    assert ([g] + rest)[1..] == rest;
  }

  lemma ThreeKept(groupId: string, b1: Block, b2: Block, b3: Block, gi: nat, store: AnswerStore, md: Metadata)
    requires !BlockSkipped(b1, store, md, gi) && !BlockSkipped(b2, store, md, gi) && !BlockSkipped(b3, store, md, gi)
    ensures InstanceEntries(groupId, [b1, b2, b3], gi, store, md)
            == [Entry(Location(groupId, gi, b1.id), b1.routing),
                Entry(Location(groupId, gi, b2.id), b2.routing),
                Entry(Location(groupId, gi, b3.id), b3.routing)]
  {
    assert InstanceEntries(groupId, [], gi, store, md) == [];
    KeepBlock(groupId, b3, [], gi, store, md);
    KeepBlock(groupId, b2, [b3], gi, store, md);
    KeepBlock(groupId, b1, [b2, b3], gi, store, md);
    assert [b3] + [] == [b3] && [b2] + [b3] == [b2, b3] && [b1] + [b2, b3] == [b1, b2, b3];
  }

  lemma SingleGroup(g: Group, store: AnswerStore, md: Metadata, es: seq<Entry>)
    requires !GroupSkipped(g, store, md) && g.repeat.None?
    requires InstanceEntries(g.id, g.blocks, 0, store, md) == es
    ensures Expand([g], store, md) == Ok(es)
  {
    NextInstance(g.id, g.blocks, 0, store, md);
    assert [] + es == es;
    GroupOf(g, store, md, 1);
    ExpandCons(g, [], store, md, es, []);
    assert [g] + [] == [g] && es + [] == es;
  }

  lemma TwoGroups(g1: Group, g2: Group, store: AnswerStore, md: Metadata, a: seq<Entry>, b: seq<Entry>)
    requires GroupEntries(g1, store, md) == Ok(a) && GroupEntries(g2, store, md) == Ok(b)
    ensures Expand([g1, g2], store, md) == Ok(a + b)
  {
    ExpandCons(g2, [], store, md, b, []);
    assert [g2] + [] == [g2] && b + [] == b;
    ExpandCons(g1, [g2], store, md, a, b);
    assert [g1] + [g2] == [g1, g2];
  }

  lemma WalkPastEnd(entries: seq<Entry>, store: AnswerStore, md: Metadata)
    ensures Walk(entries, |entries|, store, md) == Ok(Route([], FellOffEnd))
  {
  }

  lemma WalkPlain(entries: seq<Entry>, store: AnswerStore, md: Metadata)
    requires forall i :: 0 <= i < |entries| ==> |entries[i].routing| == 0
    ensures Walk(entries, 0, store, md) == Ok(Route(Locs(entries), FellOffEnd))
  {
    PathProperties.WalkWithoutRules(entries, 0, store, md);
    assert entries[0..] == entries;
  }

  /** Screens of blocks without routing rules. */
  function Screens(locs: seq<Location>): seq<Entry> {
    seq(|locs|, i requires 0 <= i < |locs| => Entry(locs[i], []))
  }

  lemma ScreensConcat(a: seq<Location>, b: seq<Location>)
    ensures Screens(a) + Screens(b) == Screens(a + b)
  {
  }

  lemma WalkScreens(locs: seq<Location>, store: AnswerStore, md: Metadata)
    ensures Walk(Screens(locs), 0, store, md) == Ok(Route(locs, FellOffEnd))
  {
    WalkPlain(Screens(locs), store, md);
    assert Locs(Screens(locs)) == locs;
  }

  lemma PathOf(s: Schema, store: AnswerStore, md: Metadata, entries: seq<Entry>, route: Route)
    requires Expand(s.groups, store, md) == Ok(entries)
    requires Walk(entries, 0, store, md) == Ok(route)
    ensures RoutingPath(s, store, md) == Ok(route)
    ensures LocationPath(s, store, md)
            == Ok(Preamble(s) + route.path + (if ReachesClosing(route.ending) then Closing(s) else []))
  {
  }

  lemma PathFromRoute(s: Schema, store: AnswerStore, md: Metadata, route: Route, pre: seq<Location>, close: seq<Location>)
    requires RoutingPath(s, store, md) == Ok(route) && Preamble(s) == pre && Closing(s) == close
    ensures LocationPath(s, store, md) == Ok(pre + route.path + (if ReachesClosing(route.ending) then close else []))
  {
  }

  lemma NextOfHead(path: seq<Location>, a: Location, b: Location)
    requires |path| >= 2 && path[0] == a && path[1] == b
    ensures NextLocation(path, a) == Ok(Some(b))
  {
  }

  // Metadata routing: block1 goes to block3 when the `flag_1` variant flag
  // is set, and to block2 otherwise.

  function FlagRule(): Goto {
    Goto(ToBlock("block3"), [MetadataFlag("flag_1")])
  }

  function MetadataSchema(): Schema {
    Schema([Group("group1", [Block("block1", None, MetadataRules()),
                             Plain("block2"), Plain("block3")],
                  None, None, Titled("Group 1"))],
           false, ["summary"])
  }

  function MetadataRules(): seq<Goto> {
    [FlagRule(), Goto(ToBlock("block2"), [])]
  }

  function MetadataScreens(): seq<Entry> {
    [Entry(Location("group1", 0, "block1"), MetadataRules()),
     Entry(Location("group1", 0, "block2"), []),
     Entry(Location("group1", 0, "block3"), [])]
  }

  lemma MetadataEntries(md: Metadata)
    ensures Expand(MetadataSchema().groups, [], md) == Ok(MetadataScreens())
  {
    var g := MetadataSchema().groups[0];
    ThreeKept("group1", g.blocks[0], g.blocks[1], g.blocks[2], 0, [], md);
    assert g.blocks == [g.blocks[0], g.blocks[1], g.blocks[2]];
    SingleGroup(g, [], md, MetadataScreens());
  }

  lemma MetadataEnds(s: Schema)
    requires s == MetadataSchema()
    ensures Preamble(s) == [] && Closing(s) == [Location("group1", 0, "summary")]
  {
    var c := Closing(s);
    assert |c| == 1 && c[0] == Location("group1", 0, "summary");
  }

  lemma MetadataPath(s: Schema, md: Metadata, route: Route)
    requires s == MetadataSchema() && Walk(MetadataScreens(), 0, [], md) == Ok(route) && route.ending == FellOffEnd
    ensures LocationPath(s, [], md) == Ok(route.path + [Location("group1", 0, "summary")])
  {
    MetadataEntries(md);
    MetadataEnds(s);
    PathFromRoute(s, [], md, route, [], [Location("group1", 0, "summary")]);
    assert [] + route.path == route.path;
  }

  lemma FlagSetFires(md: Metadata)
    requires md == map["flag_1" := true]
    ensures FirstFiring(MetadataRules(), [], md, 0) == Some(ToBlock("block3"))
  {
    assert WhenHolds([MetadataFlag("flag_1")], [], md, 0);
  }

  lemma FlagAbsentFires(md: Metadata)
    requires md == map[]
    ensures FirstFiring(MetadataRules(), [], md, 0) == Some(ToBlock("block2"))
  {
    var rules := MetadataRules();
    assert !ConditionHolds(rules[0].when[0], [], md, 0);
    assert !WhenHolds(rules[0].when, [], md, 0);
    assert FirstFiring(rules[1..], [], md, 0) == Some(ToBlock("block2"));
  }

  lemma FlagSetWalk(es: seq<Entry>, md: Metadata)
    requires es == MetadataScreens() && FirstFiring(MetadataRules(), [], md, 0) == Some(ToBlock("block3"))
    ensures Walk(es, 0, [], md) == Ok(Route([es[0].loc, es[2].loc], FellOffEnd))
  {
    assert IndexFrom(es, es[2].loc, 2) == Ok(2);
    assert IndexFrom(es, es[2].loc, 0) == Ok(2);
    WalkPastEnd(es, [], md);
    PathProperties.WalkFallThrough(es, 2, [], md, Route([], FellOffEnd));
    assert [es[2].loc] + [] == [es[2].loc];
    PathProperties.WalkJump(es, 0, [], md, ToBlock("block3"), 2, Route([es[2].loc], FellOffEnd));
    assert [es[0].loc] + [es[2].loc] == [es[0].loc, es[2].loc];
  }

  lemma FlagAbsentWalk(es: seq<Entry>, md: Metadata)
    requires es == MetadataScreens() && FirstFiring(MetadataRules(), [], md, 0) == Some(ToBlock("block2"))
    ensures Walk(es, 0, [], md) == Ok(Route([es[0].loc, es[1].loc, es[2].loc], FellOffEnd))
  {
    assert IndexFrom(es, es[1].loc, 1) == Ok(1);
    assert IndexFrom(es, es[1].loc, 0) == Ok(1);
    WalkPastEnd(es, [], md);
    PathProperties.WalkFallThrough(es, 2, [], md, Route([], FellOffEnd));
    assert [es[2].loc] + [] == [es[2].loc];
    PathProperties.WalkFallThrough(es, 1, [], md, Route([es[2].loc], FellOffEnd));
    assert [es[1].loc] + [es[2].loc] == [es[1].loc, es[2].loc];
    PathProperties.WalkJump(es, 0, [], md, ToBlock("block2"), 1, Route([es[1].loc, es[2].loc], FellOffEnd));
    assert [es[0].loc] + [es[1].loc, es[2].loc] == [es[0].loc, es[1].loc, es[2].loc];
  }

  /** test_next_with_conditional_path_based_on_metadata: with the flag set,
      the screen after block1 is block3. */
  lemma FlagSetRoutesToBlock3(s: Schema, md: Metadata)
    requires s == MetadataSchema() && md == map["flag_1" := true]
    ensures GetNextLocation(s, [], md, Location("group1", 0, "block1")) == Ok(Some(Location("group1", 0, "block3")))
  {
    var l1, l3 := Location("group1", 0, "block1"), Location("group1", 0, "block3");
    FlagSetFires(md);
    FlagSetWalk(MetadataScreens(), md);
    MetadataPath(s, md, Route([l1, l3], FellOffEnd));
    NextOfHead([l1, l3] + [Location("group1", 0, "summary")], l1, l3);
  }

  /** test_next_with_conditional_path_when_value_not_in_metadata: without
      the flag, the screen after block1 is block2. */
  lemma FlagAbsentRoutesToBlock2(s: Schema, md: Metadata)
    requires s == MetadataSchema() && md == map[]
    ensures GetNextLocation(s, [], md, Location("group1", 0, "block1")) == Ok(Some(Location("group1", 0, "block2")))
  {
    var l1, l2, l3 := Location("group1", 0, "block1"), Location("group1", 0, "block2"), Location("group1", 0, "block3");
    FlagAbsentFires(md);
    FlagAbsentWalk(MetadataScreens(), md);
    MetadataPath(s, md, Route([l1, l2, l3], FellOffEnd));
    NextOfHead([l1, l2, l3] + [Location("group1", 0, "summary")], l1, l2);
  }

  // A group skipped on an earlier answer: should-skip-group is skipped when
  // the first question is answered "Yes".

  function SkipRule(): When {
    [AnswerEquals("do-you-want-to-skip-answer", "Yes")]
  }

  function SkipSchema(): Schema {
    Schema([Group("do-you-want-to-skip-group", [Plain("do-you-want-to-skip")], None, None, Titled("")),
            Group("should-skip-group", [Plain("should-skip")], Some(SkipRule()), None, Titled("")),
            Group("last-group", [Plain("last-group-block")], None, None, Titled(""))],
           false, ["summary"])
  }

  lemma OneBlockGroup(g: Group, store: AnswerStore, md: Metadata)
    requires |g.blocks| == 1 && g.blocks[0].skip.None? && g.repeat.None? && !GroupSkipped(g, store, md)
    ensures GroupEntries(g, store, md) == Ok([Entry(Location(g.id, 0, g.blocks[0].id), g.blocks[0].routing)])
  {
    KeepBlock(g.id, g.blocks[0], [], 0, store, md);
    assert [g.blocks[0]] + [] == g.blocks;
    var e := Entry(Location(g.id, 0, g.blocks[0].id), g.blocks[0].routing);
    assert InstanceEntries(g.id, [], 0, store, md) == [];
    NextInstance(g.id, g.blocks, 0, store, md);
    assert [] + ([e] + []) == [e];
    GroupOf(g, store, md, 1);
  }

  lemma SkipEntries(store: AnswerStore, md: Metadata)
    ensures var e1 := Entry(Location("do-you-want-to-skip-group", 0, "do-you-want-to-skip"), []);
            var e2 := Entry(Location("should-skip-group", 0, "should-skip"), []);
            var e3 := Entry(Location("last-group", 0, "last-group-block"), []);
            Expand(SkipSchema().groups, store, md)
            == Ok(if WhenHolds(SkipRule(), store, md, 0) then [e1, e3] else [e1, e2, e3])
  {
    var gs := SkipSchema().groups;
    var e1 := Entry(Location("do-you-want-to-skip-group", 0, "do-you-want-to-skip"), []);
    var e2 := Entry(Location("should-skip-group", 0, "should-skip"), []);
    var e3 := Entry(Location("last-group", 0, "last-group-block"), []);
    OneBlockGroup(gs[0], store, md);
    OneBlockGroup(gs[2], store, md);
    ExpandCons(gs[2], [], store, md, [e3], []);
    assert [gs[2]] + [] == gs[2..] && [e3] + [] == [e3];
    var tail: seq<Entry> := if WhenHolds(SkipRule(), store, md, 0) then [] else [e2];
    if WhenHolds(SkipRule(), store, md, 0) {
      assert GroupEntries(gs[1], store, md) == Ok([]);
    } else {
      OneBlockGroup(gs[1], store, md);
    }
    ExpandCons(gs[1], gs[2..], store, md, tail, [e3]);
    assert [gs[1]] + gs[2..] == gs[1..];
    ExpandCons(gs[0], gs[1..], store, md, [e1], tail + [e3]);
    assert [gs[0]] + gs[1..] == gs;
    assert [e1] + ([] + [e3]) == [e1, e3] && [e1] + ([e2] + [e3]) == [e1, e2, e3];
  }

  lemma SkipEnds(s: Schema)
    requires s == SkipSchema()
    ensures Preamble(s) == [] && Closing(s) == [Location("last-group", 0, "summary")]
  {
    var c := Closing(s);
    assert |c| == 1 && c[0] == Location("last-group", 0, "summary");
  }

  lemma SkippedRoute(s: Schema, store: AnswerStore, md: Metadata)
    requires s == SkipSchema() && WhenHolds(SkipRule(), store, md, 0)
    ensures RoutingPath(s, store, md)
            == Ok(Route([Location("do-you-want-to-skip-group", 0, "do-you-want-to-skip"), Location("last-group", 0, "last-group-block")],
                        FellOffEnd))
  {
    var l1 := Location("do-you-want-to-skip-group", 0, "do-you-want-to-skip");
    var l3 := Location("last-group", 0, "last-group-block");
    SkipEntries(store, md);
    WalkScreens([l1, l3], store, md);
    assert Screens([l1, l3]) == [Entry(l1, []), Entry(l3, [])];
  }

  lemma KeptRoute(s: Schema, store: AnswerStore, md: Metadata)
    requires s == SkipSchema() && !WhenHolds(SkipRule(), store, md, 0)
    ensures RoutingPath(s, store, md)
            == Ok(Route([Location("do-you-want-to-skip-group", 0, "do-you-want-to-skip"), Location("should-skip-group", 0, "should-skip"),
                         Location("last-group", 0, "last-group-block")], FellOffEnd))
  {
    var l1 := Location("do-you-want-to-skip-group", 0, "do-you-want-to-skip");
    var l2 := Location("should-skip-group", 0, "should-skip");
    var l3 := Location("last-group", 0, "last-group-block");
    SkipEntries(store, md);
    WalkScreens([l1, l2, l3], store, md);
    assert Screens([l1, l2, l3]) == [Entry(l1, []), Entry(l2, []), Entry(l3, [])];
  }

  lemma SkippedPath(s: Schema, store: AnswerStore, md: Metadata)
    requires s == SkipSchema() && WhenHolds(SkipRule(), store, md, 0)
    ensures LocationPath(s, store, md)
            == Ok([Location("do-you-want-to-skip-group", 0, "do-you-want-to-skip"),
                   Location("last-group", 0, "last-group-block"), Location("last-group", 0, "summary")])
  {
    var l1 := Location("do-you-want-to-skip-group", 0, "do-you-want-to-skip");
    var l3 := Location("last-group", 0, "last-group-block");
    var summary := Location("last-group", 0, "summary");
    SkippedRoute(s, store, md);
    SkipEnds(s);
    PathFromRoute(s, store, md, Route([l1, l3], FellOffEnd), [], [summary]);
    assert [] + [l1, l3] + [summary] == [l1, l3, summary];
  }

  lemma KeptPath(s: Schema, store: AnswerStore, md: Metadata)
    requires s == SkipSchema() && !WhenHolds(SkipRule(), store, md, 0)
    ensures LocationPath(s, store, md)
            == Ok([Location("do-you-want-to-skip-group", 0, "do-you-want-to-skip"), Location("should-skip-group", 0, "should-skip"),
                   Location("last-group", 0, "last-group-block"), Location("last-group", 0, "summary")])
  {
    var l1 := Location("do-you-want-to-skip-group", 0, "do-you-want-to-skip");
    var l2 := Location("should-skip-group", 0, "should-skip");
    var l3 := Location("last-group", 0, "last-group-block");
    var summary := Location("last-group", 0, "summary");
    KeptRoute(s, store, md);
    SkipEnds(s);
    PathFromRoute(s, store, md, Route([l1, l2, l3], FellOffEnd), [], [summary]);
    assert [] + [l1, l2, l3] + [summary] == [l1, l2, l3, summary];
  }

  function SkipAnswer(value: string): Answer {
    Given("do-you-want-to-skip-group", 0, "do-you-want-to-skip", "do-you-want-to-skip-answer", 0, value)
  }

  /** test_get_next_location_should_skip_group: answering "Yes" skips the
      middle group, so the next screen is in the last group. */
  lemma YesSkipsGroup(s: Schema, store: AnswerStore, md: Metadata)
    requires s == SkipSchema() && store == [SkipAnswer("Yes")]
    ensures GetNextLocation(s, store, md, Location("do-you-want-to-skip-group", 0, "do-you-want-to-skip"))
            == Ok(Some(Location("last-group", 0, "last-group-block")))
  {
    assert FindAnswer(store, "do-you-want-to-skip-answer", 0) == Some("Yes");
    assert WhenHolds(SkipRule(), store, md, 0);
    SkippedPath(s, store, md);
    NextOfHead([Location("do-you-want-to-skip-group", 0, "do-you-want-to-skip"),
                Location("last-group", 0, "last-group-block"), Location("last-group", 0, "summary")],
               Location("do-you-want-to-skip-group", 0, "do-you-want-to-skip"), Location("last-group", 0, "last-group-block"));
  }

  /** test_get_next_location_should_not_skip_group: answering "No" keeps it. */
  lemma NoKeepsGroup(s: Schema, store: AnswerStore, md: Metadata)
    requires s == SkipSchema() && store == [SkipAnswer("No")]
    ensures GetNextLocation(s, store, md, Location("do-you-want-to-skip-group", 0, "do-you-want-to-skip"))
            == Ok(Some(Location("should-skip-group", 0, "should-skip")))
  {
    assert FindAnswer(store, "do-you-want-to-skip-answer", 0) == Some("No");
    assert !ConditionHolds(SkipRule()[0], store, md, 0);
    KeptNext(s, store, md);
  }

  /** test_get_next_location_should_not_skip_when_no_answers: without an
      answer the skip condition is false and the group is kept. */
  lemma NoAnswerKeepsGroup(s: Schema, md: Metadata)
    requires s == SkipSchema()
    ensures GetNextLocation(s, [], md, Location("do-you-want-to-skip-group", 0, "do-you-want-to-skip"))
            == Ok(Some(Location("should-skip-group", 0, "should-skip")))
  {
    assert !ConditionHolds(SkipRule()[0], [], md, 0);
    KeptNext(s, [], md);
  }

  lemma KeptNext(s: Schema, store: AnswerStore, md: Metadata)
    requires s == SkipSchema() && !WhenHolds(SkipRule(), store, md, 0)
    ensures GetNextLocation(s, store, md, Location("do-you-want-to-skip-group", 0, "do-you-want-to-skip"))
            == Ok(Some(Location("should-skip-group", 0, "should-skip")))
  {
    KeptPath(s, store, md);
    NextOfHead([Location("do-you-want-to-skip-group", 0, "do-you-want-to-skip"), Location("should-skip-group", 0, "should-skip"),
                Location("last-group", 0, "last-group-block"), Location("last-group", 0, "summary")],
               Location("do-you-want-to-skip-group", 0, "do-you-want-to-skip"), Location("should-skip-group", 0, "should-skip"));
  }

  // A checkbox questionnaire: one group of two questions with no routing
  // rules, an introduction and a summary.

  function CheckboxGroupId(): string {
    "14ba4707-321d-441d-8d21-b8367366e761"
  }

  function CheckboxSchema(): Schema {
    Schema([Group(CheckboxGroupId(), [Plain("f22b1ba4-d15f-48b8-a1f3-db62b6f34cc0"), Plain("f22b1ba4-d15f-48b8-a1f3-db62b6f34cc1")],
                  None, None, Titled(""))],
           true, ["summary"])
  }

  function CheckboxPath(): seq<Location> {
    [Location(CheckboxGroupId(), 0, "introduction"), Location(CheckboxGroupId(), 0, "f22b1ba4-d15f-48b8-a1f3-db62b6f34cc0"),
     Location(CheckboxGroupId(), 0, "f22b1ba4-d15f-48b8-a1f3-db62b6f34cc1"), Location(CheckboxGroupId(), 0, "summary")]
  }

  lemma CheckboxEntries(store: AnswerStore, md: Metadata)
    ensures Expand(CheckboxSchema().groups, store, md)
            == Ok(Screens([Location(CheckboxGroupId(), 0, "f22b1ba4-d15f-48b8-a1f3-db62b6f34cc0"),
                           Location(CheckboxGroupId(), 0, "f22b1ba4-d15f-48b8-a1f3-db62b6f34cc1")]))
  {
    var g := CheckboxSchema().groups[0];
    var b1, b2 := g.blocks[0], g.blocks[1];
    assert InstanceEntries(g.id, [], 0, store, md) == [];
    KeepBlock(g.id, b2, [], 0, store, md);
    KeepBlock(g.id, b1, [b2], 0, store, md);
    assert [b2] + [] == [b2] && [b1] + [b2] == g.blocks;
    var es := [Entry(Location(g.id, 0, b1.id), []), Entry(Location(g.id, 0, b2.id), [])];
    SingleGroup(g, store, md, es);
    assert [g] == CheckboxSchema().groups;
    assert Screens([Location(g.id, 0, b1.id), Location(g.id, 0, b2.id)]) == es;
  }

  lemma CheckboxEnds(s: Schema)
    requires s == CheckboxSchema()
    ensures Preamble(s) == [Location(CheckboxGroupId(), 0, "introduction")]
    ensures Closing(s) == [Location(CheckboxGroupId(), 0, "summary")]
  {
    var c := Closing(s);
    assert |c| == 1 && c[0] == Location(CheckboxGroupId(), 0, "summary");
  }

  lemma CheckboxWellFormed()
    ensures WellFormed(CheckboxSchema())
  {
    var s := CheckboxSchema();
    assert forall g :: g in s.groups ==> g == s.groups[0];
    assert forall b :: b in s.groups[0].blocks ==> b == s.groups[0].blocks[0] || b == s.groups[0].blocks[1];
  }

  /** test_next_location_empty_routing_rules: with no routing rules the path
      is the introduction, both questions and the summary, whatever the
      answers, and the next location after the first question is the second. */
  lemma CheckboxPathWithoutRules(s: Schema, store: AnswerStore, md: Metadata)
    requires s == CheckboxSchema()
    ensures LocationPath(s, store, md) == Ok(CheckboxPath())
    ensures GetNextLocation(s, store, md, CheckboxPath()[1]) == Ok(Some(CheckboxPath()[2]))
  {
    var l1 := Location(CheckboxGroupId(), 0, "f22b1ba4-d15f-48b8-a1f3-db62b6f34cc0");
    var l2 := Location(CheckboxGroupId(), 0, "f22b1ba4-d15f-48b8-a1f3-db62b6f34cc1");
    CheckboxEntries(store, md);
    WalkScreens([l1, l2], store, md);
    PathOf(s, store, md, Screens([l1, l2]), Route([l1, l2], FellOffEnd));
    CheckboxEnds(s);
    assert [Location(CheckboxGroupId(), 0, "introduction")] + [l1, l2] + [Location(CheckboxGroupId(), 0, "summary")] == CheckboxPath();
    CheckboxWellFormed();
    PathProperties.NextIsFollowingScreen(s, store, md, 1);
  }

  // A household: one question, then a group repeated once per person, the
  // number of people read from the `first-name` answer by the repeat rule
  // `tag`.

  function HouseholdBlocks(): seq<Block> {
    [Plain("repeating-block-1"), Plain("repeating-block-2")]
  }

  function HouseholdSchema(tag: string): Schema {
    Schema([Group("multiple-questions-group", [Plain("household-composition")], None, None, Titled("Household")),
            Group("repeating-group", HouseholdBlocks(), None, Some(RepeatRule(tag, "first-name")), PersonNamed(["first-name"]))],
           true, ["summary"])
  }

  /** The screens of the first `n` people, person by person. */
  function PeopleScreens(n: nat): seq<Location> {
    if n == 0 then []
    else PeopleScreens(n - 1) + [Location("repeating-group", n - 1, "repeating-block-1"),
                                 Location("repeating-group", n - 1, "repeating-block-2")]
  }

  lemma FirstPeopleScreens()
    ensures PeopleScreens(1) == [Location("repeating-group", 0, "repeating-block-1"), Location("repeating-group", 0, "repeating-block-2")]
    ensures PeopleScreens(2) == PeopleScreens(1) + [Location("repeating-group", 1, "repeating-block-1"), Location("repeating-group", 1, "repeating-block-2")]
    ensures PeopleScreens(3) == PeopleScreens(2) + [Location("repeating-group", 2, "repeating-block-1"), Location("repeating-group", 2, "repeating-block-2")]
  {
  }

  lemma ThreePeopleScreens()
    ensures [Location("multiple-questions-group", 0, "household-composition")] + PeopleScreens(3)
            == [Location("multiple-questions-group", 0, "household-composition"),
                Location("repeating-group", 0, "repeating-block-1"), Location("repeating-group", 0, "repeating-block-2"),
                Location("repeating-group", 1, "repeating-block-1"), Location("repeating-group", 1, "repeating-block-2"),
                Location("repeating-group", 2, "repeating-block-1"), Location("repeating-group", 2, "repeating-block-2")]
  {
    FirstPeopleScreens();
  }

  lemma LocsConcat(a: seq<Entry>, b: seq<Entry>)
    ensures Locs(a + b) == Locs(a) + Locs(b)
  {
  }

  lemma {:induction false} HouseholdInstances(n: nat, store: AnswerStore, md: Metadata)
    ensures Locs(InstancesEntries("repeating-group", HouseholdBlocks(), n, store, md)) == PeopleScreens(n)
    decreases n
  {
    if n > 0 {
      var blocks := HouseholdBlocks();
      HouseholdInstances(n - 1, store, md);
      KeepBlock("repeating-group", blocks[1], [], n - 1, store, md);
      KeepBlock("repeating-group", blocks[0], [blocks[1]], n - 1, store, md);
      assert [blocks[1]] + [] == [blocks[1]] && [blocks[0]] + [blocks[1]] == blocks;
      var e1 := Entry(Location("repeating-group", n - 1, "repeating-block-1"), []);
      var e2 := Entry(Location("repeating-group", n - 1, "repeating-block-2"), []);
      var last := InstanceEntries("repeating-group", blocks, n - 1, store, md);
      assert last == [e1] + ([e2] + []) == [e1, e2];
      assert Locs(last) == [e1.loc, e2.loc];
      NextInstance("repeating-group", blocks, n - 1, store, md);
      LocsConcat(InstancesEntries("repeating-group", blocks, n - 1, store, md), last);
    }
  }

  lemma HouseholdEntries(tag: string, store: AnswerStore, md: Metadata, n: nat)
    requires RepeatCount(RepeatRule(tag, "first-name"), store, 0) == Ok(n)
    ensures Expand(HouseholdSchema(tag).groups, store, md)
            == Ok([Entry(Location("multiple-questions-group", 0, "household-composition"), [])]
                  + InstancesEntries("repeating-group", HouseholdBlocks(), n, store, md))
  {
    var gs := HouseholdSchema(tag).groups;
    var g1, g2 := gs[0], gs[1];
    OneBlockGroup(g1, store, md);
    GroupOf(g2, store, md, n);
    var people := InstancesEntries("repeating-group", HouseholdBlocks(), n, store, md);
    ExpandCons(g2, [], store, md, people, []);
    assert [g2] + [] == [g2] && people + [] == people;
    ExpandCons(g1, [g2], store, md, [Entry(Location("multiple-questions-group", 0, "household-composition"), [])], people);
    assert [g1] + [g2] == gs;
  }

  lemma HouseholdHasNoRules(tag: string)
    ensures forall g, b :: g in HouseholdSchema(tag).groups && b in g.blocks ==> |b.routing| == 0
  {
  }

  lemma HouseholdRoute(tag: string, s: Schema, store: AnswerStore, md: Metadata, n: nat)
    requires s == HouseholdSchema(tag) && RepeatCount(RepeatRule(tag, "first-name"), store, 0) == Ok(n)
    ensures RoutingPath(s, store, md)
            == Ok(Route([Location("multiple-questions-group", 0, "household-composition")] + PeopleScreens(n), FellOffEnd))
  {
    var hc := Location("multiple-questions-group", 0, "household-composition");
    var people := InstancesEntries("repeating-group", HouseholdBlocks(), n, store, md);
    HouseholdEntries(tag, store, md, n);
    HouseholdHasNoRules(tag);
    PathProperties.PathWithoutRules(s, store, md);
    LocsConcat([Entry(hc, [])], people);
    HouseholdInstances(n, store, md);
    assert Locs([Entry(hc, [])]) == [hc];
  }

  lemma HouseholdEnds(tag: string, s: Schema)
    requires s == HouseholdSchema(tag)
    ensures Preamble(s) == [Location("multiple-questions-group", 0, "introduction")]
    ensures Closing(s) == [Location("repeating-group", 0, "summary")]
  {
    var c := Closing(s);
    assert |c| == 1 && c[0] == Location("repeating-group", 0, "summary");
  }

  /** Whatever number of people the repeat rule gives, the path is the
      introduction, the household question, each person's two screens in
      turn, and the summary. */
  lemma HouseholdPath(tag: string, s: Schema, store: AnswerStore, md: Metadata, n: nat)
    requires s == HouseholdSchema(tag) && RepeatCount(RepeatRule(tag, "first-name"), store, 0) == Ok(n)
    ensures RoutingPath(s, store, md)
            == Ok(Route([Location("multiple-questions-group", 0, "household-composition")] + PeopleScreens(n), FellOffEnd))
    ensures LocationPath(s, store, md)
            == Ok([Location("multiple-questions-group", 0, "introduction"), Location("multiple-questions-group", 0, "household-composition")]
                  + PeopleScreens(n) + [Location("repeating-group", 0, "summary")])
  {
    var hc := Location("multiple-questions-group", 0, "household-composition");
    var intro := Location("multiple-questions-group", 0, "introduction");
    var summary := Location("repeating-group", 0, "summary");
    var route := Route([hc] + PeopleScreens(n), FellOffEnd);
    HouseholdRoute(tag, s, store, md, n);
    HouseholdEnds(tag, s);
    PathFromRoute(s, store, md, route, [intro], [summary]);
    assert [intro] + ([hc] + PeopleScreens(n)) == [intro, hc] + PeopleScreens(n);
  }

  function Person(ai: nat, value: string): Answer {
    Given("multiple-questions-group", 0, "household-composition", "first-name", ai, value)
  }

  /** test_repeating_groups: with `answer_value` and the answer "2", the
      repeating group is walked twice. */
  lemma RepeatByValue(s: Schema, store: AnswerStore, md: Metadata)
    requires s == HouseholdSchema("answer_value") && store == [Person(0, "2")]
    ensures RoutingPath(s, store, md).Ok?
    ensures RoutingPath(s, store, md).value.path
            == [Location("multiple-questions-group", 0, "household-composition"),
                Location("repeating-group", 0, "repeating-block-1"), Location("repeating-group", 0, "repeating-block-2"),
                Location("repeating-group", 1, "repeating-block-1"), Location("repeating-group", 1, "repeating-block-2")]
  {
    TwoParses();
    ValueRepeat(store, "2", 2);
    HouseholdRoute("answer_value", s, store, md, 2);
    TwoPeopleRoute();
  }

  lemma TwoParses()
    ensures Text.ParseDecimal("2") == Some(2)
  {
    assert Text.NatToDecimal(2) == "2";
    Text.ParseDecimalRoundTrip(2);
  }

  lemma TwoPeopleRoute()
    ensures [Location("multiple-questions-group", 0, "household-composition")] + PeopleScreens(2)
            == [Location("multiple-questions-group", 0, "household-composition"),
                Location("repeating-group", 0, "repeating-block-1"), Location("repeating-group", 0, "repeating-block-2"),
                Location("repeating-group", 1, "repeating-block-1"), Location("repeating-group", 1, "repeating-block-2")]
  {
    FirstPeopleScreens();
  }

  lemma ValueRepeat(store: AnswerStore, value: string, n: nat)
    requires store == [Person(0, value)] && Text.ParseDecimal(value) == Some(n)
    ensures RepeatCount(RepeatRule("answer_value", "first-name"), store, 0) == Ok(n)
  {
    assert FindAnswer(store, "first-name", 0) == Some(value);
  }

  /** test_should_not_show_block_for_zero_repeats: the answer "0" leaves only
      the household question. */
  lemma ZeroRepeats(s: Schema, store: AnswerStore, md: Metadata)
    requires s == HouseholdSchema("answer_value") && store == [Person(0, "0")]
    ensures RoutingPath(s, store, md).Ok?
    ensures RoutingPath(s, store, md).value.path == [Location("multiple-questions-group", 0, "household-composition")]
  {
    assert Text.ParseDecimal("0") == Some(0);
    ValueRepeat(store, "0", 0);
    HouseholdRoute("answer_value", s, store, md, 0);
    assert [Location("multiple-questions-group", 0, "household-composition")] + PeopleScreens(0)
        == [Location("multiple-questions-group", 0, "household-composition")];
  }

  /** Three people recorded as answer instances 0, 1 and 2. */
  lemma ThreePeopleCounted()
    ensures CountInstances([Person(0, "Joe Bloggs")], "first-name", 0) == 1
    ensures CountInstances([Person(0, "Joe Bloggs"), Person(1, "Sophie Bloggs")], "first-name", 0) == 2
    ensures CountInstances([Person(0, "Joe Bloggs"), Person(1, "Sophie Bloggs"), Person(2, "Gregg Bloggs")], "first-name", 0) == 3
  {
    var p0, p1, p2 := Person(0, "Joe Bloggs"), Person(1, "Sophie Bloggs"), Person(2, "Gregg Bloggs");
    assert CountInstances([], "first-name", 0) == 0;
    CountGrowsWithNewInstance([], p0);
    assert [] + [p0] == [p0];
    AppendInstances([], p0, 0);
    CountGrowsWithNewInstance([p0], p1);
    assert [p0] + [p1] == [p0, p1];
    AppendInstances([p0], p1, 0);
    CountGrowsWithNewInstance([p0, p1], p2);
    assert [p0, p1] + [p2] == [p0, p1, p2];
  }

  lemma ThreePeopleRepeat(store: AnswerStore)
    requires store == [Person(0, "Joe Bloggs"), Person(1, "Sophie Bloggs"), Person(2, "Gregg Bloggs")]
    ensures RepeatCount(RepeatRule("answer_count", "first-name"), store, 0) == Ok(3)
  {
    ThreePeopleCounted();
  }

  lemma TwoPeopleRepeat(store: AnswerStore)
    requires store == [Person(0, "Joe Bloggs"), Person(1, "Sophie Bloggs")]
    ensures RepeatCount(RepeatRule("answer_count", "first-name"), store, 0) == Ok(2)
    ensures RepeatCount(RepeatRule("answer_count_minus_one", "first-name"), store, 0) == Ok(1)
  {
    ThreePeopleCounted();
  }

  /** test_repeating_groups_no_of_answers: with `answer_count`, three people
      give three instances of the repeating group. */
  lemma RepeatByCount(s: Schema, store: AnswerStore, md: Metadata)
    requires s == HouseholdSchema("answer_count")
    requires store == [Person(0, "Joe Bloggs"), Person(1, "Sophie Bloggs"), Person(2, "Gregg Bloggs")]
    ensures RoutingPath(s, store, md).Ok?
    ensures RoutingPath(s, store, md).value.path
            == [Location("multiple-questions-group", 0, "household-composition"),
                Location("repeating-group", 0, "repeating-block-1"), Location("repeating-group", 0, "repeating-block-2"),
                Location("repeating-group", 1, "repeating-block-1"), Location("repeating-group", 1, "repeating-block-2"),
                Location("repeating-group", 2, "repeating-block-1"), Location("repeating-group", 2, "repeating-block-2")]
  {
    ThreePeopleRepeat(store);
    HouseholdRoute("answer_count", s, store, md, 3);
    ThreePeopleScreens();
  }

  /** test_repeating_groups_no_of_answers_minus_one: with
      `answer_count_minus_one`, two people give one instance. */
  lemma RepeatByCountMinusOne(s: Schema, store: AnswerStore, md: Metadata)
    requires s == HouseholdSchema("answer_count_minus_one")
    requires store == [Person(0, "Joe Bloggs"), Person(1, "Sophie Bloggs")]
    ensures RoutingPath(s, store, md).Ok?
    ensures RoutingPath(s, store, md).value.path
            == [Location("multiple-questions-group", 0, "household-composition"),
                Location("repeating-group", 0, "repeating-block-1"), Location("repeating-group", 0, "repeating-block-2")]
  {
    TwoPeopleRepeat(store);
    HouseholdRoute("answer_count_minus_one", s, store, md, 1);
    FirstPeopleScreens();
  }

  lemma HouseholdWellFormed(tag: string)
    ensures WellFormed(HouseholdSchema(tag))
  {
    var s := HouseholdSchema(tag);
    assert forall g :: g in s.groups ==> g == s.groups[0] || g == s.groups[1];
  }

  lemma TwoPeoplePath(s: Schema, store: AnswerStore, md: Metadata)
    requires s == HouseholdSchema("answer_count") && store == [Person(0, "Joe Bloggs"), Person(1, "Sophie Bloggs")]
    ensures RoutingPath(s, store, md).Ok? && RoutingPath(s, store, md).value.ending == FellOffEnd
    ensures LocationPath(s, store, md)
            == Ok([Location("multiple-questions-group", 0, "introduction"), Location("multiple-questions-group", 0, "household-composition"),
                   Location("repeating-group", 0, "repeating-block-1"), Location("repeating-group", 0, "repeating-block-2"),
                   Location("repeating-group", 1, "repeating-block-1"), Location("repeating-group", 1, "repeating-block-2"),
                   Location("repeating-group", 0, "summary")])
  {
    TwoPeopleRepeat(store);
    HouseholdPath("answer_count", s, store, md, 2);
    TwoPeopleScreens();
  }

  lemma TwoPeopleScreens()
    ensures [Location("multiple-questions-group", 0, "introduction"), Location("multiple-questions-group", 0, "household-composition")]
            + PeopleScreens(2) + [Location("repeating-group", 0, "summary")]
            == [Location("multiple-questions-group", 0, "introduction"), Location("multiple-questions-group", 0, "household-composition"),
                Location("repeating-group", 0, "repeating-block-1"), Location("repeating-group", 0, "repeating-block-2"),
                Location("repeating-group", 1, "repeating-block-1"), Location("repeating-group", 1, "repeating-block-2"),
                Location("repeating-group", 0, "summary")]
  {
    FirstPeopleScreens();
  }

  /** test_repeating_groups_previous_location and
      test_repeating_groups_next_location: inside the second person's
      instance, back is that person's first screen and forward from their
      last screen is the summary. */
  lemma RepeatNeighbours(s: Schema, store: AnswerStore, md: Metadata)
    requires s == HouseholdSchema("answer_count") && store == [Person(0, "Joe Bloggs"), Person(1, "Sophie Bloggs")]
    ensures GetPreviousLocation(s, store, md, Location("repeating-group", 1, "repeating-block-2"))
            == Ok(Some(Location("repeating-group", 1, "repeating-block-1")))
    ensures GetNextLocation(s, store, md, Location("repeating-group", 1, "repeating-block-2"))
            == Ok(Some(Location("repeating-group", 0, "summary")))
  {
    TwoPeoplePath(s, store, md);
    HouseholdWellFormed("answer_count");
    PathProperties.NextIsFollowingScreen(s, store, md, 4);
    PathProperties.NextIsFollowingScreen(s, store, md, 5);
  }

  /** test_repeating_groups_previous_location_introduction: with nobody
      recorded yet, back from the household question is the introduction. */
  lemma BackToIntroduction(s: Schema, md: Metadata)
    requires s == HouseholdSchema("answer_count")
    ensures GetPreviousLocation(s, [], md, Location("multiple-questions-group", 0, "household-composition"))
            == Ok(Some(Location("multiple-questions-group", 0, "introduction")))
  {
    HouseholdPath("answer_count", s, [], md, 0);
    var path := LocationPath(s, [], md).value;
    assert path[0] == Location("multiple-questions-group", 0, "introduction");
    assert path[1] == Location("multiple-questions-group", 0, "household-composition");
    HouseholdWellFormed("answer_count");
    PathProperties.NextIsFollowingScreen(s, [], md, 0);
  }

  // A repeat read from a number, with a block skipped per instance: the age
  // question is skipped in each instance whose own answer says "Shoe Size
  // Only".

  function ShoeSizeOnly(): When {
    [AnswerEquals("conditional-answer", "Shoe Size Only")]
  }

  function RepeatedBlocks(): seq<Block> {
    [Plain("repeated-block"), Block("age-block", Some(ShoeSizeOnly()), []), Plain("shoe-size-block")]
  }

  function ConditionalSchema(): Schema {
    Schema([Group("repeat-value-group", [Plain("no-of-repeats")], None, None, Titled("")),
            Group("repeated-group", RepeatedBlocks(), None, Some(RepeatRule("answer_value", "no-of-repeats-answer")), Titled(""))],
           true, ["summary", "thank-you"])
  }

  function ConditionalAnswers(): AnswerStore {
    [Given("repeat-value-group", 0, "no-of-repeats", "no-of-repeats-answer", 0, "2"),
     Given("repeated-group", 0, "repeated-block", "conditional-answer", 0, "Age and Shoe Size"),
     Given("repeated-group", 1, "repeated-block", "conditional-answer", 0, "Shoe Size Only")]
  }

  lemma ConditionalAnswersRead(store: AnswerStore, md: Metadata)
    requires store == ConditionalAnswers()
    ensures RepeatCount(RepeatRule("answer_value", "no-of-repeats-answer"), store, 0) == Ok(2)
    ensures !BlockSkipped(RepeatedBlocks()[1], store, md, 0)
    ensures BlockSkipped(RepeatedBlocks()[1], store, md, 1)
  {
    assert FindAnswer(store, "no-of-repeats-answer", 0) == Some("2");
    assert Text.ParseDecimal("2") == Some(2);
    assert FindAnswer(store, "conditional-answer", 0) == Some("Age and Shoe Size");
    assert !ConditionHolds(ShoeSizeOnly()[0], store, md, 0);
    assert FindAnswer(store[1..], "conditional-answer", 1) == Some("Shoe Size Only");
    assert FindAnswer(store, "conditional-answer", 1) == Some("Shoe Size Only");
  }

  function FirstPersonScreens(): seq<Location> {
    [Location("repeated-group", 0, "repeated-block"), Location("repeated-group", 0, "age-block"), Location("repeated-group", 0, "shoe-size-block")]
  }

  function SecondPersonScreens(): seq<Location> {
    [Location("repeated-group", 1, "repeated-block"), Location("repeated-group", 1, "shoe-size-block")]
  }

  lemma ConditionalFirstInstance(store: AnswerStore, md: Metadata)
    requires !BlockSkipped(RepeatedBlocks()[1], store, md, 0)
    ensures InstanceEntries("repeated-group", RepeatedBlocks(), 0, store, md) == Screens(FirstPersonScreens())
  {
    var bs := RepeatedBlocks();
    assert [bs[2]] + [] == [bs[2]] && [bs[1]] + [bs[2]] == bs[1..] && [bs[0]] + bs[1..] == bs;
    assert InstanceEntries("repeated-group", [], 0, store, md) == [];
    KeepBlock("repeated-group", bs[2], [], 0, store, md);
    KeepBlock("repeated-group", bs[1], [bs[2]], 0, store, md);
    KeepBlock("repeated-group", bs[0], bs[1..], 0, store, md);
    var ls := FirstPersonScreens();
    assert InstanceEntries("repeated-group", bs, 0, store, md) == [Entry(ls[0], [])] + ([Entry(ls[1], [])] + ([Entry(ls[2], [])] + []));
  }

  lemma ConditionalSecondInstance(store: AnswerStore, md: Metadata)
    requires BlockSkipped(RepeatedBlocks()[1], store, md, 1)
    ensures InstanceEntries("repeated-group", RepeatedBlocks(), 1, store, md) == Screens(SecondPersonScreens())
  {
    var bs := RepeatedBlocks();
    assert [bs[2]] + [] == [bs[2]] && [bs[1]] + [bs[2]] == bs[1..] && [bs[0]] + bs[1..] == bs;
    assert InstanceEntries("repeated-group", [], 1, store, md) == [];
    KeepBlock("repeated-group", bs[2], [], 1, store, md);
    DropBlock("repeated-group", bs[1], [bs[2]], 1, store, md);
    KeepBlock("repeated-group", bs[0], bs[1..], 1, store, md);
    var ls := SecondPersonScreens();
    assert InstanceEntries("repeated-group", bs, 1, store, md) == [Entry(ls[0], [])] + ([Entry(ls[1], [])] + []);
  }

  function ConditionalScreens(): seq<Location> {
    [Location("repeat-value-group", 0, "no-of-repeats")] + FirstPersonScreens() + SecondPersonScreens()
  }

  lemma ConditionalPeople(store: AnswerStore, md: Metadata)
    requires !BlockSkipped(RepeatedBlocks()[1], store, md, 0) && BlockSkipped(RepeatedBlocks()[1], store, md, 1)
    ensures InstancesEntries("repeated-group", RepeatedBlocks(), 2, store, md)
            == Screens(FirstPersonScreens()) + Screens(SecondPersonScreens())
  {
    var bs := RepeatedBlocks();
    ConditionalFirstInstance(store, md);
    ConditionalSecondInstance(store, md);
    NextInstance("repeated-group", bs, 0, store, md);
    NextInstance("repeated-group", bs, 1, store, md);
    assert [] + Screens(FirstPersonScreens()) == Screens(FirstPersonScreens());
  }

  lemma ConditionalScreensSplit(first: Location)
    requires first == Location("repeat-value-group", 0, "no-of-repeats")
    ensures [Entry(first, [])] + (Screens(FirstPersonScreens()) + Screens(SecondPersonScreens()))
            == Screens(ConditionalScreens())
  {
    ScreensConcat(FirstPersonScreens(), SecondPersonScreens());
    assert [Entry(first, [])] == Screens([first]);
    ScreensConcat([first], FirstPersonScreens() + SecondPersonScreens());
    assert [first] + (FirstPersonScreens() + SecondPersonScreens()) == ConditionalScreens();
  }

  lemma ConditionalEntries(store: AnswerStore, md: Metadata)
    requires RepeatCount(RepeatRule("answer_value", "no-of-repeats-answer"), store, 0) == Ok(2)
    requires !BlockSkipped(RepeatedBlocks()[1], store, md, 0) && BlockSkipped(RepeatedBlocks()[1], store, md, 1)
    ensures Expand(ConditionalSchema().groups, store, md) == Ok(Screens(ConditionalScreens()))
  {
    var gs := ConditionalSchema().groups;
    ConditionalPeople(store, md);
    OneBlockGroup(gs[0], store, md);
    GroupOf(gs[1], store, md, 2);
    TwoGroups(gs[0], gs[1], store, md, [Entry(Location("repeat-value-group", 0, "no-of-repeats"), [])],
              Screens(FirstPersonScreens()) + Screens(SecondPersonScreens()));
    assert gs == [gs[0], gs[1]];
    ConditionalScreensSplit(Location("repeat-value-group", 0, "no-of-repeats"));
  }

  lemma ConditionalRoute(s: Schema, store: AnswerStore, md: Metadata)
    requires s == ConditionalSchema()
    requires RepeatCount(RepeatRule("answer_value", "no-of-repeats-answer"), store, 0) == Ok(2)
    requires !BlockSkipped(RepeatedBlocks()[1], store, md, 0) && BlockSkipped(RepeatedBlocks()[1], store, md, 1)
    ensures RoutingPath(s, store, md) == Ok(Route(ConditionalScreens(), FellOffEnd))
  {
    ConditionalEntries(store, md);
    WalkScreens(ConditionalScreens(), store, md);
  }

  lemma ConditionalEnds(s: Schema)
    requires s == ConditionalSchema()
    ensures Preamble(s) == [Location("repeat-value-group", 0, "introduction")]
    ensures Closing(s) == [Location("repeated-group", 0, "summary"), Location("repeated-group", 0, "thank-you")]
  {
    var c := Closing(s);
    assert |c| == 2 && c[0] == Location("repeated-group", 0, "summary") && c[1] == Location("repeated-group", 0, "thank-you");
  }

  lemma ConditionalFullPath()
    ensures [Location("repeat-value-group", 0, "introduction")] + ConditionalScreens()
            + [Location("repeated-group", 0, "summary"), Location("repeated-group", 0, "thank-you")]
            == [Location("repeat-value-group", 0, "introduction"), Location("repeat-value-group", 0, "no-of-repeats"),
                Location("repeated-group", 0, "repeated-block"), Location("repeated-group", 0, "age-block"),
                Location("repeated-group", 0, "shoe-size-block"),
                Location("repeated-group", 1, "repeated-block"), Location("repeated-group", 1, "shoe-size-block"),
                Location("repeated-group", 0, "summary"), Location("repeated-group", 0, "thank-you")]
  {
  }

  lemma ConditionalPathFor(s: Schema, store: AnswerStore, md: Metadata)
    requires s == ConditionalSchema()
    requires RepeatCount(RepeatRule("answer_value", "no-of-repeats-answer"), store, 0) == Ok(2)
    requires !BlockSkipped(RepeatedBlocks()[1], store, md, 0) && BlockSkipped(RepeatedBlocks()[1], store, md, 1)
    ensures LocationPath(s, store, md)
            == Ok([Location("repeat-value-group", 0, "introduction"), Location("repeat-value-group", 0, "no-of-repeats"),
                   Location("repeated-group", 0, "repeated-block"), Location("repeated-group", 0, "age-block"),
                   Location("repeated-group", 0, "shoe-size-block"),
                   Location("repeated-group", 1, "repeated-block"), Location("repeated-group", 1, "shoe-size-block"),
                   Location("repeated-group", 0, "summary"), Location("repeated-group", 0, "thank-you")])
  {
    ConditionalRoute(s, store, md);
    ConditionalEnds(s);
    ConditionalFullPath();
  }

  /** test_repeating_groups_conditional_location_path: two instances, the
      age question asked only in the first, then both closing screens. */
  lemma ConditionalRepeatPath(s: Schema, store: AnswerStore, md: Metadata)
    requires s == ConditionalSchema() && store == ConditionalAnswers()
    ensures LocationPath(s, store, md)
            == Ok([Location("repeat-value-group", 0, "introduction"), Location("repeat-value-group", 0, "no-of-repeats"),
                   Location("repeated-group", 0, "repeated-block"), Location("repeated-group", 0, "age-block"),
                   Location("repeated-group", 0, "shoe-size-block"),
                   Location("repeated-group", 1, "repeated-block"), Location("repeated-group", 1, "shoe-size-block"),
                   Location("repeated-group", 0, "summary"), Location("repeated-group", 0, "thank-you")])
  {
    ConditionalAnswersRead(store, md);
    ConditionalPathFor(s, store, md);
  }

  // A first question that routes on its answer: one answer jumps to the
  // summary, two others go to different blocks, and the block reached on
  // "Light Side" routes on a question not yet answered.

  const SideAnswer: string := "ca3ce3a3-ae44-4e30-8f85-5b6a7a2fb23c"
  const SurveyGroup: string := "14ba4707-321d-441d-8d21-b8367366e766"
  const ChooseSide: string := "f22b1ba4-d15f-48b8-a1f3-db62b6f34cc0"
  const DarkSide: string := "923ccc84-9d47-4a02-8ebc-1e9d14fcf10b"
  const LightSide: string := "light-side-pick"

  function SideRules(): seq<Goto> {
    [Goto(ToSummary, [AnswerEquals(SideAnswer, "I prefer Star Trek")]),
     Goto(ToBlock(DarkSide), [AnswerEquals(SideAnswer, "Dark Side")]),
     Goto(ToBlock(LightSide), [AnswerEquals(SideAnswer, "Light Side")])]
  }

  function LightSideRules(): seq<Goto> {
    [Goto(ToBlock(DarkSide), [AnswerEquals("light-side-pick-answer", "Millennium Falcon")])]
  }

  function StarWarsSchema(): Schema {
    Schema([Group(SurveyGroup, [Block(ChooseSide, None, SideRules()), Plain(DarkSide), Block(LightSide, None, LightSideRules())],
                  None, None, Titled("Star Wars"))],
           true, ["summary"])
  }

  function StarWarsEntries(): seq<Entry> {
    [Entry(Location(SurveyGroup, 0, ChooseSide), SideRules()), Entry(Location(SurveyGroup, 0, DarkSide), []),
     Entry(Location(SurveyGroup, 0, LightSide), LightSideRules())]
  }

  lemma StarWarsInstance(store: AnswerStore, md: Metadata)
    ensures InstanceEntries(SurveyGroup, StarWarsSchema().groups[0].blocks, 0, store, md) == StarWarsEntries()
  {
    var bs := StarWarsSchema().groups[0].blocks;
    var es := StarWarsEntries();
    assert InstanceEntries(SurveyGroup, [], 0, store, md) == [];
    KeepBlock(SurveyGroup, bs[2], [], 0, store, md);
    KeepBlock(SurveyGroup, bs[1], [bs[2]], 0, store, md);
    KeepBlock(SurveyGroup, bs[0], [bs[1], bs[2]], 0, store, md);
    assert [bs[2]] + [] == [bs[2]] && [bs[1]] + [bs[2]] == [bs[1], bs[2]] && [bs[0]] + [bs[1], bs[2]] == bs;
    assert [es[0]] + ([es[1]] + ([es[2]] + [])) == es;
  }

  lemma StarWarsExpands(store: AnswerStore, md: Metadata)
    ensures Expand(StarWarsSchema().groups, store, md) == Ok(StarWarsEntries())
  {
    var g := StarWarsSchema().groups[0];
    var es := StarWarsEntries();
    StarWarsInstance(store, md);
    NextInstance(SurveyGroup, g.blocks, 0, store, md);
    assert [] + es == es;
    GroupOf(g, store, md, 1);
    ExpandCons(g, [], store, md, es, []);
    assert [g] + [] == StarWarsSchema().groups && es + [] == es;
  }

  lemma StarWarsEnds(s: Schema)
    requires s == StarWarsSchema()
    ensures Preamble(s) == [Location(SurveyGroup, 0, "introduction")]
    ensures Closing(s) == [Location(SurveyGroup, 0, "summary")]
  {
    var c := Closing(s);
    assert |c| == 1 && c[0] == Location(SurveyGroup, 0, "summary");
  }

  function SideAnswerGiven(value: string): AnswerStore {
    [Given(SurveyGroup, 0, ChooseSide, SideAnswer, 0, value)]
  }

  /** test_next_location_goto_summary: "I prefer Star Trek" jumps from the
      first question straight to the summary. */
  lemma StarTrekGoesToSummary(s: Schema, store: AnswerStore, md: Metadata)
    requires s == StarWarsSchema() && store == SideAnswerGiven("I prefer Star Trek")
    ensures LocationPath(s, store, md)
            == Ok([Location(SurveyGroup, 0, "introduction"), Location(SurveyGroup, 0, ChooseSide), Location(SurveyGroup, 0, "summary")])
    ensures GetNextLocation(s, store, md, Location(SurveyGroup, 0, ChooseSide)) == Ok(Some(Location(SurveyGroup, 0, "summary")))
  {
    var es := StarWarsEntries();
    StarWarsExpands(store, md);
    assert FindAnswer(store, SideAnswer, 0) == Some("I prefer Star Trek");
    assert WhenHolds(SideRules()[0].when, store, md, 0);
    assert FirstFiring(es[0].routing, store, md, 0) == Some(ToSummary);
    PathProperties.WalkToSummary(es, 0, store, md);
    var intro, summary := Location(SurveyGroup, 0, "introduction"), Location(SurveyGroup, 0, "summary");
    StarWarsEnds(s);
    PathFromRoute(s, store, md, Route([es[0].loc], JumpedToSummary), [intro], [summary]);
    assert [intro] + [es[0].loc] + [summary] == [intro, es[0].loc, summary];
    NextOfHead([es[0].loc, summary], es[0].loc, summary);
    assert IndexOf([intro, es[0].loc, summary], es[0].loc) == Some(1);
  }

  lemma LightSideRulesFire(store: AnswerStore, md: Metadata)
    requires store == SideAnswerGiven("Light Side")
    ensures FirstFiring(SideRules(), store, md, 0) == Some(ToBlock(LightSide))
    ensures FirstFiring(LightSideRules(), store, md, 0) == None
  {
    var rules := SideRules();
    assert FindAnswer(store, SideAnswer, 0) == Some("Light Side");
    assert !ConditionHolds(rules[0].when[0], store, md, 0) && !WhenHolds(rules[0].when, store, md, 0);
    assert !ConditionHolds(rules[1].when[0], store, md, 0) && !WhenHolds(rules[1].when, store, md, 0);
    assert WhenHolds(rules[2].when, store, md, 0);
    assert FirstFiring(rules[2..], store, md, 0) == Some(ToBlock(LightSide));
    assert FirstFiring(rules[1..], store, md, 0) == Some(ToBlock(LightSide));
    assert FindAnswer(store, "light-side-pick-answer", 0) == None;
    assert !ConditionHolds(LightSideRules()[0].when[0], store, md, 0);
  }

  lemma LightSideWalk(store: AnswerStore, md: Metadata)
    requires FirstFiring(SideRules(), store, md, 0) == Some(ToBlock(LightSide))
    requires FirstFiring(LightSideRules(), store, md, 0) == None
    ensures Walk(StarWarsEntries(), 0, store, md)
            == Ok(Route([Location(SurveyGroup, 0, ChooseSide), Location(SurveyGroup, 0, LightSide)], AwaitingAnswer))
  {
    var es := StarWarsEntries();
    assert IndexFrom(es, es[2].loc, 2) == Ok(2);
    assert IndexFrom(es, es[2].loc, 0) == Ok(2);
    PathProperties.WalkWaits(es, 2, store, md);
    PathProperties.WalkJump(es, 0, store, md, ToBlock(LightSide), 2, Route([es[2].loc], AwaitingAnswer));
    assert [es[0].loc] + [es[2].loc] == [es[0].loc, es[2].loc];
  }

  /** test_interstitial_post_blocks: after "Light Side" the path stops at a
      block whose rules wait for an answer, so the summary is not on it. */
  lemma LightSideStopsBeforeSummary(s: Schema, store: AnswerStore, md: Metadata)
    requires s == StarWarsSchema() && store == SideAnswerGiven("Light Side")
    ensures LocationPath(s, store, md)
            == Ok([Location(SurveyGroup, 0, "introduction"), Location(SurveyGroup, 0, ChooseSide), Location(SurveyGroup, 0, LightSide)])
    ensures Location(SurveyGroup, 0, "summary") !in LocationPath(s, store, md).value
  {
    var l1, l3 := Location(SurveyGroup, 0, ChooseSide), Location(SurveyGroup, 0, LightSide);
    StarWarsExpands(store, md);
    LightSideRulesFire(store, md);
    LightSideWalk(store, md);
    var intro := Location(SurveyGroup, 0, "introduction");
    StarWarsEnds(s);
    PathFromRoute(s, store, md, Route([l1, l3], AwaitingAnswer), [intro], [Location(SurveyGroup, 0, "summary")]);
    assert [intro] + [l1, l3] + [] == [intro, l1, l3];
  }

  /** test_block_index_for_location_with_invalid_location: a location whose
      group id is unknown, and one whose block id is unknown, are both not
      found even though the other two fields match an entry. */
  lemma UnknownLocationsNotFound(entries: seq<Entry>)
    requires entries == [Entry(Location("first-valid-group-id", 0, "first-valid-block-id"), []),
                         Entry(Location("second-valid-group-id", 0, "second-valid-block-id"), [])]
    ensures var badGroup := Location("this-group-id-doesnt-exist-in-the-list-of-blocks", 0, "first-valid-block-id");
            BlockIndexForLocation(entries, badGroup) == Err(LocationNotFound(badGroup))
    ensures var badBlock := Location("second-valid-group-id", 0, "this-block-id-doesnt-exist-in-the-list-of-blocks");
            BlockIndexForLocation(entries, badBlock) == Err(LocationNotFound(badBlock))
  {
    MismatchIsNotFound(entries, Location("this-group-id-doesnt-exist-in-the-list-of-blocks", 0, "first-valid-block-id"));
    MismatchIsNotFound(entries, Location("second-valid-group-id", 0, "this-block-id-doesnt-exist-in-the-list-of-blocks"));
  }

  function NameAnswers(): AnswerStore {
    [Answer("multiple-questions-group", 0, "household-composition", "first-name", 0, Some("Joe")),
     Answer("multiple-questions-group", 0, "household-composition", "middle-names", 0, None),
     Answer("multiple-questions-group", 0, "household-composition", "last-name", 0, Some("Bloggs")),
     Answer("multiple-questions-group", 0, "household-composition", "first-name", 1, Some("Jim")),
     Answer("multiple-questions-group", 0, "household-composition", "last-name", 1, None),
     Answer("multiple-questions-group", 0, "household-composition", "middle-names", 1, None)]
  }

  lemma NamePartsFound(store: AnswerStore)
    requires store == NameAnswers()
    ensures FrontEnd.NamePart(store, "first-name", 0) == Some("Joe")
    ensures FrontEnd.NamePart(store, "middle-names", 0) == None
    ensures FrontEnd.NamePart(store, "last-name", 0) == Some("Bloggs")
    ensures FrontEnd.NamePart(store, "first-name", 1) == Some("Jim")
    ensures FrontEnd.NamePart(store, "middle-names", 1) == None
    ensures FrontEnd.NamePart(store, "last-name", 1) == None
  {
    FrontEnd.NamePartFinds(store, "middle-names", 0);
    FrontEnd.NamePartFinds(store, "last-name", 1);
    FrontEnd.NamePartFinds(store, "middle-names", 1);
  }

  lemma FirstPersonParts(store: AnswerStore, ids: seq<string>)
    requires store == NameAnswers() && ids == ["first-name", "middle-names", "last-name"]
    ensures FrontEnd.PresentParts(store, ids, 0) == ["Joe", "Bloggs"]
  {
    NamePartsFound(store);
    assert ids[1..] == ["middle-names", "last-name"] && ids[2..] == ["last-name"] && ids[3..] == [];
    assert FrontEnd.PresentParts(store, ids[3..], 0) == [];
    assert FrontEnd.PresentParts(store, ids[2..], 0) == ["Bloggs"];
    assert FrontEnd.PresentParts(store, ids[1..], 0) == ["Bloggs"];
  }

  lemma SecondPersonParts(store: AnswerStore, ids: seq<string>)
    requires store == NameAnswers() && ids == ["first-name", "middle-names", "last-name"]
    ensures FrontEnd.PresentParts(store, ids, 1) == ["Jim"]
  {
    NamePartsFound(store);
    assert ids[1..] == ["middle-names", "last-name"] && ids[2..] == ["last-name"] && ids[3..] == [];
    assert FrontEnd.PresentParts(store, ids[3..], 1) == [];
    assert FrontEnd.PresentParts(store, ids[2..], 1) == [];
    assert FrontEnd.PresentParts(store, ids[1..], 1) == [];
  }

  /** test_navigation_repeating_group_link_name_format: the present parts of
      each person's name joined with a space, answers without a value
      dropped. */
  lemma PersonLinkNames(store: AnswerStore, ids: seq<string>)
    requires store == NameAnswers() && ids == ["first-name", "middle-names", "last-name"]
    ensures FrontEnd.PersonName(store, ids, 0) == "Joe Bloggs"
    ensures FrontEnd.PersonName(store, ids, 1) == "Jim"
  {
    FirstPersonParts(store, ids);
    SecondPersonParts(store, ids);
    assert Text.Join(["Joe", "Bloggs"], " ") == "Joe" + " " + "Bloggs";
  }
}
