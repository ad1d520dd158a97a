/** The front-end navigation list for a household-insurance questionnaire in
    the shape the navigator's tests use: four titled groups, a person-named
    group repeated once per household member, and an extra-cover group
    repeated by the value of an answer. Each scenario fixes the answers and
    the completed screens and gives the whole list. */
module NavigationScenarios {
  import opened Outcomes
  import opened Questionnaire
  import opened Rules
  import opened Paths
  import opened FrontEnd
  import Scenarios

  function PropertyDetails(): Group {
    Group("property-details",
          [Scenarios.Plain("insurance-type"), Scenarios.Plain("insurance-address"), Scenarios.Plain("property-interstitial")],
          None, None, Titled("Property Details"))
  }

  function HouseholdDetails(): Group {
    Group("multiple-questions-group", [Scenarios.Plain("household-composition")], None, None, Titled("Household Details"))
  }

  /** One instance per person named in the household composition. */
  function People(): Group {
    Group("repeating-group", Scenarios.HouseholdBlocks(), None, Some(RepeatRule("answer_count", "household-full-name")),
          PersonNamed(["household-full-name"]))
  }

  function ExtraCover(): Group {
    Group("extra-cover", [Scenarios.Plain("extra-cover-block"), Scenarios.Plain("extra-cover-interstitial")],
          None, None, Titled("Extra Cover"))
  }

  function PaymentDetails(): Group {
    Group("payment-details", [Scenarios.Plain("credit-card")], None, None, Titled("Payment Details"))
  }

  /** As many instances as the extra-cover answer says. */
  function ExtraCoverItems(): Group {
    Group("extra-cover-items-group", [Scenarios.Plain("extra-cover-items")], None,
          Some(RepeatRule("answer_value", "extra-cover-answer")), Titled("Extra Cover Items"))
  }

  function NavigationSchema(): Schema {
    Schema([PropertyDetails(), HouseholdDetails(), People(), ExtraCover(), PaymentDetails(), ExtraCoverItems()],
           true, ["summary"])
  }

  function Screen(groupId: string, gi: nat, blockId: string): Entry {
    Entry(Location(groupId, gi, blockId), [])
  }

  function HouseholdScreen(): Location {
    Location("multiple-questions-group", 0, "household-composition")
  }

  function PaymentScreen(): Location {
    Location("payment-details", 0, "credit-card")
  }

  function GroupLink(title: string, completed: bool, highlight: bool, link: Location): NavEntry {
    NavEntry(title, false, completed, highlight, link)
  }

  function PersonLink(name: string, completed: bool, link: Location): NavEntry {
    NavEntry(name, true, completed, false, link)
  }

  // Assembling the list one group at a time.

  lemma NavCons(g: Group, rest: seq<Group>, store: AnswerStore, md: Metadata, completed: seq<Location>,
                currentGroup: string, currentInstance: nat, head: seq<NavEntry>, tail: seq<NavEntry>)
    requires GroupEntries(g, store, md).Ok?
    requires GroupNavIn(g, store, completed, currentGroup, currentInstance, md) == head
    requires Navigation(rest, store, md, completed, currentGroup, currentInstance) == Ok(tail)
    ensures Navigation([g] + rest, store, md, completed, currentGroup, currentInstance) == Ok(head + tail)
  {
    NavigationCons([g] + rest, store, md, completed, currentGroup, currentInstance);
    assert ([g] + rest)[0] == g && ([g] + rest)[1..] == rest;
  }

  lemma NavigationOfThree(g1: Group, g2: Group, g3: Group, store: AnswerStore, md: Metadata, completed: seq<Location>,
                          currentGroup: string, currentInstance: nat, a: seq<NavEntry>, b: seq<NavEntry>, c: seq<NavEntry>,
                          tail: seq<NavEntry>, rest: seq<Group>)
    requires GroupEntries(g1, store, md).Ok? && GroupEntries(g2, store, md).Ok? && GroupEntries(g3, store, md).Ok?
    requires GroupNavIn(g1, store, completed, currentGroup, currentInstance, md) == a
    requires GroupNavIn(g2, store, completed, currentGroup, currentInstance, md) == b
    requires GroupNavIn(g3, store, completed, currentGroup, currentInstance, md) == c
    requires Navigation(rest, store, md, completed, currentGroup, currentInstance) == Ok(tail)
    ensures Navigation([g1, g2, g3] + rest, store, md, completed, currentGroup, currentInstance) == Ok(a + (b + (c + tail)))
  {
    NavCons(g3, rest, store, md, completed, currentGroup, currentInstance, c, tail);
    NavCons(g2, [g3] + rest, store, md, completed, currentGroup, currentInstance, b, c + tail);
    NavCons(g1, [g2] + ([g3] + rest), store, md, completed, currentGroup, currentInstance, a, b + (c + tail));
    assert [g1] + ([g2] + ([g3] + rest)) == [g1, g2, g3] + rest;
  }

  lemma NavigationOfSix(g1: Group, g2: Group, g3: Group, g4: Group, g5: Group, g6: Group,
                        store: AnswerStore, md: Metadata, completed: seq<Location>, currentGroup: string, currentInstance: nat,
                        a: seq<NavEntry>, b: seq<NavEntry>, c: seq<NavEntry>, d: seq<NavEntry>, e: seq<NavEntry>, f: seq<NavEntry>)
    requires GroupEntries(g1, store, md).Ok? && GroupEntries(g2, store, md).Ok? && GroupEntries(g3, store, md).Ok?
    requires GroupEntries(g4, store, md).Ok? && GroupEntries(g5, store, md).Ok? && GroupEntries(g6, store, md).Ok?
    requires GroupNavIn(g1, store, completed, currentGroup, currentInstance, md) == a
    requires GroupNavIn(g2, store, completed, currentGroup, currentInstance, md) == b
    requires GroupNavIn(g3, store, completed, currentGroup, currentInstance, md) == c
    requires GroupNavIn(g4, store, completed, currentGroup, currentInstance, md) == d
    requires GroupNavIn(g5, store, completed, currentGroup, currentInstance, md) == e
    requires GroupNavIn(g6, store, completed, currentGroup, currentInstance, md) == f
    ensures Navigation([g1, g2, g3, g4, g5, g6], store, md, completed, currentGroup, currentInstance)
            == Ok(a + (b + (c + (d + (e + (f + []))))))
  {
    assert Navigation([], store, md, completed, currentGroup, currentInstance) == Ok([]);
    NavigationOfThree(g4, g5, g6, store, md, completed, currentGroup, currentInstance, d, e, f, [], []);
    NavigationOfThree(g1, g2, g3, store, md, completed, currentGroup, currentInstance, a, b, c, d + (e + (f + [])), [g4, g5, g6] + []);
    assert [g1, g2, g3] + ([g4, g5, g6] + []) == [g1, g2, g3, g4, g5, g6];
  }

  /** The list for the questionnaire is the six groups' links, in order. */
  lemma NavigationOfGroups(store: AnswerStore, md: Metadata, completed: seq<Location>, currentGroup: string, currentInstance: nat,
                           a: seq<NavEntry>, b: seq<NavEntry>, c: seq<NavEntry>, d: seq<NavEntry>, e: seq<NavEntry>, f: seq<NavEntry>)
    requires GroupEntries(PropertyDetails(), store, md).Ok? && GroupEntries(HouseholdDetails(), store, md).Ok?
    requires GroupEntries(People(), store, md).Ok? && GroupEntries(ExtraCover(), store, md).Ok?
    requires GroupEntries(PaymentDetails(), store, md).Ok? && GroupEntries(ExtraCoverItems(), store, md).Ok?
    requires GroupNavIn(PropertyDetails(), store, completed, currentGroup, currentInstance, md) == a
    requires GroupNavIn(HouseholdDetails(), store, completed, currentGroup, currentInstance, md) == b
    requires GroupNavIn(People(), store, completed, currentGroup, currentInstance, md) == c
    requires GroupNavIn(ExtraCover(), store, completed, currentGroup, currentInstance, md) == d
    requires GroupNavIn(PaymentDetails(), store, completed, currentGroup, currentInstance, md) == e
    requires GroupNavIn(ExtraCoverItems(), store, completed, currentGroup, currentInstance, md) == f
    ensures FrontEndNavigation(NavigationSchema(), store, md, completed, currentGroup, currentInstance)
            == Ok(a + b + c + d + e + f)
  {
    NavigationOfSix(PropertyDetails(), HouseholdDetails(), People(), ExtraCover(), PaymentDetails(),
                    ExtraCoverItems(), store, md, completed, currentGroup, currentInstance, a, b, c, d, e, f);
    var groups := [PropertyDetails(), HouseholdDetails(), People(), ExtraCover(), PaymentDetails(), ExtraCoverItems()];
    FrontEndOf(NavigationSchema(), groups, store, md, completed, currentGroup, currentInstance);
    Regroup(a, b, c, d, e, f);
  }

  lemma Regroup<T>(a: seq<T>, b: seq<T>, c: seq<T>, d: seq<T>, e: seq<T>, f: seq<T>)
    ensures a + (b + (c + (d + (e + (f + []))))) == a + b + c + d + e + f
  {
    assert f + [] == f;
    ConcatAssoc(e, f, []);
    ConcatAssoc(d, e, f);
    ConcatAssoc(c, d, e + f);
    ConcatAssoc(c + d, e, f);
    ConcatAssoc(b, c, d + (e + f));
    ConcatAssoc(b, c + d, e + f);
    ConcatAssoc(a, b, c + (d + (e + f)));
    ConcatAssoc(a + b, c, d + (e + f));
    ConcatAssoc(a + b + c, d, e + f);
    ConcatAssoc(a + b + c + d, e, f);
  }

  lemma FrontEndOf(s: Schema, groups: seq<Group>, store: AnswerStore, md: Metadata, completed: seq<Location>,
                   currentGroup: string, currentInstance: nat)
    requires s.groups == groups
    ensures FrontEndNavigation(s, store, md, completed, currentGroup, currentInstance)
            == Navigation(groups, store, md, completed, currentGroup, currentInstance)
  {
  }

  // The list as the tests write it.

  lemma JoinTitled<T>(p: T, h: T, x: T, y: T)
    ensures [p] + [h] + [] + [x] + [y] + [] == [p, h, x, y]
  {
  }

  lemma JoinPeople<T>(p: T, h: T, j: T, b: T, x: T, y: T)
    ensures [p] + [h] + [j, b] + [x] + [y] + [] == [p, h, j, b, x, y]
  {
  }

  lemma JoinPeopleAndItems<T>(p: T, h: T, j: T, b: T, x: T, y: T, z: T)
    ensures [p] + [h] + [j, b] + [x] + [y] + [z] == [p, h, j, b, x, y, z]
  {
  }

  lemma JoinItems<T>(p: T, h: T, x: T, y: T, z: T)
    ensures [p] + [h] + [] + [x] + [y] + [z] == [p, h, x, y, z]
  {
  }

  // The screens of each group.

  lemma SingleInstance(g: Group, store: AnswerStore, md: Metadata, es: seq<Entry>)
    requires g.skip.None? && g.repeat.None? && InstanceEntries(g.id, g.blocks, 0, store, md) == es
    ensures GroupEntries(g, store, md) == Ok(es)
  {
    Scenarios.NextInstance(g.id, g.blocks, 0, store, md);
    assert [] + es == es;
    Scenarios.GroupOf(g, store, md, 1);
  }

  lemma OneKept(groupId: string, b: Block, gi: nat, store: AnswerStore, md: Metadata)
    requires b.skip.None?
    ensures InstanceEntries(groupId, [b], gi, store, md) == [Entry(Location(groupId, gi, b.id), b.routing)]
  {
    assert InstanceEntries(groupId, [], gi, store, md) == [];
    Scenarios.KeepBlock(groupId, b, [], gi, store, md);
    assert [b] + [] == [b];
  }

  lemma TwoKept(groupId: string, b1: Block, b2: Block, gi: nat, store: AnswerStore, md: Metadata)
    requires b1.skip.None? && b2.skip.None?
    ensures InstanceEntries(groupId, [b1, b2], gi, store, md)
            == [Entry(Location(groupId, gi, b1.id), b1.routing), Entry(Location(groupId, gi, b2.id), b2.routing)]
  {
    OneKept(groupId, b2, gi, store, md);
    Scenarios.KeepBlock(groupId, b1, [b2], gi, store, md);
    assert [b1] + [b2] == [b1, b2];
  }

  /** A titled group gets one link, to its first screen, completed exactly
      when all its screens are. */
  lemma TitledLink(g: Group, store: AnswerStore, md: Metadata, completed: seq<Location>, currentGroup: string, currentInstance: nat,
                   es: seq<Entry>, screens: seq<Location>, done: bool)
    requires g.nav.Titled? && GroupEntries(g, store, md) == Ok(es) && |es| > 0 && Locs(es) == screens
    requires AllIn(screens, completed) == done
    ensures GroupNavIn(g, store, completed, currentGroup, currentInstance, md)
            == [GroupLink(g.nav.title, done, g.id == currentGroup, screens[0])]
  {
  }

  function PropertyScreens(): seq<Location> {
    [Location("property-details", 0, "insurance-type"), Location("property-details", 0, "insurance-address"),
     Location("property-details", 0, "property-interstitial")]
  }

  lemma PropertyEntries(store: AnswerStore, md: Metadata)
    ensures GroupEntries(PropertyDetails(), store, md).Ok?
    ensures Locs(GroupEntries(PropertyDetails(), store, md).value) == PropertyScreens()
  {
    var g := PropertyDetails();
    Scenarios.ThreeKept(g.id, g.blocks[0], g.blocks[1], g.blocks[2], 0, store, md);
    assert [g.blocks[0], g.blocks[1], g.blocks[2]] == g.blocks;
    var es := [Screen(g.id, 0, "insurance-type"), Screen(g.id, 0, "insurance-address"), Screen(g.id, 0, "property-interstitial")];
    SingleInstance(g, store, md, es);
    assert Locs(es) == PropertyScreens();
  }

  lemma PropertyLink(store: AnswerStore, md: Metadata, completed: seq<Location>, currentGroup: string, currentInstance: nat, done: bool)
    requires AllIn(PropertyScreens(), completed) == done
    ensures GroupEntries(PropertyDetails(), store, md).Ok?
    ensures GroupNavIn(PropertyDetails(), store, completed, currentGroup, currentInstance, md)
            == [GroupLink("Property Details", done, "property-details" == currentGroup, Location("property-details", 0, "insurance-type"))]
  {
    PropertyEntries(store, md);
    var es := GroupEntries(PropertyDetails(), store, md).value;
    TitledLink(PropertyDetails(), store, md, completed, currentGroup, currentInstance, es, PropertyScreens(), done);
  }

  lemma OneScreenLink(g: Group, store: AnswerStore, md: Metadata, completed: seq<Location>, currentGroup: string, currentInstance: nat,
                      done: bool)
    requires g.nav.Titled? && g.skip.None? && g.repeat.None? && |g.blocks| == 1 && g.blocks[0] == Scenarios.Plain(g.blocks[0].id)
    requires AllIn([Location(g.id, 0, g.blocks[0].id)], completed) == done
    ensures GroupEntries(g, store, md).Ok?
    ensures GroupNavIn(g, store, completed, currentGroup, currentInstance, md)
            == [GroupLink(g.nav.title, done, g.id == currentGroup, Location(g.id, 0, g.blocks[0].id))]
  {
    OneKept(g.id, g.blocks[0], 0, store, md);
    assert [g.blocks[0]] == g.blocks;
    var es := [Screen(g.id, 0, g.blocks[0].id)];
    SingleInstance(g, store, md, es);
    assert Locs(es) == [Location(g.id, 0, g.blocks[0].id)];
    TitledLink(g, store, md, completed, currentGroup, currentInstance, es, Locs(es), done);
  }

  lemma HouseholdLink(store: AnswerStore, md: Metadata, completed: seq<Location>, currentGroup: string, currentInstance: nat, done: bool)
    requires AllIn([HouseholdScreen()], completed) == done
    ensures GroupEntries(HouseholdDetails(), store, md).Ok?
    ensures GroupNavIn(HouseholdDetails(), store, completed, currentGroup, currentInstance, md)
            == [GroupLink("Household Details", done, "multiple-questions-group" == currentGroup,
                          HouseholdScreen())]
  {
    OneScreenLink(HouseholdDetails(), store, md, completed, currentGroup, currentInstance, done);
  }

  lemma PaymentLink(store: AnswerStore, md: Metadata, completed: seq<Location>, currentGroup: string, currentInstance: nat, done: bool)
    requires AllIn([PaymentScreen()], completed) == done
    ensures GroupEntries(PaymentDetails(), store, md).Ok?
    ensures GroupNavIn(PaymentDetails(), store, completed, currentGroup, currentInstance, md)
            == [GroupLink("Payment Details", done, "payment-details" == currentGroup, PaymentScreen())]
  {
    OneScreenLink(PaymentDetails(), store, md, completed, currentGroup, currentInstance, done);
  }

  function ExtraCoverScreens(): seq<Location> {
    [Location("extra-cover", 0, "extra-cover-block"), Location("extra-cover", 0, "extra-cover-interstitial")]
  }

  lemma ExtraCoverEntries(store: AnswerStore, md: Metadata)
    ensures GroupEntries(ExtraCover(), store, md).Ok?
    ensures Locs(GroupEntries(ExtraCover(), store, md).value) == ExtraCoverScreens()
  {
    var g := ExtraCover();
    TwoKept(g.id, g.blocks[0], g.blocks[1], 0, store, md);
    assert [g.blocks[0], g.blocks[1]] == g.blocks;
    var es := [Screen(g.id, 0, "extra-cover-block"), Screen(g.id, 0, "extra-cover-interstitial")];
    SingleInstance(g, store, md, es);
    assert Locs(es) == ExtraCoverScreens();
  }

  lemma ExtraCoverLink(store: AnswerStore, md: Metadata, completed: seq<Location>, currentGroup: string, currentInstance: nat, done: bool)
    requires AllIn(ExtraCoverScreens(), completed) == done
    ensures GroupEntries(ExtraCover(), store, md).Ok?
    ensures GroupNavIn(ExtraCover(), store, completed, currentGroup, currentInstance, md)
            == [GroupLink("Extra Cover", done, "extra-cover" == currentGroup, Location("extra-cover", 0, "extra-cover-block"))]
  {
    ExtraCoverEntries(store, md);
    var es := GroupEntries(ExtraCover(), store, md).value;
    TitledLink(ExtraCover(), store, md, completed, currentGroup, currentInstance, es, ExtraCoverScreens(), done);
  }

  /** A repeating group with no instance has no screens and no link. */
  lemma NoInstancesNoLink(g: Group, store: AnswerStore, md: Metadata, completed: seq<Location>, currentGroup: string, currentInstance: nat)
    requires g.skip.None? && InstanceCount(g, store) == Ok(0)
    ensures GroupEntries(g, store, md) == Ok([])
    ensures GroupNavIn(g, store, completed, currentGroup, currentInstance, md) == []
  {
    Scenarios.GroupOf(g, store, md, 0);
  }

  function ItemsScreens(): seq<Location> {
    [Location("extra-cover-items-group", 0, "extra-cover-items"), Location("extra-cover-items-group", 1, "extra-cover-items")]
  }

  lemma TwoItemsEntries(store: AnswerStore, md: Metadata)
    requires InstanceCount(ExtraCoverItems(), store) == Ok(2)
    ensures GroupEntries(ExtraCoverItems(), store, md).Ok?
    ensures Locs(GroupEntries(ExtraCoverItems(), store, md).value) == ItemsScreens()
  {
    var g := ExtraCoverItems();
    OneKept(g.id, g.blocks[0], 0, store, md);
    OneKept(g.id, g.blocks[0], 1, store, md);
    assert [g.blocks[0]] == g.blocks;
    Scenarios.NextInstance(g.id, g.blocks, 0, store, md);
    Scenarios.NextInstance(g.id, g.blocks, 1, store, md);
    var es := [Screen(g.id, 0, "extra-cover-items"), Screen(g.id, 1, "extra-cover-items")];
    assert InstancesEntries(g.id, g.blocks, 2, store, md) == es;
    Scenarios.GroupOf(g, store, md, 2);
    assert Locs(es) == ItemsScreens();
  }

  /** Two extra-cover items: one titled link, to the first instance,
      completed exactly when both instances are. */
  lemma TwoItemsLink(store: AnswerStore, md: Metadata, completed: seq<Location>, currentGroup: string, currentInstance: nat, done: bool)
    requires InstanceCount(ExtraCoverItems(), store) == Ok(2)
    requires AllIn(ItemsScreens(), completed) == done
    ensures GroupEntries(ExtraCoverItems(), store, md).Ok?
    ensures GroupNavIn(ExtraCoverItems(), store, completed, currentGroup, currentInstance, md)
            == [GroupLink("Extra Cover Items", done, "extra-cover-items-group" == currentGroup,
                          Location("extra-cover-items-group", 0, "extra-cover-items"))]
  {
    TwoItemsEntries(store, md);
    var es := GroupEntries(ExtraCoverItems(), store, md).value;
    TitledLink(ExtraCoverItems(), store, md, completed, currentGroup, currentInstance, es, ItemsScreens(), done);
  }

  function PersonScreens(i: nat): seq<Location> {
    [Location("repeating-group", i, "repeating-block-1"), Location("repeating-group", i, "repeating-block-2")]
  }

  lemma TwoPeopleInstanceScreens(locs: seq<Location>)
    requires locs == PersonScreens(0) + PersonScreens(1)
    ensures InstanceScreens(locs, 0) == PersonScreens(0)
    ensures InstanceScreens(locs, 1) == PersonScreens(1)
  {
    var l0, l1, l2, l3 := locs[0], locs[1], locs[2], locs[3];
    assert locs[1..] == [l1, l2, l3] && locs[1..][1..] == [l2, l3] && locs[1..][1..][1..] == [l3];
    assert [l3][1..] == [];
    assert InstanceScreens([], 0) == [] && InstanceScreens([], 1) == [];
    assert InstanceScreens([l3], 0) == [] && InstanceScreens([l3], 1) == [l3];
    assert InstanceScreens([l2, l3], 0) == [] && InstanceScreens([l2, l3], 1) == [l2, l3];
    assert InstanceScreens([l1, l2, l3], 0) == [l1] && InstanceScreens([l1, l2, l3], 1) == [l2, l3];
  }

  lemma PeopleEntries(store: AnswerStore, md: Metadata)
    requires InstanceCount(People(), store) == Ok(2)
    ensures GroupEntries(People(), store, md).Ok?
    ensures Locs(GroupEntries(People(), store, md).value) == PersonScreens(0) + PersonScreens(1)
  {
    Scenarios.GroupOf(People(), store, md, 2);
    Scenarios.HouseholdInstances(2, store, md);
    Scenarios.FirstPeopleScreens();
  }

  /** The entries of two instances that both have screens. */
  lemma TwoPersonEntries(groupId: string, locs: seq<Location>, names: seq<string>, completed: seq<Location>,
                         currentGroup: string, currentInstance: nat)
    requires |names| >= 2 && |InstanceScreens(locs, 0)| > 0 && |InstanceScreens(locs, 1)| > 0
    ensures PersonEntries(groupId, locs, names, completed, currentGroup, currentInstance, 2)
            == [PersonEntry(groupId, locs, names, completed, currentGroup, currentInstance, 0),
                PersonEntry(groupId, locs, names, completed, currentGroup, currentInstance, 1)]
  {
    var p0 := PersonEntry(groupId, locs, names, completed, currentGroup, currentInstance, 0);
    var p1 := PersonEntry(groupId, locs, names, completed, currentGroup, currentInstance, 1);
    assert PersonEntries(groupId, locs, names, completed, currentGroup, currentInstance, 0) == [];
    assert PersonEntries(groupId, locs, names, completed, currentGroup, currentInstance, 1) == [] + [p0];
  }

  /** Two people: one link each, to the first screen of their own instance,
      labelled with their name and completed exactly when that instance is. */
  lemma TwoPeopleLinks(store: AnswerStore, md: Metadata, completed: seq<Location>, currentGroup: string, currentInstance: nat,
                       name0: string, name1: string, done0: bool, done1: bool)
    requires InstanceCount(People(), store) == Ok(2) && currentGroup != "repeating-group"
    requires PersonName(store, ["household-full-name"], 0) == name0 && PersonName(store, ["household-full-name"], 1) == name1
    requires AllIn(PersonScreens(0), completed) == done0 && AllIn(PersonScreens(1), completed) == done1
    ensures GroupEntries(People(), store, md).Ok?
    ensures GroupNavIn(People(), store, completed, currentGroup, currentInstance, md)
            == [PersonLink(name0, done0, Location("repeating-group", 0, "repeating-block-1")),
                PersonLink(name1, done1, Location("repeating-group", 1, "repeating-block-1"))]
  {
    var g := People();
    PeopleEntries(store, md);
    var locs := Locs(GroupEntries(g, store, md).value);
    TwoPeopleInstanceScreens(locs);
    var names := PersonNames(store, ["household-full-name"], 2);
    TwoPersonEntries(g.id, locs, names, completed, currentGroup, currentInstance);
  }

  /** A one-part name is the value of that part. */
  lemma OnePartName(store: AnswerStore, id: string, ai: nat, v: string)
    requires NamePart(store, id, ai) == Some(v)
    ensures PersonName(store, [id], ai) == v
  {
    assert [id][1..] == [];
    assert PresentParts(store, [], ai) == [];
    assert PresentParts(store, [id], ai) == [v] + [];
  }

  // The counts read from the answers.

  lemma NobodyCounted(store: AnswerStore)
    requires forall a :: a in store ==> a.answerId != "household-full-name"
    ensures InstanceCount(People(), store) == Ok(0)
  {
    assert InstancesOf(store, "household-full-name", 0) == {};
  }

  lemma NoItemsCounted(store: AnswerStore)
    requires forall a :: a in store ==> a.answerId != "extra-cover-answer"
    ensures InstanceCount(ExtraCoverItems(), store) == Ok(0)
  {
    assert FindAnswer(store, "extra-cover-answer", 0).None?;
  }

  lemma TwoItemsCounted(store: AnswerStore)
    requires FindAnswer(store, "extra-cover-answer", 0) == Some("2")
    ensures InstanceCount(ExtraCoverItems(), store) == Ok(2)
  {
    assert Text.NatToDecimal(2) == "2";
  }

  lemma TwoPeopleCounted(store: AnswerStore)
    requires InstancesOf(store, "household-full-name", 0) == {0, 1}
    ensures InstanceCount(People(), store) == Ok(2)
  {
  }

  // Which groups are completed.

  lemma Missing(locs: seq<Location>, completed: seq<Location>, l: Location)
    requires l in locs && l !in completed
    ensures !AllIn(locs, completed)
  {
  }

  lemma BothIn(a: Location, b: Location, completed: seq<Location>)
    requires a in completed && b in completed
    ensures AllIn([a, b], completed)
  {
  }

  // The tests' answers and completed screens.

  function Intro(): Location {
    Location("property-details", 0, "introduction")
  }

  function HouseholdAnswer(ai: nat, value: string): Answer {
    Answer("multiple-questions-group", 0, "household-composition", "household-full-name", ai, Some(value))
  }

  function Unanswered(gi: nat, blockId: string, answerId: string): Answer {
    Answer("repeating-group", gi, blockId, answerId, 0, None)
  }

  function HouseholdAnswers(): AnswerStore {
    [HouseholdAnswer(0, "Jim"), HouseholdAnswer(1, "Ben"),
     Unanswered(0, "repeating-block-1", "what-is-your-age"), Unanswered(0, "repeating-block-2", "what-is-your-shoe-size"),
     Unanswered(1, "repeating-block-1", "what-is-your-age"), Unanswered(1, "repeating-block-2", "what-is-your-shoe-size")]
  }

  function HouseholdCompleted(): seq<Location> {
    [Intro(), HouseholdScreen()] + PersonScreens(0) + PersonScreens(1)
  }

  function ExtraCoverAnswer(ai: nat): Answer {
    Answer("extra-cover", 0, "extra-cover-block", "extra-cover-answer", ai, Some("2"))
  }

  function ItemsAnswers(): AnswerStore {
    [ExtraCoverAnswer(0),
     Answer("extra-cover-items-group", 0, "extra-cover-items", "extra-cover-items-answer", 0, Some("2")),
     Answer("extra-cover-items-group", 1, "extra-cover-items", "extra-cover-items-answer", 0, Some("2"))]
  }

  function ItemsCompleted(): seq<Location> {
    [Intro()] + ExtraCoverScreens() + ItemsScreens()
  }

  function PeopleAndItemsAnswers(): AnswerStore {
    [HouseholdAnswer(0, "Person1"), HouseholdAnswer(1, "Person2"), ExtraCoverAnswer(1)]
  }

  function PeopleAndItemsCompleted(): seq<Location> {
    [Intro(), Location("property-details", 0, "insurance-type"),
     Location("property-details", 0, "cd6a5727-8cab-4737-aa4e-d666d98b3f92"),
     Location("property-details", 0, "personal-interstitial"),
     Location("extra-cover", 0, "extra-cover-block"),
     Location("extra-cover", 0, "ea651fa7-6b9d-4b6f-ba72-79133f312039")]
  }

  /** test_navigation_no_blocks_completed: nothing answered, nothing
      completed: one link per titled group, none completed, the current group
      highlighted, and no link for the groups repeated zero times. */
  lemma NoBlocksCompleted(store: AnswerStore, md: Metadata)
    requires store == []
    ensures FrontEndNavigation(NavigationSchema(), store, md, [], "property-details", 0)
            == Ok([GroupLink("Property Details", false, true, Location("property-details", 0, "insurance-type")),
                   GroupLink("Household Details", false, false, HouseholdScreen()),
                   GroupLink("Extra Cover", false, false, Location("extra-cover", 0, "extra-cover-block")),
                   GroupLink("Payment Details", false, false, PaymentScreen())])
  {
    var cg := "property-details";
    Missing(PropertyScreens(), [], PropertyScreens()[0]);
    PropertyLink(store, md, [], cg, 0, false);
    Missing([HouseholdScreen()], [], HouseholdScreen());
    HouseholdLink(store, md, [], cg, 0, false);
    NobodyCounted(store);
    NoInstancesNoLink(People(), store, md, [], cg, 0);
    Missing(ExtraCoverScreens(), [], ExtraCoverScreens()[0]);
    ExtraCoverLink(store, md, [], cg, 0, false);
    Missing([PaymentScreen()], [], PaymentScreen());
    PaymentLink(store, md, [], cg, 0, false);
    NoItemsCounted(store);
    NoInstancesNoLink(ExtraCoverItems(), store, md, [], cg, 0);
    var p := GroupLink("Property Details", false, true, Location("property-details", 0, "insurance-type"));
    var h := GroupLink("Household Details", false, false, HouseholdScreen());
    var x := GroupLink("Extra Cover", false, false, Location("extra-cover", 0, "extra-cover-block"));
    var y := GroupLink("Payment Details", false, false, PaymentScreen());
    NavigationOfGroups(store, md, [], cg, 0, [p], [h], [], [x], [y], []);
    JoinTitled(p, h, x, y);
  }

  /** test_non_repeating_block_completed: every screen of the first group
      completed marks its link completed, and only that one. */
  lemma NonRepeatingBlockCompleted(store: AnswerStore, md: Metadata, completed: seq<Location>)
    requires store == [] && completed == PropertyCompleted()
    ensures FrontEndNavigation(NavigationSchema(), store, md, completed, "property-details", 0)
            == Ok([GroupLink("Property Details", true, true, Location("property-details", 0, "insurance-type")),
                   GroupLink("Household Details", false, false, HouseholdScreen()),
                   GroupLink("Extra Cover", false, false, Location("extra-cover", 0, "extra-cover-block")),
                   GroupLink("Payment Details", false, false, PaymentScreen())])
  {
    var cg := "property-details";
    PropertyScreensDone();
    PropertyLink(store, md, completed, cg, 0, true);
    HouseholdLink(store, md, completed, cg, 0, false);
    NobodyCounted(store);
    NoInstancesNoLink(People(), store, md, completed, cg, 0);
    ExtraCoverLink(store, md, completed, cg, 0, false);
    PaymentLink(store, md, completed, cg, 0, false);
    NoItemsCounted(store);
    NoInstancesNoLink(ExtraCoverItems(), store, md, completed, cg, 0);
    var p := GroupLink("Property Details", true, true, Location("property-details", 0, "insurance-type"));
    var h := GroupLink("Household Details", false, false, HouseholdScreen());
    var x := GroupLink("Extra Cover", false, false, Location("extra-cover", 0, "extra-cover-block"));
    var y := GroupLink("Payment Details", false, false, PaymentScreen());
    NavigationOfGroups(store, md, completed, cg, 0, [p], [h], [], [x], [y], []);
    JoinTitled(p, h, x, y);
  }

  // What the scenarios' answers say and which of their groups are completed.

  function PropertyCompleted(): seq<Location> {
    [Intro()] + PropertyScreens()
  }

  lemma PropertyScreensDone()
    ensures AllIn(PropertyScreens(), PropertyCompleted()) && !AllIn([HouseholdScreen()], PropertyCompleted())
    ensures !AllIn(ExtraCoverScreens(), PropertyCompleted()) && !AllIn([PaymentScreen()], PropertyCompleted())
  {
    var completed := PropertyCompleted();
    forall l | l in PropertyScreens() ensures l in completed {
      assert l in completed[1..];
    }
    Missing([HouseholdScreen()], completed, HouseholdScreen());
    Missing(ExtraCoverScreens(), completed, ExtraCoverScreens()[0]);
    Missing([PaymentScreen()], completed, PaymentScreen());
  }

  lemma HouseholdAnswersRead()
    ensures InstancesOf(HouseholdAnswers(), "household-full-name", 0) == {0, 1}
    ensures PersonName(HouseholdAnswers(), ["household-full-name"], 0) == "Jim"
    ensures PersonName(HouseholdAnswers(), ["household-full-name"], 1) == "Ben"
    ensures forall a :: a in HouseholdAnswers() ==> a.answerId != "extra-cover-answer"
  {
    var store := HouseholdAnswers();
    assert store[0] in store && store[1] in store;
    OnePartName(store, "household-full-name", 0, "Jim");
    assert NamePart(store[1..], "household-full-name", 1) == Some("Ben");
    OnePartName(store, "household-full-name", 1, "Ben");
  }

  lemma HouseholdScreensDone()
    ensures !AllIn(PropertyScreens(), HouseholdCompleted()) && AllIn([HouseholdScreen()], HouseholdCompleted())
    ensures AllIn(PersonScreens(0), HouseholdCompleted()) && AllIn(PersonScreens(1), HouseholdCompleted())
    ensures !AllIn(ExtraCoverScreens(), HouseholdCompleted()) && !AllIn([PaymentScreen()], HouseholdCompleted())
  {
    var completed := HouseholdCompleted();
    Missing(PropertyScreens(), completed, PropertyScreens()[0]);
    assert completed[1] == HouseholdScreen();
    BothIn(completed[2], completed[3], completed);
    assert [completed[2], completed[3]] == PersonScreens(0);
    BothIn(completed[4], completed[5], completed);
    assert [completed[4], completed[5]] == PersonScreens(1);
    Missing(ExtraCoverScreens(), completed, ExtraCoverScreens()[0]);
    Missing([PaymentScreen()], completed, PaymentScreen());
  }

  lemma PeopleAndItemsAnswersRead()
    ensures InstancesOf(PeopleAndItemsAnswers(), "household-full-name", 0) == {0, 1}
    ensures PersonName(PeopleAndItemsAnswers(), ["household-full-name"], 0) == "Person1"
    ensures PersonName(PeopleAndItemsAnswers(), ["household-full-name"], 1) == "Person2"
    ensures FindAnswer(PeopleAndItemsAnswers(), "extra-cover-answer", 0) == Some("2")
  {
    var store := PeopleAndItemsAnswers();
    assert store[0] in store && store[1] in store;
    OnePartName(store, "household-full-name", 0, "Person1");
    assert NamePart(store[1..], "household-full-name", 1) == Some("Person2");
    OnePartName(store, "household-full-name", 1, "Person2");
    assert FindAnswer(store[1..][1..], "extra-cover-answer", 0) == Some("2");
  }

  lemma PeopleAndItemsScreensDone()
    ensures !AllIn(PropertyScreens(), PeopleAndItemsCompleted()) && !AllIn([HouseholdScreen()], PeopleAndItemsCompleted())
    ensures !AllIn(PersonScreens(0), PeopleAndItemsCompleted()) && !AllIn(PersonScreens(1), PeopleAndItemsCompleted())
    ensures !AllIn(ExtraCoverScreens(), PeopleAndItemsCompleted()) && !AllIn([PaymentScreen()], PeopleAndItemsCompleted())
    ensures !AllIn(ItemsScreens(), PeopleAndItemsCompleted())
  {
    var completed := PeopleAndItemsCompleted();
    Missing(PropertyScreens(), completed, PropertyScreens()[1]);
    Missing([HouseholdScreen()], completed, HouseholdScreen());
    Missing(PersonScreens(0), completed, PersonScreens(0)[0]);
    Missing(PersonScreens(1), completed, PersonScreens(1)[0]);
    Missing(ExtraCoverScreens(), completed, ExtraCoverScreens()[1]);
    Missing([PaymentScreen()], completed, PaymentScreen());
    Missing(ItemsScreens(), completed, ItemsScreens()[0]);
  }

  lemma ItemsAnswersRead()
    ensures forall a :: a in ItemsAnswers() ==> a.answerId != "household-full-name"
    ensures FindAnswer(ItemsAnswers(), "extra-cover-answer", 0) == Some("2")
  {
  }

  lemma ItemsScreensDone()
    ensures !AllIn(PropertyScreens(), ItemsCompleted()) && !AllIn([HouseholdScreen()], ItemsCompleted())
    ensures AllIn(ExtraCoverScreens(), ItemsCompleted()) && !AllIn([PaymentScreen()], ItemsCompleted())
    ensures AllIn(ItemsScreens(), ItemsCompleted())
  {
    var completed := ItemsCompleted();
    Missing(PropertyScreens(), completed, PropertyScreens()[0]);
    Missing([HouseholdScreen()], completed, HouseholdScreen());
    BothIn(completed[1], completed[2], completed);
    assert [completed[1], completed[2]] == ExtraCoverScreens();
    Missing([PaymentScreen()], completed, PaymentScreen());
    BothIn(completed[3], completed[4], completed);
    assert [completed[3], completed[4]] == ItemsScreens();
  }

  /** test_navigation_repeating_household_and_hidden_household_groups_completed:
      two people give two person links, named from their answers and each
      completed with its own instance's screens. */
  lemma HouseholdCompletedNavigation(store: AnswerStore, md: Metadata, completed: seq<Location>)
    requires store == HouseholdAnswers() && completed == HouseholdCompleted()
    ensures FrontEndNavigation(NavigationSchema(), store, md, completed, "property-details", 0)
            == Ok([GroupLink("Property Details", false, true, Location("property-details", 0, "insurance-type")),
                   GroupLink("Household Details", true, false, HouseholdScreen()),
                   PersonLink("Jim", true, Location("repeating-group", 0, "repeating-block-1")),
                   PersonLink("Ben", true, Location("repeating-group", 1, "repeating-block-1")),
                   GroupLink("Extra Cover", false, false, Location("extra-cover", 0, "extra-cover-block")),
                   GroupLink("Payment Details", false, false, PaymentScreen())])
  {
    var cg := "property-details";
    HouseholdAnswersRead();
    HouseholdScreensDone();
    PropertyLink(store, md, completed, cg, 0, false);
    HouseholdLink(store, md, completed, cg, 0, true);
    TwoPeopleCounted(store);
    TwoPeopleLinks(store, md, completed, cg, 0, "Jim", "Ben", true, true);
    ExtraCoverLink(store, md, completed, cg, 0, false);
    PaymentLink(store, md, completed, cg, 0, false);
    NoItemsCounted(store);
    NoInstancesNoLink(ExtraCoverItems(), store, md, completed, cg, 0);
    var p := GroupLink("Property Details", false, true, Location("property-details", 0, "insurance-type"));
    var h := GroupLink("Household Details", true, false, HouseholdScreen());
    var j := PersonLink("Jim", true, Location("repeating-group", 0, "repeating-block-1"));
    var b := PersonLink("Ben", true, Location("repeating-group", 1, "repeating-block-1"));
    var x := GroupLink("Extra Cover", false, false, Location("extra-cover", 0, "extra-cover-block"));
    var y := GroupLink("Payment Details", false, false, PaymentScreen());
    NavigationOfGroups(store, md, completed, cg, 0, [p], [h], [j, b], [x], [y], []);
    JoinPeople(p, h, j, b, x, y);
  }

  /** test_navigation_repeating_group_extra_answered_not_completed: people
      and extra-cover items are listed, but a group with a screen left
      uncompleted is not marked completed. */
  lemma PeopleAndItemsNotCompleted(store: AnswerStore, md: Metadata, completed: seq<Location>)
    requires store == PeopleAndItemsAnswers() && completed == PeopleAndItemsCompleted()
    ensures FrontEndNavigation(NavigationSchema(), store, md, completed, "property-details", 0)
            == Ok([GroupLink("Property Details", false, true, Location("property-details", 0, "insurance-type")),
                   GroupLink("Household Details", false, false, HouseholdScreen()),
                   PersonLink("Person1", false, Location("repeating-group", 0, "repeating-block-1")),
                   PersonLink("Person2", false, Location("repeating-group", 1, "repeating-block-1")),
                   GroupLink("Extra Cover", false, false, Location("extra-cover", 0, "extra-cover-block")),
                   GroupLink("Payment Details", false, false, PaymentScreen()),
                   GroupLink("Extra Cover Items", false, false, Location("extra-cover-items-group", 0, "extra-cover-items"))])
  {
    var cg := "property-details";
    PeopleAndItemsAnswersRead();
    PeopleAndItemsScreensDone();
    PropertyLink(store, md, completed, cg, 0, false);
    HouseholdLink(store, md, completed, cg, 0, false);
    TwoPeopleCounted(store);
    TwoPeopleLinks(store, md, completed, cg, 0, "Person1", "Person2", false, false);
    ExtraCoverLink(store, md, completed, cg, 0, false);
    PaymentLink(store, md, completed, cg, 0, false);
    TwoItemsCounted(store);
    TwoItemsLink(store, md, completed, cg, 0, false);
    var p := GroupLink("Property Details", false, true, Location("property-details", 0, "insurance-type"));
    var h := GroupLink("Household Details", false, false, HouseholdScreen());
    var j := PersonLink("Person1", false, Location("repeating-group", 0, "repeating-block-1"));
    var b := PersonLink("Person2", false, Location("repeating-group", 1, "repeating-block-1"));
    var x := GroupLink("Extra Cover", false, false, Location("extra-cover", 0, "extra-cover-block"));
    var y := GroupLink("Payment Details", false, false, PaymentScreen());
    var z := GroupLink("Extra Cover Items", false, false, Location("extra-cover-items-group", 0, "extra-cover-items"));
    NavigationOfGroups(store, md, completed, cg, 0, [p], [h], [j, b], [x], [y], [z]);
    JoinPeopleAndItems(p, h, j, b, x, y, z);
  }

  /** test_navigation_repeating_group_extra_answered_completed: with no people
      there are no person links; the extra-cover group and both of its item
      instances are completed, so their links are. */
  lemma ItemsCompletedNavigation(store: AnswerStore, md: Metadata, completed: seq<Location>)
    requires store == ItemsAnswers() && completed == ItemsCompleted()
    ensures FrontEndNavigation(NavigationSchema(), store, md, completed, "property-details", 0)
            == Ok([GroupLink("Property Details", false, true, Location("property-details", 0, "insurance-type")),
                   GroupLink("Household Details", false, false, HouseholdScreen()),
                   GroupLink("Extra Cover", true, false, Location("extra-cover", 0, "extra-cover-block")),
                   GroupLink("Payment Details", false, false, PaymentScreen()),
                   GroupLink("Extra Cover Items", true, false, Location("extra-cover-items-group", 0, "extra-cover-items"))])
  {
    var cg := "property-details";
    ItemsAnswersRead();
    ItemsScreensDone();
    PropertyLink(store, md, completed, cg, 0, false);
    HouseholdLink(store, md, completed, cg, 0, false);
    NobodyCounted(store);
    NoInstancesNoLink(People(), store, md, completed, cg, 0);
    ExtraCoverLink(store, md, completed, cg, 0, true);
    PaymentLink(store, md, completed, cg, 0, false);
    TwoItemsCounted(store);
    TwoItemsLink(store, md, completed, cg, 0, true);
    var p := GroupLink("Property Details", false, true, Location("property-details", 0, "insurance-type"));
    var h := GroupLink("Household Details", false, false, HouseholdScreen());
    var x := GroupLink("Extra Cover", true, false, Location("extra-cover", 0, "extra-cover-block"));
    var y := GroupLink("Payment Details", false, false, PaymentScreen());
    var z := GroupLink("Extra Cover Items", true, false, Location("extra-cover-items-group", 0, "extra-cover-items"));
    NavigationOfGroups(store, md, completed, cg, 0, [p], [h], [], [x], [y], [z]);
    JoinItems(p, h, x, y, z);
  }
}
