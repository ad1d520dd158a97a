/** `get_front_end_navigation`: the list of links the respondent sees beside
    the questionnaire. A group with a fixed title gives one link covering all
    its screens; a group named after a person gives one link per instance,
    labelled with the person's name parts that were answered. */
module FrontEnd {
  import opened Outcomes
  import opened Text
  import opened Questionnaire
  import opened Rules
  import opened Paths

  /** One entry of the navigation list; `link` is the screen it opens. */
  datatype NavEntry = NavEntry(linkName: string, repeating: bool, completed: bool, highlight: bool, link: Location)

  /** `a` stores a value of `answerId` for answer instance `ai`. */
  predicate NameAnswer(a: Answer, answerId: string, ai: nat) {
    a.answerId == answerId && a.answerInstance == ai && a.value.Some?
  }

  /** The first value stored for `answerId` in answer instance `ai`, whichever
      group instance recorded it. */
  function NamePart(store: AnswerStore, answerId: string, ai: nat): Option<string>
    decreases |store|
  {
    if |store| == 0 then None
    else if NameAnswer(store[0], answerId, ai) then store[0].value
    else NamePart(store[1..], answerId, ai)
  }

  /** A name part is absent exactly when no answer stores it, and otherwise it
      is the value of the first answer that does. */
  lemma {:induction false} NamePartFinds(store: AnswerStore, answerId: string, ai: nat)
    ensures NamePart(store, answerId, ai).None? <==> forall k :: 0 <= k < |store| ==> !NameAnswer(store[k], answerId, ai)
    ensures NamePart(store, answerId, ai).Some? ==>
      exists k :: 0 <= k < |store| && NameAnswer(store[k], answerId, ai) && store[k].value == NamePart(store, answerId, ai)
                  && forall m :: 0 <= m < k ==> !NameAnswer(store[m], answerId, ai)
    decreases |store|
  {
    if |store| > 0 && !NameAnswer(store[0], answerId, ai) {
      NamePartFinds(store[1..], answerId, ai);
      assert forall k :: 1 <= k < |store| ==> store[1..][k - 1] == store[k];
      if NamePart(store, answerId, ai).Some? {
        var k :| 0 <= k < |store[1..]| && NameAnswer(store[1..][k], answerId, ai) && store[1..][k].value == NamePart(store, answerId, ai)
                 && forall m :: 0 <= m < k ==> !NameAnswer(store[1..][m], answerId, ai);
        assert store[k + 1] == store[1..][k];
      }
    }
  }

  /** The name parts that were answered, in the order of `ids`. */
  function PresentParts(store: AnswerStore, ids: seq<string>, ai: nat): (r: seq<string>)
    ensures |r| <= |ids|
    decreases |ids|
  {
    if |ids| == 0 then []
    else
      (match NamePart(store, ids[0], ai) case None => [] case Some(v) => [v])
      + PresentParts(store, ids[1..], ai)
  }

  /** A value is among the present parts exactly when some name answer holds
      it: absent parts are dropped and nothing else is added. */
  lemma {:induction false} PresentPartsMembers(store: AnswerStore, ids: seq<string>, ai: nat, v: string)
    ensures v in PresentParts(store, ids, ai) <==> exists k :: 0 <= k < |ids| && NamePart(store, ids[k], ai) == Some(v)
    decreases |ids|
  {
    if |ids| > 0 {
      PresentPartsMembers(store, ids[1..], ai, v);
      assert forall k :: 1 <= k < |ids| ==> ids[1..][k - 1] == ids[k];
      if exists k :: 0 <= k < |ids| && NamePart(store, ids[k], ai) == Some(v) {
        var k :| 0 <= k < |ids| && NamePart(store, ids[k], ai) == Some(v);
        if k > 0 {
          assert ids[1..][k - 1] == ids[k];
        }
      }
    }
  }

  /** When every part was answered, the present parts are all the values, in
      order. */
  lemma {:induction false} PresentPartsAll(store: AnswerStore, ids: seq<string>, ai: nat)
    requires forall k :: 0 <= k < |ids| ==> NamePart(store, ids[k], ai).Some?
    ensures |PresentParts(store, ids, ai)| == |ids|
    ensures forall k :: 0 <= k < |ids| ==> PresentParts(store, ids, ai)[k] == NamePart(store, ids[k], ai).value
    decreases |ids|
  {
    if |ids| > 0 {
      assert forall k :: 1 <= k < |ids| ==> ids[1..][k - 1] == ids[k];
      PresentPartsAll(store, ids[1..], ai);
    }
  }

  /** When no part was answered there is nothing to join. */
  lemma {:induction false} PresentPartsNone(store: AnswerStore, ids: seq<string>, ai: nat)
    requires forall k :: 0 <= k < |ids| ==> NamePart(store, ids[k], ai).None?
    ensures PresentParts(store, ids, ai) == []
    decreases |ids|
  {
    if |ids| > 0 {
      assert forall k :: 1 <= k < |ids| ==> ids[1..][k - 1] == ids[k];
      PresentPartsNone(store, ids[1..], ai);
    }
  }

  /** The label of one person: the answered name parts joined by a space; the
      empty label when none was answered. */
  function PersonName(store: AnswerStore, ids: seq<string>, ai: nat): (r: string)
    ensures (forall k :: 0 <= k < |ids| ==> NamePart(store, ids[k], ai).None?) ==> r == ""
  {
    assert (forall k :: 0 <= k < |ids| ==> NamePart(store, ids[k], ai).None?) ==> PresentParts(store, ids, ai) == [] by {
      if forall k :: 0 <= k < |ids| ==> NamePart(store, ids[k], ai).None? {
        PresentPartsNone(store, ids, ai);
      }
    }
    Join(PresentParts(store, ids, ai), " ")
  }

  /** The label joins the answered parts with single spaces: when at least
      one part was answered and no part holds a space, splitting the label at
      its spaces gives back exactly the answered parts, in order. */
  lemma PersonNameJoinsParts(store: AnswerStore, ids: seq<string>, ai: nat)
    requires exists k :: 0 <= k < |ids| && NamePart(store, ids[k], ai).Some?
    requires forall k :: 0 <= k < |ids| && NamePart(store, ids[k], ai).Some? ==> ' ' !in NamePart(store, ids[k], ai).value
    ensures Split(PersonName(store, ids, ai), ' ') == PresentParts(store, ids, ai)
  {
    var parts := PresentParts(store, ids, ai);
    var k :| 0 <= k < |ids| && NamePart(store, ids[k], ai).Some?;
    PresentPartsMembers(store, ids, ai, NamePart(store, ids[k], ai).value);
    forall i | 0 <= i < |parts|
      ensures ' ' !in parts[i]
    {
      PresentPartsMembers(store, ids, ai, parts[i]);
    }
    SplitJoin(parts, ' ');
  }

  /** The screens of group instance `i`, in path order. */
  function InstanceScreens(locs: seq<Location>, i: nat): (r: seq<Location>)
    ensures |r| <= |locs|
    ensures forall l :: l in r <==> l in locs && l.groupInstance == i
    decreases |locs|
  {
    if |locs| == 0 then []
    else
      var rest := InstanceScreens(locs[1..], i);
      assert forall l :: l in locs <==> l == locs[0] || l in locs[1..];
      if locs[0].groupInstance == i then [locs[0]] + rest else rest
  }

  /** `l` is the first of `locs`, or, for a per-instance entry, the first
      screen of its own instance. */
  predicate FirstScreen(locs: seq<Location>, l: Location, perInstance: bool) {
    exists k :: 0 <= k < |locs| && locs[k] == l
                && forall m :: 0 <= m < k ==> perInstance && locs[m].groupInstance != l.groupInstance
  }

  lemma {:induction false} InstanceScreensFirst(locs: seq<Location>, i: nat)
    requires |InstanceScreens(locs, i)| > 0
    ensures FirstScreen(locs, InstanceScreens(locs, i)[0], true)
    decreases |locs|
  {
    var r := InstanceScreens(locs, i);
    if locs[0].groupInstance != i {
      InstanceScreensFirst(locs[1..], i);
      var k :| 0 <= k < |locs[1..]| && locs[1..][k] == r[0]
               && forall m :: 0 <= m < k ==> locs[1..][m].groupInstance != r[0].groupInstance;
      assert r[0] in r;
      forall m | 0 <= m < k + 1
        ensures locs[m].groupInstance != r[0].groupInstance
      {
        if m > 0 {
          assert locs[m] == locs[1..][m - 1];
        }
      }
      assert locs[k + 1] == r[0];
    } else {
      assert locs[0] == r[0];
    }
  }

  /** Every screen is in the completed list. */
  predicate AllIn(locs: seq<Location>, completed: seq<Location>) {
    forall l :: l in locs ==> l in completed
  }

  /** The labels of instances `0 .. n-1`. */
  function PersonNames(store: AnswerStore, ids: seq<string>, n: nat): (r: seq<string>)
    ensures |r| == n && forall i :: 0 <= i < n ==> r[i] == PersonName(store, ids, i)
  {
    seq(n, i requires 0 <= i < n => PersonName(store, ids, i))
  }

  /** The entry of instance `i` of person-named group `groupId`, labelled
      `names[i]`. */
  function PersonEntry(groupId: string, locs: seq<Location>, names: seq<string>, completed: seq<Location>,
                       currentGroup: string, currentInstance: nat, i: nat): NavEntry
    requires i < |names| && |InstanceScreens(locs, i)| > 0
  {
    var screens := InstanceScreens(locs, i);
    NavEntry(names[i], true, AllIn(screens, completed), groupId == currentGroup && i == currentInstance, screens[0])
  }

  /** The entries of instances `0 .. n-1` that have at least one screen. */
  function PersonEntries(groupId: string, locs: seq<Location>, names: seq<string>, completed: seq<Location>,
                         currentGroup: string, currentInstance: nat, n: nat): (r: seq<NavEntry>)
    requires n <= |names|
    ensures |r| <= n
    decreases n
  {
    if n == 0 then []
    else
      PersonEntries(groupId, locs, names, completed, currentGroup, currentInstance, n - 1)
      + (if |InstanceScreens(locs, n - 1)| > 0
         then [PersonEntry(groupId, locs, names, completed, currentGroup, currentInstance, n - 1)] else [])
  }

  /** `e` is the entry of instance `i`, which has at least one screen. */
  predicate IsPersonEntry(groupId: string, locs: seq<Location>, names: seq<string>, completed: seq<Location>,
                          currentGroup: string, currentInstance: nat, i: nat, e: NavEntry)
    requires i < |names|
  {
    |InstanceScreens(locs, i)| > 0 && e == PersonEntry(groupId, locs, names, completed, currentGroup, currentInstance, i)
  }

  /** Every entry is that of an instance below `n` that has a screen. */
  lemma {:induction false} PersonEntriesFromInstances(groupId: string, locs: seq<Location>, names: seq<string>, completed: seq<Location>,
                                                      currentGroup: string, currentInstance: nat, n: nat, e: NavEntry)
    requires n <= |names|
    requires e in PersonEntries(groupId, locs, names, completed, currentGroup, currentInstance, n)
    ensures exists i :: 0 <= i < n && IsPersonEntry(groupId, locs, names, completed, currentGroup, currentInstance, i, e)
    decreases n
  {
    var init := PersonEntries(groupId, locs, names, completed, currentGroup, currentInstance, n - 1);
    if e in init {
      PersonEntriesFromInstances(groupId, locs, names, completed, currentGroup, currentInstance, n - 1, e);
    } else {
      assert IsPersonEntry(groupId, locs, names, completed, currentGroup, currentInstance, n - 1, e);
    }
  }

  /** Every instance below `n` that has a screen has its entry. */
  lemma {:induction false} PersonEntriesCoverInstances(groupId: string, locs: seq<Location>, names: seq<string>, completed: seq<Location>,
                                                       currentGroup: string, currentInstance: nat, n: nat, i: nat)
    requires n <= |names|
    requires i < n && |InstanceScreens(locs, i)| > 0
    ensures PersonEntry(groupId, locs, names, completed, currentGroup, currentInstance, i)
            in PersonEntries(groupId, locs, names, completed, currentGroup, currentInstance, n)
    decreases n
  {
    if i < n - 1 {
      PersonEntriesCoverInstances(groupId, locs, names, completed, currentGroup, currentInstance, n - 1, i);
    }
  }

  /** The entries one group contributes, given its screens `es` and its
      instance count `n`. */
  function GroupNav(g: Group, es: seq<Entry>, n: nat, store: AnswerStore, completed: seq<Location>,
                    currentGroup: string, currentInstance: nat): (r: seq<NavEntry>)
    ensures g.nav.Titled? ==> (|r| == 1 <==> |es| > 0) && (|r| == 0 <==> |es| == 0)
    ensures g.nav.PersonNamed? ==> |r| <= n
  {
    match g.nav
    case Titled(title) =>
      if |es| == 0 then []
      else [NavEntry(title, false, AllIn(Locs(es), completed), g.id == currentGroup, es[0].loc)]
    case PersonNamed(ids) => PersonEntries(g.id, Locs(es), PersonNames(store, ids, n), completed, currentGroup, currentInstance, n)
  }

  /** What each entry of a group means: its link is the first screen of the
      group (or of its instance); it is highlighted exactly when it is the
      current group (and, per person, the current instance); it is completed
      exactly when every screen it covers is in the completed list; it is
      repeating exactly for a person-named group, whose label is the name of
      that instance's person. */
  lemma GroupNavMeaning(g: Group, es: seq<Entry>, n: nat, store: AnswerStore, completed: seq<Location>,
                        currentGroup: string, currentInstance: nat, e: NavEntry)
    requires forall x :: x in es ==> x.loc.groupId == g.id
    requires e in GroupNav(g, es, n, store, completed, currentGroup, currentInstance)
    ensures e.link in Locs(es) && e.link.groupId == g.id
    ensures FirstScreen(Locs(es), e.link, e.repeating)
    ensures e.highlight <==> e.link.groupId == currentGroup && (e.repeating ==> e.link.groupInstance == currentInstance)
    ensures e.completed <==>
      forall l :: l in Locs(es) && (e.repeating ==> l.groupInstance == e.link.groupInstance) ==> l in completed
    ensures e.repeating <==> g.nav.PersonNamed?
    ensures g.nav.Titled? ==> e.linkName == g.nav.title
    ensures g.nav.PersonNamed? ==> e.linkName == PersonName(store, g.nav.nameAnswerIds, e.link.groupInstance)
  {
    var locs := Locs(es);
    match g.nav
    case Titled(title) =>
      assert locs[0] == es[0].loc;
      assert es[0] in es;
    case PersonNamed(ids) =>
      var names := PersonNames(store, ids, n);
      PersonEntriesFromInstances(g.id, locs, names, completed, currentGroup, currentInstance, n, e);
      var i :| 0 <= i < n && IsPersonEntry(g.id, locs, names, completed, currentGroup, currentInstance, i, e);
      var screens := InstanceScreens(locs, i);
      assert screens[0] in screens;
      InstanceScreensFirst(locs, i);
      var k :| 0 <= k < |locs| && locs[k] == screens[0];
      assert es[k] in es;
  }

  /** `get_front_end_navigation` over a sequence of groups, in schema order. */
  function Navigation(groups: seq<Group>, store: AnswerStore, md: Metadata, completed: seq<Location>,
                      currentGroup: string, currentInstance: nat): (r: Result<seq<NavEntry>, NavError>)
    ensures r.Err? <==> Expand(groups, store, md).Err?
    decreases |groups|
  {
    if |groups| == 0 then Ok([])
    else
      var g := groups[0];
      var es :- GroupEntries(g, store, md);
      var n := if InstanceCount(g, store).Ok? then InstanceCount(g, store).value else 0;
      var rest :- Navigation(groups[1..], store, md, completed, currentGroup, currentInstance);
      Ok(GroupNav(g, es, n, store, completed, currentGroup, currentInstance) + rest)
  }

  /** The entries a group contributes to the list. */
  function GroupNavIn(g: Group, store: AnswerStore, completed: seq<Location>, currentGroup: string, currentInstance: nat,
                      md: Metadata): seq<NavEntry>
    requires GroupEntries(g, store, md).Ok?
  {
    var n := if InstanceCount(g, store).Ok? then InstanceCount(g, store).value else 0;
    GroupNav(g, GroupEntries(g, store, md).value, n, store, completed, currentGroup, currentInstance)
  }

  /** Every entry of the list comes from one group, and every group's entries
      are in the list. */
  lemma {:induction false} NavigationMembers(groups: seq<Group>, store: AnswerStore, md: Metadata, completed: seq<Location>,
                                             currentGroup: string, currentInstance: nat, e: NavEntry)
    requires Navigation(groups, store, md, completed, currentGroup, currentInstance).Ok?
    ensures e in Navigation(groups, store, md, completed, currentGroup, currentInstance).value <==>
      exists p :: 0 <= p < |groups| && GroupEntries(groups[p], store, md).Ok?
                  && e in GroupNavIn(groups[p], store, completed, currentGroup, currentInstance, md)
    decreases |groups|
  {
    if |groups| > 0 {
      NavigationMembers(groups[1..], store, md, completed, currentGroup, currentInstance, e);
      assert forall p :: 1 <= p < |groups| ==> groups[1..][p - 1] == groups[p];
      if exists p :: 0 <= p < |groups| && GroupEntries(groups[p], store, md).Ok?
                     && e in GroupNavIn(groups[p], store, completed, currentGroup, currentInstance, md) {
        var p :| 0 <= p < |groups| && GroupEntries(groups[p], store, md).Ok?
                 && e in GroupNavIn(groups[p], store, completed, currentGroup, currentInstance, md);
        if p > 0 {
          assert groups[1..][p - 1] == groups[p];
        }
      }
    }
  }

  lemma ConcatAssoc<T>(a: seq<T>, b: seq<T>, c: seq<T>)
    ensures a + (b + c) == (a + b) + c
  {
  }

  /** The first group's entries head the list; the rest follow. */
  lemma NavigationCons(groups: seq<Group>, store: AnswerStore, md: Metadata, completed: seq<Location>,
                       currentGroup: string, currentInstance: nat)
    requires |groups| > 0
    ensures Navigation(groups, store, md, completed, currentGroup, currentInstance).Ok? <==>
      GroupEntries(groups[0], store, md).Ok? && Navigation(groups[1..], store, md, completed, currentGroup, currentInstance).Ok?
    ensures Navigation(groups, store, md, completed, currentGroup, currentInstance).Ok? ==>
      Navigation(groups, store, md, completed, currentGroup, currentInstance).value
      == GroupNavIn(groups[0], store, completed, currentGroup, currentInstance, md)
         + Navigation(groups[1..], store, md, completed, currentGroup, currentInstance).value
  {
  }

  /** Cutting the groups anywhere cuts the list there: the entries of the
      groups before the cut come first, then those of the groups after it. */
  lemma {:induction false} NavigationSplits(groups: seq<Group>, store: AnswerStore, md: Metadata, completed: seq<Location>,
                                            currentGroup: string, currentInstance: nat, p: nat)
    requires Navigation(groups, store, md, completed, currentGroup, currentInstance).Ok?
    requires p <= |groups|
    ensures Navigation(groups[..p], store, md, completed, currentGroup, currentInstance).Ok?
    ensures Navigation(groups[p..], store, md, completed, currentGroup, currentInstance).Ok?
    ensures Navigation(groups, store, md, completed, currentGroup, currentInstance).value
            == Navigation(groups[..p], store, md, completed, currentGroup, currentInstance).value
               + Navigation(groups[p..], store, md, completed, currentGroup, currentInstance).value
    decreases p
  {
    if p == 0 {
      assert groups[..0] == [] && groups[0..] == groups;
      assert Navigation([], store, md, completed, currentGroup, currentInstance) == Ok([]);
    } else {
      var front := groups[..p];
      var tail := groups[1..];
      NavigationCons(groups, store, md, completed, currentGroup, currentInstance);
      NavigationSplits(tail, store, md, completed, currentGroup, currentInstance, p - 1);
      assert tail[..p - 1] == front[1..] && tail[p - 1..] == groups[p..] && front[0] == groups[0];
      NavigationCons(front, store, md, completed, currentGroup, currentInstance);
      var head := GroupNavIn(groups[0], store, completed, currentGroup, currentInstance, md);
      var before := Navigation(front[1..], store, md, completed, currentGroup, currentInstance).value;
      var after := Navigation(groups[p..], store, md, completed, currentGroup, currentInstance).value;
      assert Navigation(groups, store, md, completed, currentGroup, currentInstance).value == head + (before + after);
      assert Navigation(front, store, md, completed, currentGroup, currentInstance).value == head + before;
      ConcatAssoc(head, before, after);
    }
  }

  /** The list is in group order: the entries of group `p` sit after those of
      every earlier group and before those of every later one. */
  lemma NavigationInGroupOrder(groups: seq<Group>, store: AnswerStore, md: Metadata, completed: seq<Location>,
                               currentGroup: string, currentInstance: nat, p: nat)
    requires Navigation(groups, store, md, completed, currentGroup, currentInstance).Ok?
    requires p < |groups|
    ensures GroupEntries(groups[p], store, md).Ok?
    ensures Navigation(groups[..p], store, md, completed, currentGroup, currentInstance).Ok?
    ensures Navigation(groups[p + 1..], store, md, completed, currentGroup, currentInstance).Ok?
    ensures Navigation(groups, store, md, completed, currentGroup, currentInstance).value
            == Navigation(groups[..p], store, md, completed, currentGroup, currentInstance).value
               + GroupNavIn(groups[p], store, completed, currentGroup, currentInstance, md)
               + Navigation(groups[p + 1..], store, md, completed, currentGroup, currentInstance).value
  {
    NavigationSplits(groups, store, md, completed, currentGroup, currentInstance, p);
    var rest := groups[p..];
    assert rest[0] == groups[p] && rest[1..] == groups[p + 1..];
    NavigationCons(rest, store, md, completed, currentGroup, currentInstance);
    ConcatAssoc(Navigation(groups[..p], store, md, completed, currentGroup, currentInstance).value,
                GroupNavIn(groups[p], store, completed, currentGroup, currentInstance, md),
                Navigation(groups[p + 1..], store, md, completed, currentGroup, currentInstance).value);
  }

  /** `get_front_end_navigation`. */
  function FrontEndNavigation(s: Schema, store: AnswerStore, md: Metadata, completed: seq<Location>,
                              currentGroup: string, currentInstance: nat): (r: Result<seq<NavEntry>, NavError>)
    ensures r.Err? <==> Expand(s.groups, store, md).Err?
  {
    Navigation(s.groups, store, md, completed, currentGroup, currentInstance)
  }

  /** Every entry of the navigation list is the first screen of a group that
      was not skipped (or of one of its instances); it is highlighted exactly
      when it belongs to the current group (and instance, for a person);
      and it is completed exactly when every screen of that group (or
      instance) is in the completed list. */
  lemma NavigationMeaning(s: Schema, store: AnswerStore, md: Metadata, completed: seq<Location>,
                          currentGroup: string, currentInstance: nat, e: NavEntry)
    requires FrontEndNavigation(s, store, md, completed, currentGroup, currentInstance).Ok?
    requires e in FrontEndNavigation(s, store, md, completed, currentGroup, currentInstance).value
    ensures exists p :: 0 <= p < |s.groups| && !GroupSkipped(s.groups[p], store, md) && e.link.groupId == s.groups[p].id
                        && GroupEntries(s.groups[p], store, md).Ok?
                        && (e.repeating <==> s.groups[p].nav.PersonNamed?)
                        && e.completed == AllIn(if e.repeating then InstanceScreens(Locs(GroupEntries(s.groups[p], store, md).value), e.link.groupInstance)
                                                else Locs(GroupEntries(s.groups[p], store, md).value), completed)
    ensures e.highlight <==> e.link.groupId == currentGroup && (e.repeating ==> e.link.groupInstance == currentInstance)
  {
    NavigationMembers(s.groups, store, md, completed, currentGroup, currentInstance, e);
    var p :| 0 <= p < |s.groups| && GroupEntries(s.groups[p], store, md).Ok?
             && e in GroupNavIn(s.groups[p], store, completed, currentGroup, currentInstance, md);
    var g := s.groups[p];
    var es := GroupEntries(g, store, md).value;
    forall x | x in es
      ensures x.loc.groupId == g.id
    {
      GroupEntriesFromGroup(g, store, md, x);
    }
    var n := if InstanceCount(g, store).Ok? then InstanceCount(g, store).value else 0;
    GroupNavMeaning(g, es, n, store, completed, currentGroup, currentInstance, e);
    var x :| x in es && x.loc == e.link by {
      var k :| 0 <= k < |Locs(es)| && Locs(es)[k] == e.link;
      assert es[k] in es;
    }
    GroupEntriesFromGroup(g, store, md, x);
  }
}
