/** The rule evaluator: answer lookup, `when` conditions, skip conditions,
    routing rule selection and repeat counts. Missing data makes a condition
    false and a count zero, and so does a non-numeric `answer_value`; only an
    unknown repeat type is an error. */
module Rules {
  import opened Outcomes
  import opened Text
  import opened Questionnaire

  /** `a` is a stored value of `answerId` in group instance `gi`. */
  predicate AnswerIn(a: Answer, answerId: string, gi: nat) {
    a.answerId == answerId && a.groupInstance == gi && a.value.Some?
  }

  /** The first stored value of `answerId` in group instance `gi`. */
  function FindAnswer(store: AnswerStore, answerId: string, gi: nat): (r: Option<string>)
    ensures r.None? <==> forall k :: 0 <= k < |store| ==> !AnswerIn(store[k], answerId, gi)
    ensures r.Some? ==> exists k :: 0 <= k < |store| && AnswerIn(store[k], answerId, gi)
                                    && store[k].value == r
                                    && forall m :: 0 <= m < k ==> !AnswerIn(store[m], answerId, gi)
    decreases |store|
  {
    if |store| == 0 then None
    else if AnswerIn(store[0], answerId, gi) then store[0].value
    else
      var r := FindAnswer(store[1..], answerId, gi);
      assert forall k :: 1 <= k < |store| ==> store[1..][k - 1] == store[k];
      r
  }

  /** One clause, evaluated in group instance `gi`. */
  predicate ConditionHolds(c: Condition, store: AnswerStore, md: Metadata, gi: nat) {
    match c
    case AnswerEquals(id, v) => FindAnswer(store, id, gi) == Some(v)
    case AnswerNotEquals(id, v) => FindAnswer(store, id, gi).Some? && FindAnswer(store, id, gi).value != v
    case MetadataFlag(flag) => flag in md && md[flag]
  }

  predicate WhenHolds(w: When, store: AnswerStore, md: Metadata, gi: nat) {
    forall k :: 0 <= k < |w| ==> ConditionHolds(w[k], store, md, gi)
  }

  /** Missing data degrades to the default: a clause about an answer that has
      no stored value in that instance is false, and so is a flag that is
      absent from the metadata. */
  lemma MissingDataIsFalse(c: Condition, store: AnswerStore, md: Metadata, gi: nat)
    requires c.AnswerEquals? || c.AnswerNotEquals? ==> forall k :: 0 <= k < |store| ==> !AnswerIn(store[k], c.answerId, gi)
    requires c.MetadataFlag? ==> c.flag !in md
    ensures !ConditionHolds(c, store, md, gi)
  {
  }

  /** Equality and inequality with the same value never both hold, and for
      an answer that is present exactly one does. */
  lemma EqualsAndNotEqualsComplement(id: string, v: string, store: AnswerStore, md: Metadata, gi: nat)
    ensures !(ConditionHolds(AnswerEquals(id, v), store, md, gi) && ConditionHolds(AnswerNotEquals(id, v), store, md, gi))
    ensures FindAnswer(store, id, gi).Some? ==>
      (ConditionHolds(AnswerEquals(id, v), store, md, gi) || ConditionHolds(AnswerNotEquals(id, v), store, md, gi))
  {
  }

  /** The target of the first routing rule whose `when` holds. */
  function FirstFiring(rules: seq<Goto>, store: AnswerStore, md: Metadata, gi: nat): (r: Option<Target>)
    ensures r.None? <==> forall k :: 0 <= k < |rules| ==> !WhenHolds(rules[k].when, store, md, gi)
    ensures r.Some? ==> exists k :: 0 <= k < |rules| && WhenHolds(rules[k].when, store, md, gi)
                                    && rules[k].target == r.value
                                    && forall m :: 0 <= m < k ==> !WhenHolds(rules[m].when, store, md, gi)
    decreases |rules|
  {
    if |rules| == 0 then None
    else if WhenHolds(rules[0].when, store, md, gi) then Some(rules[0].target)
    else
      var r := FirstFiring(rules[1..], store, md, gi);
      assert forall k :: 1 <= k < |rules| ==> rules[1..][k - 1] == rules[k];
      r
  }

  /** A group's skip condition, evaluated in its first instance. */
  predicate GroupSkipped(g: Group, store: AnswerStore, md: Metadata) {
    g.skip.Some? && WhenHolds(g.skip.value, store, md, 0)
  }

  /** A block's skip condition, evaluated in each instance on its own. */
  predicate BlockSkipped(b: Block, store: AnswerStore, md: Metadata, gi: nat) {
    b.skip.Some? && WhenHolds(b.skip.value, store, md, gi)
  }

  function ParseRepeatKind(tag: string): (r: Result<RepeatKind, NavError>)
    ensures r.Err? <==> tag !in ["answer_value", "answer_count", "answer_count_minus_one"]
    ensures r.Err? ==> r.error == UnknownRepeatType(tag)
  {
    if tag == "answer_value" then Ok(AnswerValue)
    else if tag == "answer_count" then Ok(AnswerCount)
    else if tag == "answer_count_minus_one" then Ok(AnswerCountMinusOne)
    else Err(UnknownRepeatType(tag))
  }

  /** The distinct answer instances recorded for `answerId` in group
      instance `gi`. */
  function InstancesOf(store: AnswerStore, answerId: string, gi: nat): set<nat> {
    set a | a in store && a.answerId == answerId && a.groupInstance == gi :: a.answerInstance
  }

  /** `answer_count`: how many distinct answer instances `answerId` has in
      group instance `gi`. */
  function CountInstances(store: AnswerStore, answerId: string, gi: nat): (n: nat)
    ensures n == 0 <==> forall a :: a in store && a.answerId == answerId ==> a.groupInstance != gi
  {
    var s := InstancesOf(store, answerId, gi);
    assert forall a :: a in store && a.answerId == answerId && a.groupInstance == gi ==> a.answerInstance in s;
    |s|
  }

  /** Recording another answer with a new answer instance adds one to the
      count of its group instance. */
  lemma CountGrowsWithNewInstance(store: AnswerStore, a: Answer)
    requires a.answerInstance !in InstancesOf(store, a.answerId, a.groupInstance)
    ensures CountInstances(store + [a], a.answerId, a.groupInstance) == CountInstances(store, a.answerId, a.groupInstance) + 1
  {
    AppendInstances(store, a, a.groupInstance);
  }

  /** Recording another answer for an answer instance already present leaves
      the count unchanged, whatever its value. */
  lemma CountIgnoresRepeatedInstance(store: AnswerStore, a: Answer)
    requires a.answerInstance in InstancesOf(store, a.answerId, a.groupInstance)
    ensures CountInstances(store + [a], a.answerId, a.groupInstance) == CountInstances(store, a.answerId, a.groupInstance)
  {
    AppendInstances(store, a, a.groupInstance);
    assert InstancesOf(store, a.answerId, a.groupInstance) + {a.answerInstance} == InstancesOf(store, a.answerId, a.groupInstance);
  }

  /** An answer recorded in another group instance does not change the count:
      answers are counted within the referenced group instance. */
  lemma CountIgnoresOtherGroupInstance(store: AnswerStore, a: Answer, gi: nat)
    requires a.groupInstance != gi
    ensures CountInstances(store + [a], a.answerId, gi) == CountInstances(store, a.answerId, gi)
  {
    AppendInstances(store, a, gi);
  }

  lemma AppendInstances(store: AnswerStore, a: Answer, gi: nat)
    ensures InstancesOf(store + [a], a.answerId, gi)
            == InstancesOf(store, a.answerId, gi) + (if a.groupInstance == gi then {a.answerInstance} else {})
  {
    var id := a.answerId;
    var added: set<nat> := if a.groupInstance == gi then {a.answerInstance} else {};
    var s1 := InstancesOf(store + [a], id, gi);
    var s0 := InstancesOf(store, id, gi);
    forall x | x in s1
      ensures x in s0 + added
    {
      var b :| b in store + [a] && b.answerId == id && b.groupInstance == gi && b.answerInstance == x;
      if b != a {
        assert b in store;
      }
    }
    forall x | x in s0 + added
      ensures x in s1
    {
      if x in s0 {
        var b :| b in store && b.answerId == id && b.groupInstance == gi && b.answerInstance == x;
        assert b in store + [a];
      } else {
        assert a in store + [a];
      }
    }
  }

  /** `evaluate_repeat`: how many instances a repeat rule asks for, read from
      the answers of group instance `gi` of the group that collects them. An
      unknown tag is the only error; missing data reads as 0. */
  function RepeatCount(rule: RepeatRule, store: AnswerStore, gi: nat): (r: Result<nat, NavError>)
    ensures r.Err? <==> ParseRepeatKind(rule.tag).Err?
    ensures r.Err? ==> r.error == UnknownRepeatType(rule.tag)
    // `answer_value`: the numeral of n repeats n times, and an absent or
    // non-numeric answer repeats 0 times
    ensures rule.tag == "answer_value" ==>
      forall n: nat :: FindAnswer(store, rule.answerId, gi) == Some(NatToDecimal(n)) ==> r == Ok(n)
    ensures rule.tag == "answer_value" && FindAnswer(store, rule.answerId, gi).None? ==> r == Ok(0)
    ensures rule.tag == "answer_value" && FindAnswer(store, rule.answerId, gi).Some? ==>
      ParseDecimal(FindAnswer(store, rule.answerId, gi).value).None? ==> r == Ok(0)
    // `answer_count`: the number of distinct answer instances
    ensures rule.tag == "answer_count" ==> r == Ok(|InstancesOf(store, rule.answerId, gi)|)
    // `answer_count_minus_one`: one less than `answer_count`, never below 0
    ensures rule.tag == "answer_count_minus_one" ==>
      r.Ok? && (r.value + 1 == CountInstances(store, rule.answerId, gi) || r.value == 0 == CountInstances(store, rule.answerId, gi))
  {
    var kind :- ParseRepeatKind(rule.tag);
    match kind
    case AnswerCount => Ok(CountInstances(store, rule.answerId, gi))
    case AnswerCountMinusOne =>
      var n := CountInstances(store, rule.answerId, gi);
      Ok(if n == 0 then 0 else n - 1)
    case AnswerValue =>
      match FindAnswer(store, rule.answerId, gi)
      case None => Ok(0)
      case Some(v) =>
        assert forall n: nat :: v == NatToDecimal(n) ==> ParseDecimal(v) == Some(n) by {
          forall n: nat | v == NatToDecimal(n)
            ensures ParseDecimal(v) == Some(n)
          {
            ParseDecimalRoundTrip(n);
          }
        }
        match ParseDecimal(v)
        case None => Ok(0)
        case Some(n) => Ok(n)
  }
}
