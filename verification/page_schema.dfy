/** The parts of a questionnaire schema that the two page generators read,
    and the selector getters they emit. */
module PageSchema {
  import opened Outcomes
  import opened Text

  /** One option of a Radio/Checkbox/Relationship answer. `detailAnswerId` is
      `option["detail_answer"]["id"]` (functional generator) and
      `childAnswerId` is `option["child_answer_id"]` (older generator). */
  datatype AnswerOption = AnswerOption(value: string, detailAnswerId: Option<string>, childAnswerId: Option<string>)

  /** An answer mapping. The keys the generators read have fields of their
      own; any other string-valued key sits in `extra`. */
  datatype Answer = Answer(
    id: string,
    kind: string,
    options: seq<AnswerOption>,
    units: seq<string>,
    parentAnswerId: Option<string>,
    extra: map<string, string>)

  /** `answer[key]` when `key in answer`, and None otherwise. */
  function Lookup(a: Answer, key: string): Option<string> {
    if key == "id" then Some(a.id)
    else if key == "type" then Some(a.kind)
    else if key == "parent_answer_id" then a.parentAnswerId
    else if key in a.extra then Some(a.extra[key])
    else None
  }

  /** `key in answer and answer[key] in values`. */
  predicate HasValueIn(a: Answer, key: string, values: seq<string>) {
    Lookup(a, key).Some? && Lookup(a, key).value in values
  }

  /** The dispatch of `process_answer` on `answer["type"]`. */
  datatype AnswerKind =
    | ChoiceKind(radio: bool)
    | RelationshipKind
    | DateKind
    | MonthYearDateKind
    | DurationKind
    | FieldKind(unit: bool)

  /** Which template a getter comes from. */
  datatype GetterKind =
    | Input               // ANSWER_GETTER
    | Label               // ANSWER_LABEL_GETTER
    | LabelDescription    // ANSWER_LABEL_DESCRIPTION_GETTER
    | ErrorItem           // ANSWER_ERROR_GETTER
    | UnitType            // ANSWER_UNIT_TYPE_GETTER
    | ClearSelection      // CLEAR_SELECTION_BUTTON_GETTER
    | RelationshipPlayback // RELATIONSHIP_PLAYBACK_GETTER
    | HouseholdInput      // HOUSEHOLD_ANSWER_GETTER

  /** One getter written into a page object: the template, the substituted
      `answerName` and the substituted `answerId` ("" where the template has
      no such placeholder). */
  datatype Getter = Getter(kind: GetterKind, name: string, target: string)

  /** The exceptions the generators raise while naming answers. */
  datatype PageError =
    | EmptyOptionValue(answerId: string)   // option["value"][0] on ""
    | EmptyAnswerName(answerId: string)    // camel_case("") in the older generator
    | NotConfigured(kind: string)          // "Answer type {} not configured"

  predicate AllAlnum(s: string) {
    forall i :: 0 <= i < |s| ==> IsAlnum(s[i])
  }

  /** Every getter name consists of `[0-9a-zA-Z]` only, so it is usable as a
      JavaScript method name. */
  predicate NamesAreIdentifiers(getters: seq<Getter>) {
    forall i :: 0 <= i < |getters| ==> AllAlnum(getters[i].name)
  }

  lemma GettersConcatAreIdentifiers(a: seq<Getter>, b: seq<Getter>)
    requires NamesAreIdentifiers(a) && NamesAreIdentifiers(b)
    ensures NamesAreIdentifiers(a + b)
  {
    assert forall i :: |a| <= i < |a + b| ==> (a + b)[i] == b[i - |a|];
  }

  /** `"{name}-{index}".format(name=answer_id, index=index)`. */
  function OptionId(answerId: string, index: nat): string {
    answerId + "-" + NatToDecimal(index)
  }

  /** Options of one answer get pairwise different ids. */
  lemma OptionIdsDistinct(answerId: string, i: nat, j: nat)
    requires i != j
    ensures OptionId(answerId, i) != OptionId(answerId, j)
  {
    if OptionId(answerId, i) == OptionId(answerId, j) {
      var n := |answerId| + 1;
      assert OptionId(answerId, i)[n..] == NatToDecimal(i);
      assert OptionId(answerId, j)[n..] == NatToDecimal(j);
      NatToDecimalInjective(i, j);
    }
  }

  lemma AllAlnumConcat(a: string, b: string)
    requires AllAlnum(a) && AllAlnum(b)
    ensures AllAlnum(a + b)
  {
    assert forall i :: 0 <= i < |a + b| ==> (a + b)[i] == (if i < |a| then a[i] else b[i - |a|]);
  }

  /** Deleting occurrences keeps only characters of the original string. */
  lemma {:induction false} RemoveAllKeepsAlnum(s: string, pat: string)
    requires AllAlnum(s)
    ensures AllAlnum(RemoveAll(s, pat))
    decreases |s|
  {
    if |pat| > 0 && |s| > 0 {
      if IsPrefix(pat, s) {
        RemoveAllKeepsAlnum(s[|pat|..], pat);
      } else {
        RemoveAllKeepsAlnum(s[1..], pat);
        AllAlnumConcat([s[0]], RemoveAll(s[1..], pat));
      }
    }
  }
}
