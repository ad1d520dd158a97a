/** The schema the navigator walks, the respondent's answers and metadata,
    and the locations it produces. */
module Questionnaire {
  import opened Outcomes

  /** A screen of the questionnaire: one block of one instance of a group. */
  datatype Location = Location(groupId: string, groupInstance: nat, blockId: string)

  /** One clause of a `when` list. A clause about an answer that was never
      given is false, whichever comparison it makes. */
  datatype Condition =
    | AnswerEquals(answerId: string, value: string)
    | AnswerNotEquals(answerId: string, value: string)
    | MetadataFlag(flag: string)     // a boolean under `variant_flags`

  /** A `when` list holds when every clause holds. */
  type When = seq<Condition>

  /** A repeat rule as written in the schema: its `type` tag and the answer
      it counts or reads. */
  datatype RepeatRule = RepeatRule(tag: string, answerId: string)

  /** The repeat rule tags the navigator understands. */
  datatype RepeatKind = AnswerValue | AnswerCount | AnswerCountMinusOne

  /** Where a routing rule sends the respondent: a block of the current group
      instance, the first screen of a group, or the summary. */
  datatype Target = ToBlock(blockId: string) | ToGroup(groupId: string) | ToSummary

  datatype Goto = Goto(target: Target, when: When)

  /** A block: its id, an optional skip condition evaluated per group
      instance, and its routing rules, tried in order. */
  datatype Block = Block(id: string, skip: Option<When>, routing: seq<Goto>)

  /** How the front-end navigation names a group: a fixed title, or (for a
      repeating group of people) one name per instance built from answers. */
  datatype NavTitle = Titled(title: string) | PersonNamed(nameAnswerIds: seq<string>)

  datatype Group = Group(id: string, blocks: seq<Block>, skip: Option<When>, repeat: Option<RepeatRule>, nav: NavTitle)

  /** The groups in order, whether an introduction screen precedes them, and
      the ids of the closing screens (summary, thank-you) that follow them. */
  datatype Schema = Schema(groups: seq<Group>, hasIntroduction: bool, closing: seq<string>)

  /** One stored answer; `value` is None for an answer stored without one. */
  datatype Answer = Answer(groupId: string, groupInstance: nat, blockId: string, answerId: string, answerInstance: nat, value: Option<string>)

  type AnswerStore = seq<Answer>

  /** The `variant_flags` part of the survey metadata. */
  type Metadata = map<string, bool>

  /** The errors the navigator raises. */
  datatype NavError =
    | UnknownRepeatType(tag: string)                      // schema authoring defect
    | LocationNotFound(location: Location)                // StopIteration / not in path
    | GroupNotFound(groupId: string)                      // routing to an absent group

  const IntroductionId: string := "introduction"

  predicate NoDup<T(==)>(s: seq<T>) {
    forall i, j :: 0 <= i < j < |s| ==> s[i] != s[j]
  }

  predicate UniqueBlockIds(blocks: seq<Block>) {
    forall i, j :: 0 <= i < j < |blocks| ==> blocks[i].id != blocks[j].id
  }

  predicate UniqueGroupIds(groups: seq<Group>) {
    forall i, j :: 0 <= i < j < |groups| ==> groups[i].id != groups[j].id
  }

  /** The block ids of one group are its own, and no block shares its id with
      the introduction or a closing screen. */
  predicate GroupWellFormed(g: Group, closing: seq<string>) {
    UniqueBlockIds(g.blocks)
    && forall b :: b in g.blocks ==> b.id != IntroductionId && b.id !in closing
  }

  /** What the schema loader guarantees: unique group ids, unique block ids
      within a group, and introduction/closing screens distinct from blocks
      and from each other. */
  predicate WellFormed(s: Schema) {
    UniqueGroupIds(s.groups)
    && (forall g :: g in s.groups ==> GroupWellFormed(g, s.closing))
    && NoDup(s.closing)
    && IntroductionId !in s.closing
  }
}
