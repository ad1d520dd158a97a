/** The naming logic of the older page generator, which walks blocks made of
    sections of questions. It shares `generate_pascal_case_from_id` and the
    option naming with the functional-test generator; it differs in its
    unguarded `camel_case`, its long-names rule, the skipping of child answers
    and the getters it writes per answer type. */
module NewFunctionalPages {
  import opened Outcomes
  import opened Text
  import opened Naming
  import opened PageSchema
  import F = FunctionalPages

  /** `question["type"]` and `question["answers"]`. */
  datatype Question = Question(kind: string, answers: seq<Answer>)

  datatype Section = Section(questions: seq<Question>)

  datatype Block = Block(id: string, sections: seq<Section>)

  /** `camel_case` without a guard: `s[0]` on an empty string raises, so the
      caller must pass a non-empty string. */
  function CamelCase(s: string): (r: string)
    requires |s| > 0
    ensures |r| == |s| && r[0] == ToLower(s[0]) && r[1..] == s[1..]
  {
    [ToLower(s[0])] + s[1..]
  }

  /** On the strings both accept, the two generators' `camel_case` agree. */
  lemma CamelCaseAgrees(s: string)
    requires |s| > 0
    ensures F.CamelCase(s) == Some(CamelCase(s))
  {
  }

  /** The second answer's id marks an "other" detail answer. */
  predicate HasOtherDetail(q: Question) {
    |q.answers| == 2 && Contains(q.answers[1].id, "other")
  }

  /** `long_names_required`: a question with two answers whose second one is
      an "other" detail counts as having one answer. */
  function LongNamesRequired(q: Question, numQuestions: nat): (r: bool)
    ensures r <==> numQuestions > 1 || (|q.answers| > 1 && !HasOtherDetail(q))
  {
    if numQuestions > 1 then true
    else
      var numAnswers := if HasOtherDetail(q) then 1 else |q.answers|;
      numAnswers > 1
  }

  /** This generator asks for long names no more often than the functional
      one, and they differ exactly on a lone question with an "other" detail
      answer. */
  lemma LongNamesVersions(q: Question, numQuestions: nat)
    ensures var older := F.LongNamesRequired(F.Question("", q.answers), numQuestions);
            && (LongNamesRequired(q, numQuestions) ==> older)
            && (older && !LongNamesRequired(q, numQuestions) <==> numQuestions <= 1 && HasOtherDetail(q))
  {
  }

  predicate SectionHasValueIn(s: Section, key: string, values: seq<string>) {
    exists q, a :: q in s.questions && a in q.answers && HasValueIn(a, key, values)
  }

  /** `find_kv`: true exactly when some answer of some question of some
      section of the block has `key` with a value among `values`. */
  method FindKv(b: Block, key: string, values: seq<string>) returns (found: bool)
    ensures found <==> exists s :: s in b.sections && SectionHasValueIn(s, key, values)
  {
    var i := 0;
    while i < |b.sections|
      invariant 0 <= i <= |b.sections|
      invariant forall k :: 0 <= k < i ==> !SectionHasValueIn(b.sections[k], key, values)
    {
      var questions := b.sections[i].questions;
      var j := 0;
      while j < |questions|
        invariant 0 <= j <= |questions|
        invariant forall m, a :: 0 <= m < j && a in questions[m].answers ==> !HasValueIn(a, key, values)
      {
        var answers := questions[j].answers;
        var n := 0;
        while n < |answers|
          invariant 0 <= n <= |answers|
          invariant forall p :: 0 <= p < n ==> !HasValueIn(answers[p], key, values)
        {
          if HasValueIn(answers[n], key, values) {
            assert questions[j] in b.sections[i].questions;
            assert SectionHasValueIn(b.sections[i], key, values);
            return true;
          }
          n := n + 1;
        }
        j := j + 1;
      }
      i := i + 1;
    }
    return false;
  }

  /** The dispatch of this generator's `process_answer` on `answer['type']`. */
  datatype InputKind = Options | DateParts | MonthYearParts | Plain

  const FieldTypes: seq<string> := ["TextField", "Integer", "PositiveInteger", "TextArea", "Currency", "Percentage", "Relationship"]

  const ConfiguredTypes: seq<string> := ["Radio", "Checkbox", "Date", "MonthYearDate"] + FieldTypes

  /** The configured answer types, dispatched by equality. Relationship
      answers are plain inputs here. */
  function ClassifyAnswerType(kind: string): (r: Result<InputKind, PageError>)
    ensures r.Ok? <==> kind in ConfiguredTypes
    ensures r.Err? ==> r.error == NotConfigured(kind)
  {
    if kind == "Radio" || kind == "Checkbox" then Ok(Options)
    else if kind == "Date" then Ok(DateParts)
    else if kind == "MonthYearDate" then Ok(MonthYearParts)
    else if kind in FieldTypes then Ok(Plain)
    else Err(NotConfigured(kind))
  }

  /** The dispatch as written: `answer['type'] in ('Date')` and
      `in ('MonthYearDate')` test for a substring, since a parenthesised
      string is not a tuple. */
  function ClassifyAnswerTypeAsWritten(kind: string): Result<InputKind, PageError> {
    if kind == "Radio" || kind == "Checkbox" then Ok(Options)
    else if Contains("Date", kind) then Ok(DateParts)
    else if Contains("MonthYearDate", kind) then Ok(MonthYearParts)
    else if kind in FieldTypes then Ok(Plain)
    else Err(NotConfigured(kind))
  }

  /** On every configured type the code as written dispatches like the
      corrected classification. */
  lemma AsWrittenAgreesOnConfiguredTypes(kind: string)
    requires kind in ConfiguredTypes
    ensures ClassifyAnswerTypeAsWritten(kind) == ClassifyAnswerType(kind)
  {
    assert OccursAt(kind, kind, 0);
    if kind == "MonthYearDate" {
      ContainsKeepsChars("Date", kind, 'M');
    } else if kind in FieldTypes {
      FieldTypeNotSubstring(kind);
    }
  }

  lemma FieldTypeNotSubstring(kind: string)
    requires kind in FieldTypes
    ensures !Contains("Date", kind) && !Contains("MonthYearDate", kind)
  {
    var c := kind[0];
    assert c in kind;
    assert c !in "Date" && c !in "MonthYearDate";
    ContainsKeepsChars("Date", kind, c);
    ContainsKeepsChars("MonthYearDate", kind, c);
  }

  /** Input that shows the substring test: the empty type and "Year" are not
      configured, yet the code as written treats them as Date and
      MonthYearDate answers instead of raising "not configured". */
  lemma AsWrittenAcceptsUnconfiguredTypes()
    ensures ClassifyAnswerTypeAsWritten("") == Ok(DateParts)
    ensures ClassifyAnswerType("") == Err(NotConfigured(""))
    ensures ClassifyAnswerTypeAsWritten("Year") == Ok(MonthYearParts)
    ensures ClassifyAnswerType("Year") == Err(NotConfigured("Year"))
  {
    assert OccursAt("Date", "", 0);
    ContainsKeepsChars("Date", "Year", 'Y');
    assert OccursAt("MonthYearDate", "Year", 5);
  }

  /** The answer name: the PascalCase id when long names are needed, else
      "answer"; then the page name and "Answer" are deleted. */
  function AnswerName(answerId: string, longNames: bool, pageName: string): (r: string)
    ensures AllAlnum(r)
  {
    var base := if longNames then PascalCaseFromId(answerId) else "answer";
    assert AllAlnum(base) by {
      PascalCaseShape(answerId);
      assert AllAlnum("answer");
    }
    RemoveAllKeepsAlnum(base, pageName);
    RemoveAllKeepsAlnum(RemoveAll(base, pageName), "Answer");
    RemoveAll(RemoveAll(base, pageName), "Answer")
  }

  /** The prefix for option and date getters, guarded by the name's length. */
  function AnswerPrefix(name: string, longNames: bool): (r: string)
    ensures !longNames || |name| == 0 ==> r == ""
    ensures longNames && |name| > 0 ==> F.CamelCase(name) == Some(r)
  {
    if |name| > 0 && longNames then CamelCase(name) else ""
  }

  /** With short names on a page named after its block, the answer is called
      "answer" whatever its id, and has no prefix. */
  lemma ShortNames(answerId: string, blockId: string)
    ensures AnswerName(answerId, false, PascalCaseFromId(blockId)) == "answer"
    ensures AnswerPrefix(AnswerName(answerId, false, PascalCaseFromId(blockId)), false) == ""
  {
    var pageName := PascalCaseFromId(blockId);
    PascalCaseShape(blockId);
    if |pageName| > 0 {
      LowerCaseExcludes("answer", pageName);
      RemoveAllAbsent("answer", pageName);
    }
    LowerCaseExcludes("answer", "Answer");
    RemoveAllAbsent("answer", "Answer");
  }

  function FieldGetters(questionType: string, answerId: string, name: string): seq<Getter>
    requires |name| > 0
  {
    if questionType == "RepeatingAnswer" then [Getter(HouseholdInput, CamelCase(name), answerId)]
    else [Getter(Input, CamelCase(name), answerId), Getter(Label, CamelCase(name), answerId)]
  }

  /** The getters written for a top-level answer of an already classified
      type. */
  function KindGetters(questionType: string, kind: InputKind, answer: Answer, prefix: string, name: string): (r: Result<seq<Getter>, PageError>)
    ensures r.Err? ==> r.error in {EmptyOptionValue(answer.id), EmptyAnswerName(answer.id)}
  {
    match kind
    case Options => F.ProcessOptions(F.ChildAnswer, answer.id, answer.options, prefix, 0)
    case DateParts =>
      Ok([ Getter(Input, prefix + "day", answer.id + "-day"),
           Getter(Input, prefix + "month", answer.id + "-month"),
           Getter(Input, prefix + "year", answer.id + "-year") ])
    case MonthYearParts =>
      Ok([ Getter(Input, prefix + "Month", answer.id + "-month"),
           Getter(Input, prefix + "answerYear", answer.id + "-year") ])
    case Plain =>
      if |name| == 0 then Err(EmptyAnswerName(answer.id))
      else Ok(FieldGetters(questionType, answer.id, name))
  }

  /** The getters `process_answer` writes for one answer of a question of
      type `questionType`, or the exception it raises, with the corrected
      type dispatch (membership in a tuple of type names). */
  function ProcessAnswer(questionType: string, answer: Answer, longNames: bool, pageName: string): (r: Result<seq<Getter>, PageError>)
    ensures answer.parentAnswerId.Some? ==> r == Ok([])
    ensures r.Err? ==> r.error in {NotConfigured(answer.kind), EmptyOptionValue(answer.id), EmptyAnswerName(answer.id)}
  {
    var name := AnswerName(answer.id, longNames, pageName);
    var prefix := AnswerPrefix(name, longNames);
    if answer.parentAnswerId.Some? then Ok([])
    else
      match ClassifyAnswerType(answer.kind)
      case Err(e) => Err(e)
      case Ok(kind) => KindGetters(questionType, kind, answer, prefix, name)
  }

  /** Exactly when `process_answer` with the corrected type dispatch
      raises: never for a child answer; otherwise for an unconfigured type,
      an empty option value, or a plain input whose name has been emptied by
      the deletions. */
  lemma ProcessAnswerFailsExactly(questionType: string, answer: Answer, longNames: bool, pageName: string)
    ensures ProcessAnswer(questionType, answer, longNames, pageName).Err? <==>
      answer.parentAnswerId.None? &&
      (answer.kind !in ConfiguredTypes
       || ((answer.kind == "Radio" || answer.kind == "Checkbox") && exists k :: 0 <= k < |answer.options| && |answer.options[k].value| == 0)
       || (answer.kind in FieldTypes && |AnswerName(answer.id, longNames, pageName)| == 0))
  {
    assert "Radio" !in FieldTypes && "Checkbox" !in FieldTypes;
  }

  /** `process_answer` as written, with the substring type dispatch. On every
      configured type it writes what the corrected version writes. */
  function ProcessAnswerAsWritten(questionType: string, answer: Answer, longNames: bool, pageName: string): (r: Result<seq<Getter>, PageError>)
    ensures answer.kind in ConfiguredTypes ==> r == ProcessAnswer(questionType, answer, longNames, pageName)
    ensures answer.parentAnswerId.Some? ==> r == Ok([])
    ensures r.Err? ==> r.error in {NotConfigured(answer.kind), EmptyOptionValue(answer.id), EmptyAnswerName(answer.id)}
  {
    var name := AnswerName(answer.id, longNames, pageName);
    var prefix := AnswerPrefix(name, longNames);
    if answer.parentAnswerId.Some? then Ok([])
    else
      var classified := ClassifyAnswerTypeAsWritten(answer.kind);
      assert answer.kind in ConfiguredTypes ==> classified == ClassifyAnswerType(answer.kind) by {
        if answer.kind in ConfiguredTypes {
          AsWrittenAgreesOnConfiguredTypes(answer.kind);
        }
      }
      match classified
      case Err(e) => Err(e)
      case Ok(kind) => KindGetters(questionType, kind, answer, prefix, name)
  }

  /** The discrepancy on whole answers: a top-level answer of the
      unconfigured type "Year" gets month-year getters from the code as
      written, where the corrected version raises "not configured". */
  lemma ProcessAnswerAsWrittenAcceptsYear(questionType: string, answer: Answer, longNames: bool, pageName: string)
    requires answer.kind == "Year" && answer.parentAnswerId.None?
    ensures ProcessAnswerAsWritten(questionType, answer, longNames, pageName)
         == KindGetters(questionType, MonthYearParts, answer, AnswerPrefix(AnswerName(answer.id, longNames, pageName), longNames),
                        AnswerName(answer.id, longNames, pageName))
    ensures ProcessAnswerAsWritten(questionType, answer, longNames, pageName).Ok?
    ensures ProcessAnswer(questionType, answer, longNames, pageName) == Err(NotConfigured("Year"))
  {
    AsWrittenAcceptsUnconfiguredTypes();
  }

  /** With short names on a page named after its block, a plain input is
      always named "answer". */
  lemma ShortNamedInput(answer: Answer, blockId: string)
    requires answer.parentAnswerId.None? && answer.kind in FieldTypes
    ensures ProcessAnswer("General", answer, false, PascalCaseFromId(blockId))
         == Ok([Getter(Input, "answer", answer.id), Getter(Label, "answer", answer.id)])
  {
    ShortNames(answer.id, blockId);
    var pageName := PascalCaseFromId(blockId);
    assert AnswerName(answer.id, false, pageName) == "answer";
    assert AnswerPrefix("answer", false) == "";
    assert ClassifyAnswerType(answer.kind) == Ok(Plain) by {
      assert answer.kind != "Radio" && answer.kind != "Checkbox";
      assert answer.kind != "Date" && answer.kind != "MonthYearDate";
    }
    assert KindGetters("General", Plain, answer, "", "answer")
        == Ok([Getter(Input, "answer", answer.id), Getter(Label, "answer", answer.id)]) by {
      assert CamelCase("answer") == "answer";
    }
  }

  lemma KindNamesAreIdentifiers(questionType: string, kind: InputKind, answer: Answer, prefix: string, name: string)
    requires AllAlnum(prefix) && AllAlnum(name)
    requires KindGetters(questionType, kind, answer, prefix, name).Ok?
    ensures NamesAreIdentifiers(KindGetters(questionType, kind, answer, prefix, name).value)
  {
    match kind
    case Options =>
    case DateParts =>
      assert AllAlnum("day") && AllAlnum("month") && AllAlnum("year");
      AllAlnumConcat(prefix, "day");
      AllAlnumConcat(prefix, "month");
      AllAlnumConcat(prefix, "year");
    case MonthYearParts =>
      assert AllAlnum("Month") && AllAlnum("answerYear");
      AllAlnumConcat(prefix, "Month");
      AllAlnumConcat(prefix, "answerYear");
    case Plain =>
  }

  /** Every getter name `process_answer` produces is made of `[0-9a-zA-Z]`. */
  lemma ProcessAnswerNamesAreIdentifiers(questionType: string, answer: Answer, longNames: bool, pageName: string)
    requires ProcessAnswer(questionType, answer, longNames, pageName).Ok?
    ensures NamesAreIdentifiers(ProcessAnswer(questionType, answer, longNames, pageName).value)
  {
    var name := AnswerName(answer.id, longNames, pageName);
    if answer.parentAnswerId.None? {
      KindNamesAreIdentifiers(questionType, ClassifyAnswerType(answer.kind).value, answer, AnswerPrefix(name, longNames), name);
    }
  }
}
