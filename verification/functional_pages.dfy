/** The naming logic of the functional-test page generator: camel case, the
    questions of a block, the long-names decision, key/value search and the
    names and ids of the getters written for one answer. */
module FunctionalPages {
  import opened Outcomes
  import opened Text
  import opened Naming
  import opened PageSchema

  datatype Question = Question(id: string, answers: seq<Answer>)

  /** A question variant; `question` is None when the key is missing. */
  datatype Variant = Variant(question: Option<Question>)

  /** A block; `question` is None when `block.get("question")` is falsy. */
  datatype Block = Block(id: string, question: Option<Question>, variants: seq<Variant>)

  /** `camel_case`: None for the empty string, otherwise the string with its
      first character lower-cased. */
  function CamelCase(s: string): (r: Option<string>)
    ensures r.None? <==> |s| == 0
    ensures r.Some? ==> |r.value| == |s| && !IsUpper(r.value[0])
    ensures r.Some? ==> r.value[0] == ToLower(s[0]) && r.value[1..] == s[1..]
  {
    if |s| == 0 then None else Some([ToLower(s[0])] + s[1..])
  }

  /** Applying `camel_case` to its own result changes nothing. */
  lemma CamelCaseIdempotent(s: string)
    requires |s| > 0
    ensures CamelCase(CamelCase(s).value) == CamelCase(s)
  {
    var c := CamelCase(s).value;
    assert [ToLower(c[0])] + c[1..] == c;
  }

  lemma CamelCaseKeepsAlnum(s: string)
    requires |s| > 0 && AllAlnum(s)
    ensures AllAlnum(CamelCase(s).value)
  {
  }

  /** The variants' questions in variant order, skipping variants without one. */
  function VariantQuestions(variants: seq<Variant>): seq<Question>
    decreases |variants|
  {
    if |variants| == 0 then []
    else
      var last := variants[|variants| - 1];
      VariantQuestions(variants[..|variants| - 1]) + (if last.question.Some? then [last.question.value] else [])
  }

  lemma {:induction false} VariantQuestionsMembers(variants: seq<Variant>, q: Question)
    ensures q in VariantQuestions(variants) <==> exists k :: 0 <= k < |variants| && variants[k].question == Some(q)
    decreases |variants|
  {
    if |variants| > 0 {
      var init := variants[..|variants| - 1];
      VariantQuestionsMembers(init, q);
      assert forall k :: 0 <= k < |init| ==> init[k] == variants[k];
    }
  }

  /** Reference for `get_all_questions`: the block's own question, then the
      variants' questions. */
  function AllQuestions(b: Block): seq<Question> {
    (if b.question.Some? then [b.question.value] else []) + VariantQuestions(b.variants)
  }

  /** `get_all_questions`: the block's question first when it has one, then
      each variant's question in variant order; nothing else. */
  method GetAllQuestions(b: Block) returns (qs: seq<Question>)
    ensures qs == AllQuestions(b)
    ensures b.question.Some? ==> |qs| > 0 && qs[0] == b.question.value
    ensures forall q :: q in qs <==>
      (b.question == Some(q) || exists k :: 0 <= k < |b.variants| && b.variants[k].question == Some(q))
  {
    qs := [];
    if b.question.Some? {
      qs := qs + [b.question.value];
    }
    var i := 0;
    while i < |b.variants|
      invariant 0 <= i <= |b.variants|
      invariant qs == (if b.question.Some? then [b.question.value] else []) + VariantQuestions(b.variants[..i])
    {
      assert b.variants[..i + 1][..i] == b.variants[..i];
      if b.variants[i].question.Some? {
        qs := qs + [b.variants[i].question.value];
      }
      i := i + 1;
    }
    assert b.variants[..i] == b.variants;
    forall q
      ensures q in qs <==>
        (b.question == Some(q) || exists k :: 0 <= k < |b.variants| && b.variants[k].question == Some(q))
    {
      VariantQuestionsMembers(b.variants, q);
    }
  }

  /** `long_names_required`: answers get long names when the block has more
      than one question or the question has more than one answer. */
  function LongNamesRequired(q: Question, numQuestions: nat): (r: bool)
    ensures r <==> numQuestions > 1 || |q.answers| > 1
  {
    if numQuestions > 1 then true
    else |q.answers| > 1
  }

  predicate QuestionHasValueIn(q: Question, key: string, values: seq<string>) {
    exists a :: a in q.answers && HasValueIn(a, key, values)
  }

  /** `find_kv`: true exactly when some answer of some question of the block
      (own question or variant) has `key` with a value among `values`. */
  method FindKv(b: Block, key: string, values: seq<string>) returns (found: bool)
    ensures found <==> exists q :: q in AllQuestions(b) && QuestionHasValueIn(q, key, values)
  {
    var qs := GetAllQuestions(b);
    var i := 0;
    while i < |qs|
      invariant 0 <= i <= |qs|
      invariant forall k :: 0 <= k < i ==> !QuestionHasValueIn(qs[k], key, values)
    {
      var answers := qs[i].answers;
      var j := 0;
      while j < |answers|
        invariant 0 <= j <= |answers|
        invariant forall m :: 0 <= m < j ==> !HasValueIn(answers[m], key, values)
      {
        if HasValueIn(answers[j], key, values) {
          assert QuestionHasValueIn(qs[i], key, values);
          return true;
        }
        j := j + 1;
      }
      i := i + 1;
    }
    return false;
  }

  /** The prefix `process_options` puts before an option's own name: the base
      prefix when the value starts with a letter, else base prefix + "Answer". */
  function OptionPrefix(basePrefix: string, value: string): string
    requires |value| > 0
  {
    if IsLetter(value[0]) then basePrefix else basePrefix + "Answer"
  }

  /** `camel_case(prefix + generate_pascal_case_from_id(option["value"]))`,
      which is never None. */
  function OptionName(basePrefix: string, value: string): (name: string)
    requires |value| > 0
    ensures |name| > 0 && !IsUpper(name[0])
    ensures AllAlnum(basePrefix) ==> AllAlnum(name)
  {
    var full := OptionPrefix(basePrefix, value) + PascalCaseFromId(value);
    assert |full| > 0 by {
      if IsLetter(value[0]) {
        PascalCaseOfLetterStart(value);
      }
    }
    assert AllAlnum(basePrefix) ==> AllAlnum(full) by {
      if AllAlnum(basePrefix) {
        PascalCaseShape(value);
        assert AllAlnum("Answer");
        AllAlnumConcat(basePrefix, "Answer");
        AllAlnumConcat(OptionPrefix(basePrefix, value), PascalCaseFromId(value));
      }
    }
    CamelCase(full).value
  }

  /** Where an option names the extra input it reveals: this generator reads
      `option["detail_answer"]["id"]`, the older one `option["child_answer_id"]`. */
  datatype DetailStyle = DetailAnswer | ChildAnswer

  /** The getters for option `index`: the option input and its label, plus an
      input for the answer the option reveals. That input is named
      `<option name>Detail` here and `<prefix><option name>Text` in the older
      generator. */
  function OptionGetters(style: DetailStyle, answerId: string, index: nat, option: AnswerOption, basePrefix: string): seq<Getter>
    requires |option.value| > 0
  {
    var name := OptionName(basePrefix, option.value);
    var id := OptionId(answerId, index);
    [Getter(Input, name, id), Getter(Label, name, id)]
      + match style
        case DetailAnswer =>
          if option.detailAnswerId.Some? then [Getter(Input, name + "Detail", option.detailAnswerId.value)] else []
        case ChildAnswer =>
          if option.childAnswerId.Some?
          then [Getter(Input, OptionPrefix(basePrefix, option.value) + name + "Text", option.childAnswerId.value)]
          else []
  }

  /** `process_options` from option number `from` on: fails (IndexError) on
      the first option whose value is empty. */
  function ProcessOptions(style: DetailStyle, answerId: string, options: seq<AnswerOption>, basePrefix: string, from: nat): (r: Result<seq<Getter>, PageError>)
    ensures r.Ok? <==> forall k :: 0 <= k < |options| ==> |options[k].value| > 0
    ensures r.Err? ==> r.error == EmptyOptionValue(answerId)
    ensures r.Ok? && AllAlnum(basePrefix) ==> NamesAreIdentifiers(r.value)
    ensures r.Ok? ==> |r.value| >= 2 * |options|
    decreases |options|
  {
    if |options| == 0 then Ok([])
    else if |options[0].value| == 0 then Err(EmptyOptionValue(answerId))
    else
      match ProcessOptions(style, answerId, options[1..], basePrefix, from + 1)
      case Err(e) => Err(e)
      case Ok(rest) =>
        var here := OptionGetters(style, answerId, from, options[0], basePrefix);
        if AllAlnum(basePrefix) then
          OptionGettersAreIdentifiers(style, answerId, from, options[0], basePrefix);
          GettersConcatAreIdentifiers(here, rest);
          Ok(here + rest)
        else
          Ok(here + rest)
  }

  lemma OptionGettersAreIdentifiers(style: DetailStyle, answerId: string, index: nat, option: AnswerOption, basePrefix: string)
    requires |option.value| > 0 && AllAlnum(basePrefix)
    ensures NamesAreIdentifiers(OptionGetters(style, answerId, index, option, basePrefix))
  {
    var p := OptionPrefix(basePrefix, option.value);
    var name := OptionName(basePrefix, option.value);
    assert AllAlnum("Answer") && AllAlnum("Text") && AllAlnum("Detail");
    AllAlnumConcat(name, "Detail");
    AllAlnumConcat(basePrefix, "Answer");
    AllAlnumConcat(p, name);
    AllAlnumConcat(p + name, "Text");
  }

  /** The getters of a non-empty list: the head option's, then the rest's. */
  lemma ProcessOptionsCons(style: DetailStyle, answerId: string, options: seq<AnswerOption>, basePrefix: string, from: nat)
    requires ProcessOptions(style, answerId, options, basePrefix, from).Ok? && |options| > 0
    ensures |options[0].value| > 0
    ensures ProcessOptions(style, answerId, options[1..], basePrefix, from + 1).Ok?
    ensures ProcessOptions(style, answerId, options, basePrefix, from).value
            == OptionGetters(style, answerId, from, options[0], basePrefix)
               + ProcessOptions(style, answerId, options[1..], basePrefix, from + 1).value
  {
  }

  lemma OptionGettersNameOption(style: DetailStyle, answerId: string, index: nat, option: AnswerOption, basePrefix: string)
    requires |option.value| > 0
    ensures OptionNamedIn(OptionGetters(style, answerId, index, option, basePrefix), OptionName(basePrefix, option.value), OptionId(answerId, index))
  {
    var g := OptionGetters(style, answerId, index, option, basePrefix);
    assert g[0] == Getter(Input, OptionName(basePrefix, option.value), OptionId(answerId, index));
    assert g[1] == Getter(Label, OptionName(basePrefix, option.value), OptionId(answerId, index));
  }

  /** `r` holds an input and a label getter named `name` for the option `id`. */
  predicate OptionNamedIn(r: seq<Getter>, name: string, id: string) {
    Getter(Input, name, id) in r && Getter(Label, name, id) in r
  }

  lemma OptionNamedInConcat(a: seq<Getter>, b: seq<Getter>, name: string, id: string)
    requires OptionNamedIn(a, name, id) || OptionNamedIn(b, name, id)
    ensures OptionNamedIn(a + b, name, id)
  {
  }

  /** Every option of the list is named: option `i` gets the id
      `<answer_id>-<from + i>` and an input and a label getter under its
      option name. */
  lemma {:induction false} ProcessOptionsNamesEveryOption(style: DetailStyle, answerId: string, options: seq<AnswerOption>,
                                                         basePrefix: string, from: nat, i: nat)
    requires ProcessOptions(style, answerId, options, basePrefix, from).Ok?
    requires i < |options|
    ensures |options[i].value| > 0
    ensures OptionNamedIn(ProcessOptions(style, answerId, options, basePrefix, from).value,
                          OptionName(basePrefix, options[i].value), OptionId(answerId, from + i))
    decreases i
  {
    if i == 0 {
      ProcessOptionsNamesHead(style, answerId, options, basePrefix, from);
      assert options[i] == options[0] && from + i == from;
    } else {
      ProcessOptionsNamesEveryOption(style, answerId, options[1..], basePrefix, from + 1, i - 1);
      ProcessOptionsNamesLater(style, answerId, options, basePrefix, from, i);
    }
  }

  lemma ProcessOptionsNamesHead(style: DetailStyle, answerId: string, options: seq<AnswerOption>, basePrefix: string, from: nat)
    requires ProcessOptions(style, answerId, options, basePrefix, from).Ok? && |options| > 0
    ensures |options[0].value| > 0
    ensures OptionNamedIn(ProcessOptions(style, answerId, options, basePrefix, from).value,
                          OptionName(basePrefix, options[0].value), OptionId(answerId, from))
  {
    ProcessOptionsCons(style, answerId, options, basePrefix, from);
    OptionGettersNameOption(style, answerId, from, options[0], basePrefix);
    OptionNamedInConcat(OptionGetters(style, answerId, from, options[0], basePrefix),
                        ProcessOptions(style, answerId, options[1..], basePrefix, from + 1).value,
                        OptionName(basePrefix, options[0].value), OptionId(answerId, from));
  }

  lemma ProcessOptionsNamesLater(style: DetailStyle, answerId: string, options: seq<AnswerOption>, basePrefix: string, from: nat, i: nat)
    requires ProcessOptions(style, answerId, options, basePrefix, from).Ok? && 0 < i < |options|
    requires ProcessOptions(style, answerId, options[1..], basePrefix, from + 1).Ok?
    requires |options[1..][i - 1].value| > 0
    requires OptionNamedIn(ProcessOptions(style, answerId, options[1..], basePrefix, from + 1).value,
                           OptionName(basePrefix, options[1..][i - 1].value), OptionId(answerId, from + 1 + (i - 1)))
    ensures |options[i].value| > 0
    ensures OptionNamedIn(ProcessOptions(style, answerId, options, basePrefix, from).value,
                          OptionName(basePrefix, options[i].value), OptionId(answerId, from + i))
  {
    ProcessOptionsCons(style, answerId, options, basePrefix, from);
    assert options[1..][i - 1] == options[i] && from + 1 + (i - 1) == from + i;
    OptionNamedInConcat(OptionGetters(style, answerId, from, options[0], basePrefix),
                        ProcessOptions(style, answerId, options[1..], basePrefix, from + 1).value,
                        OptionName(basePrefix, options[i].value), OptionId(answerId, from + i));
  }

  lemma InConcat<T>(x: T, a: seq<T>, b: seq<T>)
    ensures x in a + b <==> x in a || x in b
  {
  }

  /** Nothing else is produced: every getter belongs to one option of the
      list, numbered from `from`. */
  lemma {:induction false} ProcessOptionsFromOptions(style: DetailStyle, answerId: string, options: seq<AnswerOption>,
                                                    basePrefix: string, from: nat, x: Getter)
    requires ProcessOptions(style, answerId, options, basePrefix, from).Ok?
    requires x in ProcessOptions(style, answerId, options, basePrefix, from).value
    ensures exists i :: 0 <= i < |options| && |options[i].value| > 0
                        && x in OptionGetters(style, answerId, from + i, options[i], basePrefix)
    decreases |options|
  {
    ProcessOptionsCons(style, answerId, options, basePrefix, from);
    var head := OptionGetters(style, answerId, from, options[0], basePrefix);
    var tail := ProcessOptions(style, answerId, options[1..], basePrefix, from + 1).value;
    InConcat(x, head, tail);
    if x in tail {
      ProcessOptionsFromOptions(style, answerId, options[1..], basePrefix, from + 1, x);
      OptionGettersOfTail(style, answerId, options, basePrefix, from, x);
    } else {
      OptionGettersOfIndex(style, answerId, options, basePrefix, from, 0, x);
    }
  }

  /** A getter of some option of the tail is a getter of an option of the list. */
  lemma OptionGettersOfTail(style: DetailStyle, answerId: string, options: seq<AnswerOption>,
                            basePrefix: string, from: nat, x: Getter)
    requires 0 < |options|
    requires exists i :: 0 <= i < |options[1..]| && |options[1..][i].value| > 0
                         && x in OptionGetters(style, answerId, from + 1 + i, options[1..][i], basePrefix)
    ensures exists j :: 0 <= j < |options| && |options[j].value| > 0
                        && x in OptionGetters(style, answerId, from + j, options[j], basePrefix)
  {
    var i :| 0 <= i < |options[1..]| && |options[1..][i].value| > 0
             && x in OptionGetters(style, answerId, from + 1 + i, options[1..][i], basePrefix);
    OptionGettersOfLaterIndex(style, answerId, options, basePrefix, from, i, x);
  }

  lemma OptionGettersOfIndex(style: DetailStyle, answerId: string, options: seq<AnswerOption>,
                             basePrefix: string, from: nat, i: nat, x: Getter)
    requires i < |options| && |options[i].value| > 0
    requires x in OptionGetters(style, answerId, from + i, options[i], basePrefix)
    ensures exists j :: 0 <= j < |options| && |options[j].value| > 0
                        && x in OptionGetters(style, answerId, from + j, options[j], basePrefix)
  {
  }

  /** Option `i` of the tail is option `i + 1` of the list. */
  lemma OptionGettersOfLaterIndex(style: DetailStyle, answerId: string, options: seq<AnswerOption>,
                                  basePrefix: string, from: nat, i: nat, x: Getter)
    requires 0 < |options| && i < |options[1..]| && |options[1..][i].value| > 0
    requires x in OptionGetters(style, answerId, from + 1 + i, options[1..][i], basePrefix)
    ensures exists j :: 0 <= j < |options| && |options[j].value| > 0
                        && x in OptionGetters(style, answerId, from + j, options[j], basePrefix)
  {
    var o := options[i + 1];
    assert options[1..][i] == o;
    assert x in OptionGetters(style, answerId, from + (i + 1), o, basePrefix);
  }

  /** The configured answer types, dispatched by equality. */
  function ClassifyAnswerType(kind: string): (r: Result<AnswerKind, PageError>)
    ensures r.Err? ==> r.error == NotConfigured(kind)
  {
    if kind == "Radio" || kind == "Checkbox" then Ok(ChoiceKind(kind == "Radio"))
    else if kind == "Relationship" then Ok(RelationshipKind)
    else if kind == "Date" then Ok(DateKind)
    else if kind == "MonthYearDate" then Ok(MonthYearDateKind)
    else if kind == "Duration" then Ok(DurationKind)
    else if kind in FieldTypes then Ok(FieldKind(kind == "Unit"))
    else Err(NotConfigured(kind))
  }

  const FieldTypes: seq<string> := ["TextField", "Number", "TextArea", "Currency", "Percentage", "Unit", "Dropdown"]

  const ConfiguredTypes: seq<string> :=
    ["Radio", "Checkbox", "Relationship", "Date", "MonthYearDate", "Duration"] + FieldTypes

  /** The dispatch as written: `answer["type"] in "Relationship"` (and the
      same for "Date", "MonthYearDate" and "Duration") is a substring test on
      a string, not a membership test on a tuple. */
  function ClassifyAnswerTypeAsWritten(kind: string): Result<AnswerKind, PageError> {
    if kind == "Radio" || kind == "Checkbox" then Ok(ChoiceKind(kind == "Radio"))
    else if Contains("Relationship", kind) then Ok(RelationshipKind)
    else if Contains("Date", kind) then Ok(DateKind)
    else if Contains("MonthYearDate", kind) then Ok(MonthYearDateKind)
    else if Contains("Duration", kind) then Ok(DurationKind)
    else if kind in FieldTypes then Ok(FieldKind(kind == "Unit"))
    else Err(NotConfigured(kind))
  }

  /** An unknown answer type is always reported, and every configured type
      is accepted. */
  lemma ClassifyRejectsExactlyUnknownTypes(kind: string)
    ensures ClassifyAnswerType(kind).Ok? <==> kind in ConfiguredTypes
  {
  }

  /** On every configured type the code as written dispatches like the
      corrected classification. */
  lemma AsWrittenAgreesOnConfiguredTypes(kind: string)
    requires kind in ConfiguredTypes
    ensures ClassifyAnswerTypeAsWritten(kind) == ClassifyAnswerType(kind)
  {
    if kind in FieldTypes {
      FieldTypeNotSubstring(kind);
      assert kind != "Radio" && kind != "Checkbox";
    } else if kind != "Radio" && kind != "Checkbox" {
      SubstringTypesAgree(kind);
    }
  }

  lemma SubstringTypesAgree(kind: string)
    requires kind == "Relationship" || kind == "Date" || kind == "MonthYearDate" || kind == "Duration"
    ensures ClassifyAnswerTypeAsWritten(kind) == ClassifyAnswerType(kind)
  {
    assert OccursAt(kind, kind, 0);
    if kind == "Date" {
      ContainsKeepsChars("Relationship", kind, 'D');
    } else if kind == "MonthYearDate" {
      MonthYearDateAgrees(kind);
    } else if kind == "Duration" {
      DurationAgrees(kind);
    }
  }

  lemma MonthYearDateAgrees(kind: string)
    requires kind == "MonthYearDate"
    ensures ClassifyAnswerTypeAsWritten(kind) == Ok(MonthYearDateKind)
  {
    assert OccursAt(kind, kind, 0);
    ContainsKeepsChars("Relationship", kind, 'M');
    ContainsKeepsChars("Date", kind, 'M');
  }

  lemma DurationAgrees(kind: string)
    requires kind == "Duration"
    ensures ClassifyAnswerTypeAsWritten(kind) == Ok(DurationKind)
  {
    assert OccursAt(kind, kind, 0);
    ContainsKeepsChars("Relationship", kind, 'u');
    ContainsKeepsChars("Date", kind, 'u');
    ContainsKeepsChars("MonthYearDate", kind, 'u');
  }

  /** No field type occurs inside "Relationship", "Date", "MonthYearDate" or
      "Duration". */
  lemma FieldTypeNotSubstring(kind: string)
    requires kind in FieldTypes
    ensures !Contains("Relationship", kind) && !Contains("Date", kind)
    ensures !Contains("MonthYearDate", kind) && !Contains("Duration", kind)
  {
    var c := if kind == "Dropdown" then 'w' else kind[0];
    assert c in kind;
    assert c !in "Relationship" && c !in "Date" && c !in "MonthYearDate" && c !in "Duration";
    ContainsKeepsChars("Relationship", kind, c);
    ContainsKeepsChars("Date", kind, c);
    ContainsKeepsChars("MonthYearDate", kind, c);
    ContainsKeepsChars("Duration", kind, c);
  }

  /** Input that shows the substring test: the empty type and "Month" are not
      configured, yet the code as written files them under Relationship and
      MonthYearDate instead of raising "not configured". */
  lemma AsWrittenAcceptsUnconfiguredTypes()
    ensures ClassifyAnswerTypeAsWritten("") == Ok(RelationshipKind)
    ensures ClassifyAnswerType("") == Err(NotConfigured(""))
    ensures ClassifyAnswerTypeAsWritten("Month") == Ok(MonthYearDateKind)
    ensures ClassifyAnswerType("Month") == Err(NotConfigured("Month"))
  {
    assert OccursAt("Relationship", "", 0);
    ContainsKeepsChars("Relationship", "Month", 'M');
    ContainsKeepsChars("Date", "Month", 'M');
    assert OccursAt("MonthYearDate", "Month", 0);
  }

  /** The answer name before the "answer" fallback: the PascalCase id with
      the page name and then "Answer" deleted. */
  function StrippedAnswerName(answerId: string, pageName: string): (r: string)
    ensures AllAlnum(r)
  {
    PascalCaseShape(answerId);
    var n := RemoveAll(PascalCaseFromId(answerId), pageName);
    RemoveAllKeepsAlnum(PascalCaseFromId(answerId), pageName);
    RemoveAllKeepsAlnum(n, "Answer");
    RemoveAll(n, "Answer")
  }

  /** The prefix for option and date getters: the camel-cased stripped name
      when long names are needed and that name is non-empty, else "". */
  function AnswerPrefix(stripped: string, longNames: bool): (r: string)
    ensures !longNames || |stripped| == 0 ==> r == ""
    ensures longNames && |stripped| > 0 ==> CamelCase(stripped) == Some(r)
  {
    if |stripped| > 0 && longNames then CamelCase(stripped).value else ""
  }

  /** The name used by single-input getters: "answer" replaces an empty name. */
  function DisplayName(stripped: string): (r: string)
    ensures |r| > 0
    ensures |stripped| > 0 ==> r == stripped
    ensures AllAlnum(stripped) ==> AllAlnum(r)
  {
    if |stripped| == 0 then "answer" else stripped
  }

  function DateGetters(answerId: string, prefix: string): seq<Getter> {
    [ Getter(Input, prefix + "day", answerId + "-day"),
      Getter(Input, prefix + "month", answerId + "-month"),
      Getter(Input, prefix + "year", answerId + "-year"),
      Getter(Label, prefix + "day", answerId + "-day"),
      Getter(Label, prefix + "month", answerId + "-month"),
      Getter(Label, prefix + "year", answerId + "-year") ]
  }

  function MonthYearDateGetters(answerId: string, prefix: string): seq<Getter> {
    [ Getter(Input, prefix + "Month", answerId + "-month"),
      Getter(Input, prefix + "Year", answerId + "-year"),
      Getter(Label, prefix + "Month", answerId + "-month"),
      Getter(Label, prefix + "Year", answerId + "-year") ]
  }

  function DurationGetters(answerId: string, units: seq<string>, prefix: string): (r: seq<Getter>)
    ensures |r| == |units|
    decreases |units|
  {
    if |units| == 0 then []
    else [Getter(Input, prefix + Title(units[0]), answerId + "-" + units[0])] + DurationGetters(answerId, units[1..], prefix)
  }

  function FieldGetters(answerId: string, name: string, unit: bool): seq<Getter> {
    [ Getter(Input, name, answerId),
      Getter(Label, name, answerId),
      Getter(LabelDescription, name, answerId),
      Getter(ErrorItem, name, "") ]
      + (if unit then [Getter(UnitType, name, answerId)] else [])
  }

  /** The getters written for an answer of an already classified type. */
  function KindGetters(kind: AnswerKind, answer: Answer, prefix: string, name: string): (r: Result<seq<Getter>, PageError>)
    requires |name| > 0
    ensures r.Err? ==> r.error == EmptyOptionValue(answer.id)
    ensures r.Ok? && kind == ChoiceKind(true) ==> |r.value| > 0 && r.value[|r.value| - 1] == Getter(ClearSelection, "", "")
  {
    match kind
    case ChoiceKind(radio) =>
      (match ProcessOptions(DetailAnswer, answer.id, answer.options, prefix, 0)
       case Err(e) => Err(e)
       case Ok(options) => Ok(options + (if radio then [Getter(ClearSelection, "", "")] else [])))
    case RelationshipKind =>
      (match ProcessOptions(DetailAnswer, answer.id, answer.options, prefix, 0)
       case Err(e) => Err(e)
       case Ok(options) => Ok(options + [Getter(RelationshipPlayback, "", "")]))
    case DateKind => Ok(DateGetters(answer.id, prefix))
    case MonthYearDateKind => Ok(MonthYearDateGetters(answer.id, prefix))
    case DurationKind => Ok(DurationGetters(answer.id, answer.units, prefix))
    case FieldKind(unit) => Ok(FieldGetters(answer.id, CamelCase(name).value, unit))
  }

  /** The getters `process_answer` writes for one answer, or the exception it
      raises, with the corrected type dispatch (exact type names). */
  function ProcessAnswer(answer: Answer, longNames: bool, pageName: string): (r: Result<seq<Getter>, PageError>)
    ensures ClassifyAnswerType(answer.kind).Err? ==> r == Err(NotConfigured(answer.kind))
    ensures r.Err? ==> r.error == NotConfigured(answer.kind) || r.error == EmptyOptionValue(answer.id)
    ensures r.Ok? && answer.kind == "Radio" ==> |r.value| > 0 && r.value[|r.value| - 1] == Getter(ClearSelection, "", "")
  {
    var stripped := StrippedAnswerName(answer.id, pageName);
    var prefix := AnswerPrefix(stripped, longNames);
    var name := DisplayName(stripped);
    match ClassifyAnswerType(answer.kind)
    case Err(e) => Err(e)
    case Ok(kind) => KindGetters(kind, answer, prefix, name)
  }

  /** `process_answer` as written, with the substring type dispatch. On every
      configured type it writes what the corrected version writes. */
  function ProcessAnswerAsWritten(answer: Answer, longNames: bool, pageName: string): (r: Result<seq<Getter>, PageError>)
    ensures answer.kind in ConfiguredTypes ==> r == ProcessAnswer(answer, longNames, pageName)
    ensures r.Err? ==> r.error == NotConfigured(answer.kind) || r.error == EmptyOptionValue(answer.id)
  {
    var stripped := StrippedAnswerName(answer.id, pageName);
    var prefix := AnswerPrefix(stripped, longNames);
    var name := DisplayName(stripped);
    var classified := ClassifyAnswerTypeAsWritten(answer.kind);
    assert answer.kind in ConfiguredTypes ==> classified == ClassifyAnswerType(answer.kind) by {
      if answer.kind in ConfiguredTypes {
        AsWrittenAgreesOnConfiguredTypes(answer.kind);
      }
    }
    match classified
    case Err(e) => Err(e)
    case Ok(kind) => KindGetters(kind, answer, prefix, name)
  }

  /** The discrepancy on whole answers: an answer of the unconfigured type
      "Month" gets month-year getters from the code as written, where the
      corrected version raises "not configured". */
  lemma ProcessAnswerAsWrittenAcceptsMonth(answer: Answer, longNames: bool, pageName: string)
    requires answer.kind == "Month"
    ensures ProcessAnswerAsWritten(answer, longNames, pageName)
         == Ok(MonthYearDateGetters(answer.id, AnswerPrefix(StrippedAnswerName(answer.id, pageName), longNames)))
    ensures ProcessAnswer(answer, longNames, pageName) == Err(NotConfigured("Month"))
  {
    AsWrittenAcceptsUnconfiguredTypes();
  }

  lemma {:induction false} DurationNamesAreIdentifiers(answerId: string, units: seq<string>, prefix: string)
    requires AllAlnum(prefix)
    requires forall k :: 0 <= k < |units| ==> AllAlnum(units[k])
    ensures NamesAreIdentifiers(DurationGetters(answerId, units, prefix))
    decreases |units|
  {
    if |units| > 0 {
      DurationNamesAreIdentifiers(answerId, units[1..], prefix);
      TitleKeepsAlnum(units[0], false);
      AllAlnumConcat(prefix, Title(units[0]));
    }
  }

  lemma {:induction false} TitleKeepsAlnum(p: string, afterLetter: bool)
    requires AllAlnum(p)
    ensures AllAlnum(TitleFrom(p, afterLetter))
    decreases |p|
  {
    if |p| > 0 {
      TitleKeepsAlnum(p[1..], IsLetter(p[0]));
      AllAlnumConcat([CaseChar(p[0], afterLetter)], TitleFrom(p[1..], IsLetter(p[0])));
    }
  }

  lemma FixedNamesAreIdentifiers(answerId: string, prefix: string)
    requires AllAlnum(prefix)
    ensures NamesAreIdentifiers(DateGetters(answerId, prefix))
    ensures NamesAreIdentifiers(MonthYearDateGetters(answerId, prefix))
  {
    assert AllAlnum("day") && AllAlnum("month") && AllAlnum("year");
    assert AllAlnum("Month") && AllAlnum("Year");
    AllAlnumConcat(prefix, "day");
    AllAlnumConcat(prefix, "month");
    AllAlnumConcat(prefix, "year");
    AllAlnumConcat(prefix, "Month");
    AllAlnumConcat(prefix, "Year");
  }

  lemma KindNamesAreIdentifiers(kind: AnswerKind, answer: Answer, prefix: string, name: string)
    requires |name| > 0 && AllAlnum(prefix) && AllAlnum(name)
    requires forall k :: 0 <= k < |answer.units| ==> AllAlnum(answer.units[k])
    requires KindGetters(kind, answer, prefix, name).Ok?
    ensures NamesAreIdentifiers(KindGetters(kind, answer, prefix, name).value)
  {
    match kind
    case ChoiceKind(_) =>
      assert AllAlnum("");
    case RelationshipKind =>
      assert AllAlnum("");
    case DateKind =>
      FixedNamesAreIdentifiers(answer.id, prefix);
    case MonthYearDateKind =>
      FixedNamesAreIdentifiers(answer.id, prefix);
    case DurationKind =>
      DurationNamesAreIdentifiers(answer.id, answer.units, prefix);
    case FieldKind(_) =>
      assert AllAlnum(CamelCase(name).value);
  }

  /** Every getter name `process_answer` produces is made of `[0-9a-zA-Z]`
      (duration units are assumed alphanumeric, as unit names are). */
  lemma ProcessAnswerNamesAreIdentifiers(answer: Answer, longNames: bool, pageName: string)
    requires forall k :: 0 <= k < |answer.units| ==> AllAlnum(answer.units[k])
    requires ProcessAnswer(answer, longNames, pageName).Ok?
    ensures NamesAreIdentifiers(ProcessAnswer(answer, longNames, pageName).value)
  {
    var stripped := StrippedAnswerName(answer.id, pageName);
    var name := DisplayName(stripped);
    var kind := ClassifyAnswerType(answer.kind).value;
    KindNamesAreIdentifiers(kind, answer, AnswerPrefix(stripped, longNames), name);
  }
}
