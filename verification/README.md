# Questionnaire navigation and page-object naming

This project models two pure-logic parts of a survey runner and proves
properties of them in Dafny.

1. **The questionnaire navigator.** A questionnaire schema is a list of
   groups. Each group is a list of blocks and may carry:
   - a skip condition;
   - a repeat rule (`answer_value`, `answer_count`, `answer_count_minus_one`);
   - a front-end navigation entry, either a fixed title or a name built from answers.

   Blocks may carry their own skip condition and goto rules. A goto rule
   targets a block, a group or the summary. It fires on answer equality,
   answer inequality or a metadata variant flag.

   The navigator works in four steps:
   - It expands the schema into screens, `Location(group_id, group_instance, block_id)`.
     Skipped groups are dropped. Repeating groups expand into instances
     `0 .. N-1`. Block skip conditions are evaluated per instance.
   - It walks the expanded list, following the first goto rule that fires.
   - It puts the preceding `introduction` block before the path. It adds the
     closing blocks (`summary`, `thank-you`) after it, at instance 0 of the
     last group, when the walk reaches the end or jumps to the summary.
   - It answers "next" and "previous" as the neighbours of a location in that
     path.

   The front-end navigation list has one link per group, or one per person
   for a repeating group. A person's link is named from their name answers.
   A link is marked completed when every screen of its group instance is
   completed. It is highlighted for the current group.

   The navigator's own implementation is not part of this model. Its
   behaviour is fixed by the assertions of
   `tests/app/questionnaire/test_navigator.py`. Two modules restate most of
   those assertions as lemmas over small schemas built to the tests'
   expectations. `Scenarios` restates the path, next and previous tests.
   `NavigationScenarios` restates the front-end navigation tests. The
   tests that no lemma restates on a concrete schema are listed under
   "Left out".

2. **The page-object generators' naming helpers.** Both generators have
   them, in `tests/functional/generate_pages.py` and
   `tests/new_functional/generate_pages.py`. They are:
   - the id → PascalCase conversion;
   - `camel_case`;
   - the long-names decision;
   - question collection over a block's variants;
   - `find_kv`;
   - option naming;
   - the type dispatch of `process_answer`.

   Each generated getter is modelled as a record of template, substituted
   name and substituted id. The generators write these to a file; the model
   only returns them.

Modules, in dependency order:
- `Outcomes`: `Option` and `Result`.
- `Text`: ASCII classes, substring search and removal, split/join, decimal numerals.
- `Questionnaire`: schema, answers and locations.
- `Rules`: conditions, goto rules and repeat counts.
- `Paths`: expansion, the routing walk and the location path.
- `Navigator`: next and previous.
- `PathProperties`: no repeated screens, neighbours, skipped groups, repeat layout.
- `FrontEnd`: navigation links.
- `Scenarios`: the path, next and previous test cases.
- `NavigationScenarios`: the front-end navigation test cases.
- `Naming`: PascalCase.
- `PageSchema`: answers and getters.
- `FunctionalPages` and `NewFunctionalPages`: the two generators.

## Model

| member | source | states |
|---|---|---|
| Navigator.IndexOf | tests/app/questionnaire/test_navigator.py:16-50 | a location's index is its first occurrence on the path, and there is none exactly when it is not on the path |
| Navigator.NextLocation | tests/app/questionnaire/test_navigator.py:16-32 | asking for the next of a location that is not on the path is a not-found error, and only then |
| Navigator.PreviousLocation | tests/app/questionnaire/test_navigator.py:34-50 | not-found exactly off the path; there is no previous location exactly for the first location of the path |
| Navigator.NextAndPreviousAreNeighbours | tests/app/questionnaire/test_navigator.py:16-50 | on a path without repeats, next of path[i] is path[i+1] and previous of path[i+1] is path[i] |
| Navigator.LastHasNoNext | tests/app/questionnaire/test_navigator.py:16-32 | at the end of a path without repeats `get_next_location` gives no location rather than an error |
| Navigator.ForwardThenBack | tests/app/questionnaire/test_navigator.py:225-267 | going forward then back (or back then forward) returns to the starting location |
| Navigator.GetNextLocation | tests/app/questionnaire/test_navigator.py:165-212 | a path error is passed on; a location off the path is not found; on a path without repeats the next of the i-th screen is the (i+1)-th and the last has none (PathProperties.LocationPathNoDup says when the path has no repeats) |
| Navigator.GetPreviousLocation | tests/app/questionnaire/test_navigator.py:214-223 | a path error is passed on; a location off the path is not found; on a path without repeats the previous of the i-th screen is the (i-1)-th and the first has none |
| Rules.FindAnswer | tests/app/questionnaire/test_navigator.py:927-970 | the answer read for a condition is the first stored answer for that id and instance; none exactly when no such answer is stored |
| Rules.MissingDataIsFalse | tests/app/questionnaire/test_navigator.py:958-970 | a condition on a missing answer or an absent metadata flag does not hold, so missing data gives the default path |
| Rules.EqualsAndNotEqualsComplement | tests/app/questionnaire/test_navigator.py:927-956 | `equals` and `not equals` on the same value never both hold, and one holds once the answer exists |
| Rules.FirstFiring | tests/app/questionnaire/test_navigator.py:70-112 | the chosen goto is the first rule whose conditions all hold; none exactly when no rule fires |
| Rules.ParseRepeatKind | tests/app/questionnaire/test_navigator.py:384-523 | exactly the three repeat types are accepted; any other type is an error naming it |
| Rules.CountInstances | tests/app/questionnaire/test_navigator.py:436-484 | the count of answer instances in a group instance is zero exactly when no answer of that id is stored in that group instance |
| Rules.CountGrowsWithNewInstance | tests/app/questionnaire/test_navigator.py:436-484 | adding an answer with a new answer_instance raises the count by one |
| Rules.CountIgnoresRepeatedInstance | tests/app/questionnaire/test_navigator.py:436-484 | adding an answer for an instance already present leaves the count unchanged: distinct instances are counted |
| Rules.AppendInstances | tests/app/questionnaire/test_navigator.py:436-484 | the instances of an id after adding an answer are the old ones plus the new answer's instance when it is in the counted group instance, and the old ones otherwise |
| Rules.CountIgnoresOtherGroupInstance | tests/app/questionnaire/test_navigator.py:436-484 | an answer recorded in another group instance leaves the count unchanged: answers are counted within the referenced group instance |
| Rules.RepeatCount | tests/app/questionnaire/test_navigator.py:384-523 | only an unknown repeat type fails; `answer_value` with the numeral of n repeats n times and with a missing or non-numeric answer 0 times; `answer_count` is the number of distinct answer instances; `answer_count_minus_one` is one less, or 0 when the count is 0 |
| Paths.InstanceEntriesMembers | tests/app/questionnaire/test_navigator.py:616-661 | a screen belongs to an instance exactly when it is a block of the group that is not skipped in that instance |
| Paths.InstancesEntriesMembers | tests/app/questionnaire/test_navigator.py:384-434 | the screens of instances 0..n-1 are exactly the kept blocks of each instance below n |
| Paths.InstanceCount | tests/app/questionnaire/test_navigator.py:384-523 | a group without a repeat rule has one instance; counting fails exactly when the group's repeat type is unknown |
| Paths.GroupEntries | tests/app/questionnaire/test_navigator.py:927-970 | a skipped group contributes no screens; a group fails only when it is not skipped and its repeat count fails |
| Paths.GroupEntriesFromGroup | tests/app/questionnaire/test_navigator.py:927-970 | every screen of a group comes from a kept block of that group that is not skipped |
| Paths.ExpandFromGroups | tests/app/questionnaire/test_navigator.py:927-970 | every expanded screen belongs to a group that is not skipped |
| Paths.ExpandFails | tests/app/questionnaire/test_navigator.py:384-523 | expansion fails exactly when some group that is not skipped has a failing repeat count |
| Paths.BlockIndexForLocation | tests/app/questionnaire/test_navigator.py:1486-1516 | the index found is the first entry with that exact location; not found exactly when no entry matches |
| Paths.MismatchIsNotFound | tests/app/questionnaire/test_navigator.py:1486-1516 | a location whose group id, or whose block id, matches no entry is not found |
| Paths.FirstOfGroup | tests/app/questionnaire/test_navigator.py:70-112 | a group goto lands on the first screen of that group at or after the start, and fails exactly when there is none |
| Paths.ResolveTarget | tests/app/questionnaire/test_navigator.py:70-112 | a block goto lands on that block in the current group instance; a group goto lands in that group |
| Paths.Walk | tests/app/questionnaire/test_navigator.py:114-163 | a routing walk from a screen starts with that screen; a walk from past the end is empty and reaches the end |
| PathProperties.WalkFallThrough | tests/app/questionnaire/test_navigator.py:331-365 | a block without goto rules is followed by the walk from the next screen |
| PathProperties.WalkJump | tests/app/questionnaire/test_navigator.py:663-704 | the first goto that fires sends the walk forward to its target, and the path continues from there |
| PathProperties.WalkToSummary | tests/app/questionnaire/test_navigator.py:304-329 | a goto to the summary that fires ends the walk at that block, reaching the summary |
| PathProperties.WalkWaits | tests/app/questionnaire/test_navigator.py:367-382 | a block whose gotos all fail ends the walk at that block |
| PathProperties.WalkLoopsBack | tests/app/questionnaire/test_navigator.py:706-806 | a goto that fires towards an earlier screen records that screen and stops |
| PathProperties.WalkTargetMissing | tests/app/questionnaire/test_navigator.py:70-112 | a goto whose target is not among the expanded screens makes the walk fail with that error |
| Paths.Preamble | tests/app/questionnaire/test_navigator.py:52-68 | one screen precedes the routing path exactly when the schema has an introduction and at least one group, and none otherwise; that screen is the introduction at instance 0 of the first group |
| Paths.Closing | tests/app/questionnaire/test_navigator.py:616-661 | the closing screens are the schema's closing blocks, in order, in the last group at instance 0 |
| PathProperties.InstanceEntriesDistinct | tests/app/questionnaire/test_navigator.py:616-661 | an instance of a group with distinct block ids has no screen twice |
| PathProperties.InstancesEntriesDistinct | tests/app/questionnaire/test_navigator.py:436-484 | the instances of a repeating group together have no screen twice |
| PathProperties.ExpandDistinct | tests/app/questionnaire/test_navigator.py:384-523 | the expansion of well-formed groups has no screen twice |
| PathProperties.WalkShape | tests/app/questionnaire/test_navigator.py:114-163 | every screen a walk visits is an expanded screen, at or after the start unless it looped back, and a forward walk over distinct screens visits none twice |
| PathProperties.IntroductionOnPathExactly | tests/app/questionnaire/test_navigator.py:52-68 | for every well-formed schema, some screen of the location path is the introduction exactly when the schema has one (and a group), and then it is the first screen |
| PathProperties.RouteAvoidsFixedScreens | tests/app/questionnaire/test_navigator.py:52-68 | no routed screen is the introduction or a closing block of a well-formed schema |
| PathProperties.LocationPathNoDup | tests/app/questionnaire/test_navigator.py:16-50 | the location path of a well-formed schema has no location twice when the walk did not loop back |
| PathProperties.ForwardThenBackOnLocationPath | tests/app/questionnaire/test_navigator.py:225-267 | on such a schema, `get_previous_location` undoes `get_next_location`, and the other way round |
| PathProperties.NextIsFollowingScreen | tests/app/questionnaire/test_navigator.py:16-50 | on such a schema the navigator's next and previous are the neighbouring positions of the location path |
| PathProperties.SkippedGroupAbsent | tests/app/questionnaire/test_navigator.py:927-970 | no block of a skipped group is on the location path, other than the introduction and closing blocks |
| PathProperties.WalkWithoutRules | tests/app/questionnaire/test_navigator.py:331-365 | without goto rules the walk visits every remaining screen in order and reaches the end |
| PathProperties.PathWithoutRules | tests/app/questionnaire/test_navigator.py:331-365 | without goto rules the location path is introduction, every expanded screen, then the closing blocks |
| PathProperties.InstancesLayout | tests/app/questionnaire/test_navigator.py:384-523 | instances are laid out one after another: block b of instance i is at position i*width+b |
| PathProperties.RepeatingGroupLayout | tests/app/questionnaire/test_navigator.py:436-484 | a repeating group without block skips contributes count*blocks screens, block b of instance i at i*width+b |
| FrontEnd.NamePartFinds | tests/app/questionnaire/test_navigator.py:1381-1484 | a name part is the first stored answer for that id and answer instance, and is absent exactly when there is none |
| FrontEnd.PresentPartsMembers | tests/app/questionnaire/test_navigator.py:1381-1484 | the parts joined into a person's name are exactly the present name answers |
| FrontEnd.PresentPartsAll | tests/app/questionnaire/test_navigator.py:1381-1484 | when every part is present, the parts are the answers in name-id order |
| FrontEnd.PresentPartsNone | tests/app/questionnaire/test_navigator.py:1381-1484 | with no part present there are no parts |
| FrontEnd.PersonName | tests/app/questionnaire/test_navigator.py:1381-1484 | a link name is built only from the person's name answers: when none of the name parts is answered it is the empty string |
| FrontEnd.PersonNameJoinsParts | tests/app/questionnaire/test_navigator.py:1381-1484 | the link name joins the answered name parts with single spaces: split at its spaces it gives back exactly those parts, in order, when none holds a space |
| FrontEnd.InstanceScreens | tests/app/questionnaire/test_navigator.py:998-1142 | the screens of a person are exactly the group's screens with that instance |
| FrontEnd.InstanceScreensFirst | tests/app/questionnaire/test_navigator.py:998-1142 | a person's link is the first screen of their instance |
| FrontEnd.PersonNames | tests/app/questionnaire/test_navigator.py:1381-1484 | the i-th person's name is read from answer instance i |
| FrontEnd.PersonEntriesFromInstances | tests/app/questionnaire/test_navigator.py:998-1142 | every person link is the link for one of the instances |
| FrontEnd.PersonEntriesCoverInstances | tests/app/questionnaire/test_navigator.py:998-1142 | every instance that has screens gets a person link |
| FrontEnd.GroupNav | tests/app/questionnaire/test_navigator.py:808-856 | a titled group has one link when it has screens and none otherwise; a repeating group has at most one link per instance |
| FrontEnd.GroupNavMeaning | tests/app/questionnaire/test_navigator.py:858-925 | a link points to the first screen of its group (or instance); it is completed exactly when all of those screens are completed and highlighted exactly for the current group (and instance); its name is the group title or the person's name |
| FrontEnd.Navigation | tests/app/questionnaire/test_navigator.py:808-856 | the navigation list fails exactly when expansion fails |
| FrontEnd.NavigationMembers | tests/app/questionnaire/test_navigator.py:808-925 | a link is in the navigation list exactly when it is a link of one of the groups |
| FrontEnd.NavigationSplits | tests/app/questionnaire/test_navigator.py:808-856 | cutting the groups at any point cuts the list there: the earlier groups' links come first |
| FrontEnd.NavigationInGroupOrder | tests/app/questionnaire/test_navigator.py:808-856 | the links of group p come after those of every earlier group and before those of every later one |
| FrontEnd.FrontEndNavigation | tests/app/questionnaire/test_navigator.py:808-856 | `get_front_end_navigation` fails exactly when expansion fails |
| FrontEnd.NavigationMeaning | tests/app/questionnaire/test_navigator.py:998-1379 | every link belongs to a group that is not skipped; it is a person link exactly for a repeating group; completed means all its screens are completed; it is highlighted only for the current group |
| NavigationScenarios.NoInstancesNoLink | tests/app/questionnaire/test_navigator.py:808-856 | a repeating group repeated zero times has no screens and gets no link |
| NavigationScenarios.TwoPeopleLinks | tests/app/questionnaire/test_navigator.py:998-1142 | two people get one link each, named from their answers, pointing at the first screen of their own instance and completed exactly when that instance's screens are |
| NavigationScenarios.TwoItemsLink | tests/app/questionnaire/test_navigator.py:1143-1270 | a titled group repeated twice gets one link, to its first instance, completed exactly when both instances are |
| NavigationScenarios.NoBlocksCompleted | tests/app/questionnaire/test_navigator.py:808-856 | with no answers and nothing completed, the list is the four titled links, none completed, only the current group highlighted |
| NavigationScenarios.NonRepeatingBlockCompleted | tests/app/questionnaire/test_navigator.py:858-925 | completing every screen of the first group marks its link completed and no other |
| NavigationScenarios.HouseholdCompletedNavigation | tests/app/questionnaire/test_navigator.py:998-1142 | with Jim and Ben answered and all household screens completed, the list has the Household link and both person links completed, in schema order |
| NavigationScenarios.PeopleAndItemsNotCompleted | tests/app/questionnaire/test_navigator.py:1143-1270 | two people and two extra-cover items give seven links; none is completed, because each group has a screen left uncompleted |
| NavigationScenarios.ItemsCompletedNavigation | tests/app/questionnaire/test_navigator.py:1272-1379 | with no people and both extra-cover items completed, the Extra Cover and Extra Cover Items links are completed and there is no person link |
| Scenarios.FlagSetRoutesToBlock3 | tests/app/questionnaire/test_navigator.py:663-683 | with the variant flag set, the next location after block1 is block3 |
| Scenarios.FlagAbsentRoutesToBlock2 | tests/app/questionnaire/test_navigator.py:685-704 | with the flag absent, the next location after block1 is block2 |
| Scenarios.SkippedPath | tests/app/questionnaire/test_navigator.py:927-940 | when the skip condition holds, the skipped group is absent from the path |
| Scenarios.KeptPath | tests/app/questionnaire/test_navigator.py:942-970 | when the skip condition does not hold, the path keeps the group |
| Scenarios.YesSkipsGroup | tests/app/questionnaire/test_navigator.py:927-940 | answering "Yes" makes the next location the last group's block |
| Scenarios.NoKeepsGroup | tests/app/questionnaire/test_navigator.py:942-956 | answering "No" makes the next location the should-skip block |
| Scenarios.NoAnswerKeepsGroup | tests/app/questionnaire/test_navigator.py:958-970 | with no answer the next location is the should-skip block |
| Scenarios.HouseholdPath | tests/app/questionnaire/test_navigator.py:384-523 | with n repeats, the household path is introduction, household composition, two blocks per person, then summary |
| Scenarios.RepeatByValue | tests/app/questionnaire/test_navigator.py:384-410 | an answer value "2" gives instances 0 and 1 of both repeating blocks |
| Scenarios.ZeroRepeats | tests/app/questionnaire/test_navigator.py:412-434 | an answer value "0" gives no repeating screens |
| Scenarios.RepeatByCount | tests/app/questionnaire/test_navigator.py:436-484 | three answered people give instances 0, 1 and 2 |
| Scenarios.RepeatByCountMinusOne | tests/app/questionnaire/test_navigator.py:486-523 | two answered people with `answer_count_minus_one` give only instance 0 |
| Scenarios.BackToIntroduction | tests/app/questionnaire/test_navigator.py:525-535 | the previous location of household composition is the introduction |
| Scenarios.TwoPeoplePath | tests/app/questionnaire/test_navigator.py:537-614 | two people give the full path ending with the summary |
| Scenarios.RepeatNeighbours | tests/app/questionnaire/test_navigator.py:537-614 | the previous of the second person's block 2 is their block 1, and its next is the summary |
| Scenarios.ConditionalRepeatPath | tests/app/questionnaire/test_navigator.py:616-661 | the age block is kept for person 0 and skipped for person 1 ("Shoe Size Only"), and summary and thank-you follow at instance 0 |
| Scenarios.StarTrekGoesToSummary | tests/app/questionnaire/test_navigator.py:304-329 | a goto to the summary makes it the next location and ends the path |
| Scenarios.CheckboxPathWithoutRules | tests/app/questionnaire/test_navigator.py:331-365 | with no routing rules, whatever the answers, the path is the introduction, both questions and the summary, and the next location after the first question is the second |
| Scenarios.LightSideStopsBeforeSummary | tests/app/questionnaire/test_navigator.py:367-382 | a block whose rules match nothing ends the path, so the summary is not on it |
| Scenarios.UnknownLocationsNotFound | tests/app/questionnaire/test_navigator.py:1486-1516 | an unknown group id and an unknown block id are both not-found errors |
| Scenarios.NamePartsFound | tests/app/questionnaire/test_navigator.py:1381-1484 | the name answers of the test are read per answer instance |
| Scenarios.PersonLinkNames | tests/app/questionnaire/test_navigator.py:1381-1484 | the links are named "Joe Bloggs" and "Jim": parts joined with a space, absent parts dropped |
| Text.ParseDecimalRoundTrip | tests/app/questionnaire/test_navigator.py:384-434 | reading back the numeral of n gives n |
| Text.JoinSplit | tests/functional/generate_pages.py:263-266 | joining the pieces of a split with the separator restores the string |
| Text.SplitJoin | tests/functional/generate_pages.py:263-266 | splitting a join of separator-free pieces restores the pieces |
| Text.RemoveAllDeletesWholeOccurrences | tests/functional/generate_pages.py:313-314 | `replace(x, "")` shortens the string by whole occurrences of x |
| Text.RemoveAllAbsent | tests/functional/generate_pages.py:313-314 | removing a substring that does not occur changes nothing |
| Naming.PascalCaseMatchesReference | tests/functional/generate_pages.py:263-266 | the regex/split/title/join pipeline equals a one-pass reference that keeps only `[0-9a-zA-Z]`, upper-cases each letter not preceded by a letter and lower-cases the others |
| Naming.CollapseThenDropDashes | tests/functional/generate_pages.py:263-266 | collapsing separator runs to '-' and then dropping the dashes gives the reference |
| Naming.PascalCaseShape | tests/functional/generate_pages.py:263-266 | the result holds only alphanumerics (no '-'), is no longer than its input, maps "" to "" and does not start lower-case |
| Naming.PascalCaseOfLetterStart | tests/functional/generate_pages.py:263-266 | an id starting with a letter keeps it, upper-cased, at the front |
| FunctionalPages.CamelCase | tests/functional/generate_pages.py:269-271 | nothing for "", otherwise the same length, first character lower-cased, rest unchanged |
| FunctionalPages.CamelCaseIdempotent | tests/functional/generate_pages.py:269-271 | applying camel_case twice equals applying it once |
| FunctionalPages.CamelCaseKeepsAlnum | tests/functional/generate_pages.py:269-271 | camel_case of an alphanumeric string is alphanumeric |
| FunctionalPages.VariantQuestionsMembers | tests/functional/generate_pages.py:274-282 | the variant questions are exactly the questions present in some variant |
| FunctionalPages.GetAllQuestions | tests/functional/generate_pages.py:274-282 | the block's own question comes first when present; the rest are exactly the variants' questions |
| FunctionalPages.LongNamesRequired | tests/functional/generate_pages.py:469-477 | long names exactly when there is more than one question or more than one answer |
| FunctionalPages.FindKv | tests/functional/generate_pages.py:535-542 | true exactly when some answer of some collected question has the key with a listed value |
| FunctionalPages.OptionName | tests/functional/generate_pages.py:285-307 | an option name is non-empty, starts lower-case and is alphanumeric when the prefix is |
| FunctionalPages.ProcessOptions | tests/functional/generate_pages.py:285-307 | fails exactly when some option value is empty; otherwise at least two getters per option, with identifier names; the older generator (tests/new_functional/generate_pages.py:104-130) is the same function with its own detail-input style |
| FunctionalPages.ProcessOptionsNamesEveryOption | tests/functional/generate_pages.py:285-307 | every option i gets id "<answer_id>-<i>", with an input and a label getter under its option name |
| FunctionalPages.ProcessOptionsFromOptions | tests/functional/generate_pages.py:285-307 | every getter produced belongs to one option of the list, under that option's number |
| FunctionalPages.ClassifyRejectsExactlyUnknownTypes | tests/functional/generate_pages.py:321-362 | a type is accepted exactly when it is one of the configured types |
| FunctionalPages.AsWrittenAgreesOnConfiguredTypes | tests/functional/generate_pages.py:321-362 | on configured types, the substring dispatch as written agrees with the exact dispatch |
| FunctionalPages.AsWrittenAcceptsUnconfiguredTypes | tests/functional/generate_pages.py:326-337 | the dispatch as written accepts "" and "Month", which the exact dispatch rejects |
| FunctionalPages.StrippedAnswerName | tests/functional/generate_pages.py:310-314 | the answer name with the page name and "Answer" removed is alphanumeric |
| FunctionalPages.AnswerPrefix | tests/functional/generate_pages.py:316 | the prefix is camel_case of the stripped name under long names, and empty otherwise |
| FunctionalPages.DisplayName | tests/functional/generate_pages.py:318-319 | an empty name becomes "answer"; any other name is kept; an alphanumeric name stays alphanumeric |
| FunctionalPages.KindGetters | tests/functional/generate_pages.py:321-359 | only an empty option value fails; a Radio's getters end with the clear-selection button |
| FunctionalPages.ProcessAnswer | tests/functional/generate_pages.py:310-362 | with the corrected type dispatch (see ## Findings): an unconfigured type raises "not configured"; the only other failure is an empty option value; Radio ends with clear selection |
| FunctionalPages.ProcessAnswerAsWritten | tests/functional/generate_pages.py:310-362 | with the dispatch as written, the getters equal the corrected ones on every configured type, and the only failures are "not configured" and an empty option value |
| FunctionalPages.ProcessAnswerAsWrittenAcceptsMonth | tests/functional/generate_pages.py:326-337 | an answer of type "Month" gets month-year getters as written, where the corrected version raises "not configured" |
| FunctionalPages.DurationNamesAreIdentifiers | tests/functional/generate_pages.py:520-532 | duration getters have identifier names when the prefix and the units are alphanumeric |
| FunctionalPages.FixedNamesAreIdentifiers | tests/functional/generate_pages.py:480-517 | date and month-year getters have identifier names |
| FunctionalPages.ProcessAnswerNamesAreIdentifiers | tests/functional/generate_pages.py:310-362 | every getter name produced for an answer is an identifier (alphanumeric) |
| NewFunctionalPages.CamelCase | tests/new_functional/generate_pages.py:100-101 | needs a non-empty input; same length, first character lower-cased, rest unchanged |
| NewFunctionalPages.CamelCaseAgrees | tests/new_functional/generate_pages.py:100-101 | on non-empty input it agrees with the functional generator's camel_case |
| NewFunctionalPages.LongNamesRequired | tests/new_functional/generate_pages.py:194-205 | long names when there is more than one question, or more than one answer unless the two answers end with an "other" detail |
| NewFunctionalPages.LongNamesVersions | tests/new_functional/generate_pages.py:194-205 | this version asks for long names no more often than the functional one, and differs exactly for a lone question with an "other" detail |
| NewFunctionalPages.FindKv | tests/new_functional/generate_pages.py:221-228 | true exactly when some answer of some question of some section has the key with a listed value |
| NewFunctionalPages.ClassifyAnswerType | tests/new_functional/generate_pages.py:146-169 | a type is accepted exactly when it is configured; otherwise "not configured" |
| NewFunctionalPages.AsWrittenAgreesOnConfiguredTypes | tests/new_functional/generate_pages.py:146-169 | on configured types the dispatch as written agrees with the exact one |
| NewFunctionalPages.AsWrittenAcceptsUnconfiguredTypes | tests/new_functional/generate_pages.py:149-153 | the dispatch as written accepts "" and "Year", which the exact dispatch rejects |
| NewFunctionalPages.AnswerName | tests/new_functional/generate_pages.py:137-139 | the answer name, with the page name and "Answer" removed, is alphanumeric |
| NewFunctionalPages.AnswerPrefix | tests/new_functional/generate_pages.py:140 | the prefix is camel_case of the name under long names, and empty otherwise |
| NewFunctionalPages.ShortNames | tests/new_functional/generate_pages.py:137-140 | without long names the answer name is "answer" and the prefix is empty |
| NewFunctionalPages.KindGetters | tests/new_functional/generate_pages.py:146-166 | the only failures are an empty option value and camel_case of an empty name |
| NewFunctionalPages.ProcessAnswer | tests/new_functional/generate_pages.py:133-169 | with the corrected type dispatch (see ## Findings): an answer with a parent answer id writes nothing; failures are only "not configured", an empty option value or an empty name |
| NewFunctionalPages.ProcessAnswerAsWritten | tests/new_functional/generate_pages.py:133-169 | with the dispatch as written, the getters equal the corrected ones on every configured type; child answers write nothing |
| NewFunctionalPages.ProcessAnswerAsWrittenAcceptsYear | tests/new_functional/generate_pages.py:149-153 | a top-level answer of type "Year" gets month-year getters as written, where the corrected version raises "not configured" |
| NewFunctionalPages.ProcessAnswerFailsExactly | tests/new_functional/generate_pages.py:133-169 | with the corrected type dispatch, an answer fails exactly when it has no parent and its type is unconfigured, it has an empty option value, or it is a field with an empty name |
| NewFunctionalPages.ShortNamedInput | tests/new_functional/generate_pages.py:137-166 | a lone field answer gets input and label getters named "answer" |
| NewFunctionalPages.ProcessAnswerNamesAreIdentifiers | tests/new_functional/generate_pages.py:133-169 | every getter name produced for an answer is an identifier |
| PageSchema.OptionIdsDistinct | tests/functional/generate_pages.py:285-293 | different option positions get different option ids |

## Left out

- The navigator's implementation file and the schema JSON files it loads are not part of this model. Its behaviour is modelled from the test assertions. The scenario schemas are reduced: each has only the blocks and rules a test's assertions depend on. The star-wars schema has one invented block, reached by the "Light Side" answer, whose rules match nothing.
- `test_next_block` and `test_previous_block` (`test_navigator.py:16-50`) and the two introduction tests (`52-68`) are not restated on a concrete schema. They depend on the schema JSON files `1_0102.json` and `census_individual.json`, which are not part of this model. Navigator.NextAndPreviousAreNeighbours and PathProperties.NextIsFollowingScreen state the next/previous behaviour on every path; PathProperties.IntroductionOnPathExactly states the introduction behaviour for every well-formed schema.
- The star-wars next and previous tests (`test_navigator.py:70-112`, `114-163`, `165-223` and `225-302`) are not restated on a concrete schema. They depend on the star-wars schema JSON, which is not part of this model. The general lemmas cited for those lines in the table state the behaviour they check.
- The navigation scenarios use a reduced copy of the navigation schema. It has the six groups the tests' expected lists mention, with only the blocks those lists depend on. The tests name different later blocks of the property and extra-cover groups. The reduced schema uses the ones in `test_non_repeating_block_completed` and `test_navigation_repeating_group_extra_answered_completed`. The hidden household group named in `test_navigation_repeating_household_and_hidden_household_groups_completed` is left out. It has no entry in that test's expected list, and this model has no hidden navigation entry. Answer values are strings, so the tests' integer answer `2` is the string "2".
- A block whose goto rules all fail ends the path (no fall-through). This is what makes the summary absent in `test_interstitial_post_blocks`.
- A goto back to an earlier screen appends that screen and stops. The household-summary loop-back tests (`test_navigator.py:706-806`) and the strict-xfail test (`test_navigator.py:972-996`) depend on schema JSON that is not part of this model, so they are not restated.
- PathProperties.LocationPathNoDup: proved only for walks that do not loop back. A loop-back path repeats its target screen.
- PathProperties.NextIsFollowingScreen: requires a walk that did not loop back, for the same reason. On a loop-back path the repeated screen is found at its first position.
- PathProperties.ForwardThenBackOnLocationPath: requires a walk that did not loop back, for the same reason.
- Rules.RepeatCount: the navigator's implementation is not part of this model. An absent or non-numeric `answer_value` is modelled as 0 repeats. Only a plain decimal numeral is numeric. Forms that Python's `int()` also accepts count 0: surrounding spaces, a sign, underscores.
- Rules.CountInstances: counts the distinct answer instances recorded in one group instance. Paths.InstanceCount evaluates repeat rules in group instance 0, because groups do not nest in this model.
- FunctionalPages.ProcessAnswer: uses the corrected exact type dispatch. The code as written also writes getters for any substring of "Relationship", "Date", "MonthYearDate" or "Duration" (see ## Findings). FunctionalPages.ProcessAnswerAsWritten models that, and agrees with it on configured types.
- NewFunctionalPages.ProcessAnswer: uses the corrected exact type dispatch. The code as written also writes getters for any substring of "Date" or "MonthYearDate" (see ## Findings). NewFunctionalPages.ProcessAnswerAsWritten models that, and agrees with it on configured types.
- NewFunctionalPages.ProcessAnswerFailsExactly: states when the corrected `process_answer` raises. The code as written does not raise for a type that is a substring of "Date" or "MonthYearDate".
- The front-end navigation is built from the expanded screen list rather than the walked path. Groups the respondent has not reached still get links, as `test_navigation_no_blocks_completed` expects.
- `Location.url` link encoding needs the application context. Links are modelled as locations.
- The Router policy layer (hub sections, completeness) depends on a progress store and is not part of this model.
- Flask routes, the renderer, error handlers, encrypted storage and `item.py` are left out. They are request handling, templating, cryptography or a trivial container.
- Both generators' file writing, templates, `process_block`/`process_schema`/`process_summary` and argument parsing are left out. Getters are returned as records instead of being written as text.
- Character classes and case mapping are ASCII only. Python's Unicode-aware `isalpha`, `lower` and `title` are not modelled.
- NewFunctionalPages.CamelCase: `camel_case("")` raises IndexError in this generator. The function requires a non-empty input, and `process_answer` turns that case into an `EmptyAnswerName` error.

## Findings

| source | as written | input that shows it | evidently intended | confidence | as-written member | corrected member |
|---|---|---|---|---|---|---|
| tests/functional/generate_pages.py:326-337 | `answer["type"] in "Relationship"` (and likewise for "Date", "MonthYearDate", "Duration") tests for a substring of the type name | an answer of type "Month" is written as a month-year date, and type "" as a relationship, instead of raising "not configured" | exact equality with the type name | medium, not executed | FunctionalPages.AsWrittenAcceptsUnconfiguredTypes | FunctionalPages.ClassifyRejectsExactlyUnknownTypes |
| tests/new_functional/generate_pages.py:149-153 | `answer['type'] in ('Date')` — the parentheses do not make a tuple, so this is a substring test | an answer of type "Year" is written as a month-year date, and type "" as a date, instead of raising "not configured" | membership in a one-element tuple `('Date',)` | medium, not executed | NewFunctionalPages.AsWrittenAcceptsUnconfiguredTypes | NewFunctionalPages.ClassifyAnswerType |
