# prefer-lowercase-title, modelled in Dafny

This project models the decision logic of the `prefer-lowercase-title` lint
rule of eslint-plugin-playwright. The rule looks at each call in a test file.
It checks the title of every Playwright `test` or `test.describe`
declaration, whatever modifiers the call chain carries (`skip`, `only`,
`fixme`, `parallel`, `serial`). A title that starts with an upper-case
letter is reported, and the fix lowers that one character. Three options exempt
calls:

- `ignore` lists canonical method names;
- `allowedPrefixes` lists title prefixes;
- `ignoreTopLevelDescribe` exempts a describe that is not nested in another describe.

This model is derived from the rule's fixture tables in
`test/spec/prefer-lowercase-title.spec.ts`; the rule's implementation, which
that file imports, is not part of this model. The model is the decision logic
those fixtures pin down, written as pure functions:

- `CallChain`: a callee is a base identifier plus member segments. A segment is a dot name, a string key, a template key or a dynamic key. The module resolves the segments to tokens, recognises the declaration kind with a small state machine, and gives the canonical method name.
- `Title`: the checkable title of the first argument, and where that argument lies in the source text. An interpolated template counts as uncheckable, and so does a template whose only static chunk is empty; no fixture has an interpolated template.
- `Ascii`: upper case and lower case, restricted to ASCII letters.
- `CasePolicy`: the verdict on one call at a given describe depth (Pass, or a report with a one-character fix), and the properties of that verdict.
- `Traversal`: a file as a tree of calls, each nested in the callback of the call around it. The describe depth is threaded through the recursion, the file's reports are collected in pre-order (a call before the calls nested in it), and the fixes are applied. Pre-order is source order provided each call lists its nested calls in source order; the tree is taken to be built that way. A reference list pairs every call with the describe depth it is judged at, and the reports are proved to be exactly the rejected calls of that list, in its order.
- `Fixtures`: every fixture of the test file stated as a lemma. A valid fixture says that no call is reported. An invalid fixture gives the exact reports, with method name, offset and fix, and says that applying the fixes yields the expected output.

A report points at the start of the title argument, which is its opening
delimiter. The line and column expectations at `test/spec/prefer-lowercase-title.spec.ts:259-266` require this.
Converted to offsets in the source, they are 49 and 78. A report's fix replaces
the title's first character, one offset further on.

## Model

| member | source | states |
|---|---|---|
| CallChain.ResolveMembers | test/spec/prefer-lowercase-title.spec.ts:26-27 | the names of a member chain exist exactly when no segment is dynamic, and are the segments' static names in order |
| CallChain.Resolve | test/spec/prefer-lowercase-title.spec.ts:62-71 | a callee's token sequence is its base followed by the name each segment denotes, one token per segment |
| CallChain.MethodName | test/spec/prefer-lowercase-title.spec.ts:50-126 | the canonical method name is "test" exactly for a test declaration and "test.describe" for a describe declaration |
| CallChain.RunFromDescribe | test/spec/prefer-lowercase-title.spec.ts:37-47 | after `describe`, the recogniser stays in the describe state exactly when every further token is a modifier, and rejects otherwise |
| CallChain.RunFromPlain | test/spec/prefer-lowercase-title.spec.ts:37-47 | from the start state, the recogniser accepts exactly the token sequences made of modifiers and at most one `describe`, and ends in the describe state exactly when `describe` occurs |
| CallChain.ClassifyMatchesReference | test/spec/prefer-lowercase-title.spec.ts:23-47 | a token sequence is a declaration exactly when it is `test` followed by modifiers and at most one `describe`; it is a describe declaration exactly when `describe` occurs, and a test declaration otherwise |
| CallChain.Step | test/spec/prefer-lowercase-title.spec.ts:37-47 | one step of the recogniser: rejection is final; only a modifier or `describe` keeps a chain alive; a modifier keeps the state; the first `describe` enters the describe state and a second one rejects |
| CallChain.StaticName | test/spec/prefer-lowercase-title.spec.ts:26-27 | a dot name, a string key or a template key denotes its own text; a dynamic key, and only a dynamic key, denotes nothing |
| CallChain.RunSurvivorsAllowed | test/spec/prefer-lowercase-title.spec.ts:37-47 | from any state, a chain the recogniser does not reject holds only modifiers and `describe` |
| CallChain.Run | test/spec/prefer-lowercase-title.spec.ts:37-47 | reading tokens from a state: rejection is final, and the describe state is reached only through a `describe` |
| CallChain.Classify | test/spec/prefer-lowercase-title.spec.ts:23-47 | a classified token sequence starts with `test`, and a describe declaration has `describe` among its later tokens |
| CallChain.Declaration | test/spec/prefer-lowercase-title.spec.ts:13-47 | a callee is a declaration only when its base is `test` and every key of its chain is static |
| CallChain.DeclarationMatchesReference | test/spec/prefer-lowercase-title.spec.ts:23-47 | a callee is a declaration exactly when its resolved tokens form a reference chain, and a describe declaration exactly when that chain holds `describe` |
| CallChain.ClassifyIgnoresOrder | test/spec/prefer-lowercase-title.spec.ts:41-47 | reordering the tokens after the base never changes the classification |
| CallChain.ClassifyIgnoresInsertedModifier | test/spec/prefer-lowercase-title.spec.ts:37-47 | inserting a modifier anywhere after the base never changes the classification |
| CallChain.SameNamesSameDeclaration | test/spec/prefer-lowercase-title.spec.ts:26-27 | two callees whose segments denote the same names in the same order resolve to the same tokens and the same declaration kind |
| CallChain.BracketKeyActsAsDot | test/spec/prefer-lowercase-title.spec.ts:62-71 | writing a member as a bracketed string key or template key instead of a dot name never changes the declaration kind |
| CallChain.OtherBaseIsNoDeclaration | test/spec/prefer-lowercase-title.spec.ts:13-14 | a call whose base is not `test` is never a declaration |
| CallChain.DynamicKeyIsNoDeclaration | test/spec/prefer-lowercase-title.spec.ts:26-27 | a call with a key that is not known statically is never a declaration |
| CallChain.CanonicalNames | test/spec/prefer-lowercase-title.spec.ts:50-126 | `test` with any modifiers is named "test"; a chain with one `describe` and any modifiers is named "test.describe" |
| Ascii.ToLower | test/spec/prefer-lowercase-title.spec.ts:50 | an upper-case letter maps to the lower-case letter at the same distance from 'a'; every other character is kept; the result is never upper case |
| Ascii.FixedPointsOfToLower | test/spec/prefer-lowercase-title.spec.ts:17-18 | a character equals its lower-case form exactly when it is not an upper-case letter |
| Title.StaticText | test/spec/prefer-lowercase-title.spec.ts:19-22 | an argument has static text exactly when it is a string literal or a template with one static chunk (no interpolation), and that text is the literal's value or the chunk |
| Title.ExtractTitle | test/spec/prefer-lowercase-title.spec.ts:19-22 | a call has a checkable title exactly when its first argument exists, is a string literal or an interpolation-free template, and is not empty; the title is that text, starting one offset after the argument |
| Title.TitleLiesInSource | test/spec/prefer-lowercase-title.spec.ts:50-51 | when the first argument lies where its offset says, the title is the source text right after an opening quote, backtick or double quote |
| CasePolicy.HasAllowedPrefix | test/spec/prefer-lowercase-title.spec.ts:185-208 | true exactly when some listed prefix is a prefix of the title |
| CasePolicy.Check | test/spec/prefer-lowercase-title.spec.ts:50-126 | a failing verdict belongs to a declaration with a checkable title that starts with an upper-case letter; its report carries the canonical method name, points at the title argument, and replaces the title's first character by its lower-case form |
| CasePolicy.ApplyEdit | test/spec/prefer-lowercase-title.spec.ts:50-51 | an edit keeps the text before its range, puts its replacement text at the start of the range, and keeps the text after the range; the length changes by the difference |
| CasePolicy.OrdinaryCallsPass | test/spec/prefer-lowercase-title.spec.ts:13-14 | calls that are not declarations, among them every call whose base is not `test`, pass |
| CasePolicy.UncheckableTitlesPass | test/spec/prefer-lowercase-title.spec.ts:19-22 | a missing argument, a number, an interpolated template or an empty title passes, whatever the options |
| CasePolicy.NonUpperStartPasses | test/spec/prefer-lowercase-title.spec.ts:15-18 | a title whose first character is not an upper-case letter passes, whatever the options |
| CasePolicy.FailsExactlyWhen | test/spec/prefer-lowercase-title.spec.ts:50-126 | a call is reported if and only if it is a declaration whose name is not ignored, is not an exempt top-level describe, and has a checkable title that starts upper case and has no allowed prefix |
| CasePolicy.IgnoreMatchesCanonicalName | test/spec/prefer-lowercase-title.spec.ts:130-183 | listing a call's canonical name in `ignore` makes it pass; any other `ignore` list has the same effect as the empty one |
| CasePolicy.AllowedPrefixesExemptOnlyMatchingTitles | test/spec/prefer-lowercase-title.spec.ts:185-208 | a title with a listed prefix passes; for any other title the prefix list has no effect |
| CasePolicy.TopLevelDescribeExemption | test/spec/prefer-lowercase-title.spec.ts:210-238 | `ignoreTopLevelDescribe` makes a describe at depth 0 pass, and changes the verdict on no other call |
| CasePolicy.FixChangesOnlyFirstTitleCharacter | test/spec/prefer-lowercase-title.spec.ts:50-61 | the report points at the opening delimiter; the fix lies inside the source, keeps its length, lowers the character right after the delimiter and leaves every other character unchanged |
| CasePolicy.FixedTitlePasses | test/spec/prefer-lowercase-title.spec.ts:50-51 | after the fix, the source holds the title with its first character lowered, and the same call with that title passes |
| Traversal.InnerDepth | test/spec/prefer-lowercase-title.spec.ts:216-225 | the calls in a describe's callback sit one describe level deeper; the calls in any other callback sit at the same level |
| Traversal.OwnReports | test/spec/prefer-lowercase-title.spec.ts:5-9 | a call contributes at most one report, none exactly when its verdict is Pass, and otherwise exactly the verdict's report (method name, location and fix) |
| Traversal.Reports | test/spec/prefer-lowercase-title.spec.ts:239-269 | the reports of a call and the calls nested in it are at most one per call |
| Traversal.ReportsAll | test/spec/prefer-lowercase-title.spec.ts:239-269 | the reports of a list of sibling calls are at most one per call |
| Traversal.FileReports | test/spec/prefer-lowercase-title.spec.ts:255-268 | a file never has more reports than calls |
| Traversal.Judged | test/spec/prefer-lowercase-title.spec.ts:239-269 | the reference list of a tree has one entry per call (its length is the size of the tree), starts with the root at the starting depth, and pairs only calls of the tree with a depth |
| Traversal.JudgedAll | test/spec/prefer-lowercase-title.spec.ts:239-269 | the reference list of sibling calls has one entry per call of those trees, and pairs only calls of those trees with a depth |
| Traversal.JudgedDepthWithoutDescribes | test/spec/prefer-lowercase-title.spec.ts:11-128 | in a tree with no describe declaration, every call is judged at the starting depth |
| Traversal.ReportsFollowJudgedOrder | test/spec/prefer-lowercase-title.spec.ts:239-269 | the reports of a tree are, in order, the reports of the calls of the reference list that the policy rejects, each judged at its own describe depth |
| Traversal.ReportedExactlyWhenJudgedFails | test/spec/prefer-lowercase-title.spec.ts:239-269 | a report is issued if and only if some call of the tree is rejected with that report at its own describe depth |
| Traversal.FileReportsAreJudgedFailures | test/spec/prefer-lowercase-title.spec.ts:255-268 | the reports of a file are, in pre-order, exactly those of its calls rejected at the number of describes enclosing them, starting outside every describe |
| Traversal.DepthIrrelevantWithoutTopLevelExemption | test/spec/prefer-lowercase-title.spec.ts:11-128 | without `ignoreTopLevelDescribe`, the describe depth changes no report |
| Traversal.NestedCallsIgnoreTopLevelFlag | test/spec/prefer-lowercase-title.spec.ts:239-269 | inside at least one describe, `ignoreTopLevelDescribe` changes no report |
| Traversal.TopLevelDescribeLosesOnlyItsOwnReport | test/spec/prefer-lowercase-title.spec.ts:239-269 | for a top-level describe, `ignoreTopLevelDescribe` removes its own report and keeps every report nested in it |
| Traversal.ApplyFixes | test/spec/prefer-lowercase-title.spec.ts:247-253 | applying one-character fixes keeps the length of the source |
| Traversal.ApplyFixesContents | test/spec/prefer-lowercase-title.spec.ts:247-253 | after the fixes, an offset no fix starts at keeps its character, and the offset a fix starts at holds that fix's replacement unless a later fix starts there too |
| Fixtures.DefaultValid13 | test/spec/prefer-lowercase-title.spec.ts:13 | default options, a call of randomFunction with no argument: no report |
| Fixtures.DefaultValid14 | test/spec/prefer-lowercase-title.spec.ts:14 | default options, a call of foo.bar with no argument: no report |
| Fixtures.DefaultValid15 | test/spec/prefer-lowercase-title.spec.ts:15 | default options, a call of test with the single-quoted title "foo Bar": no report |
| Fixtures.DefaultValid16 | test/spec/prefer-lowercase-title.spec.ts:16 | default options, a call of test with the template title "foo": no report |
| Fixtures.DefaultValid17 | test/spec/prefer-lowercase-title.spec.ts:17 | default options, a call of test with the double-quoted title "<Foo/>": no report |
| Fixtures.DefaultValid18 | test/spec/prefer-lowercase-title.spec.ts:18 | default options, a call of test with the double-quoted title "123 foo": no report |
| Fixtures.DefaultValid19 | test/spec/prefer-lowercase-title.spec.ts:19 | default options, a call of test with the double-quoted title "42": no report |
| Fixtures.DefaultValid20 | test/spec/prefer-lowercase-title.spec.ts:20 | default options, a call of test with the template title "": no report |
| Fixtures.DefaultValid21 | test/spec/prefer-lowercase-title.spec.ts:21 | default options, a call of test with the double-quoted title "": no report |
| Fixtures.DefaultValid22 | test/spec/prefer-lowercase-title.spec.ts:22 | default options, a call of test with the number 42 as first argument: no report |
| Fixtures.DefaultValid23 | test/spec/prefer-lowercase-title.spec.ts:23 | default options, a call of test.fixme with the single-quoted title "foo": no report |
| Fixtures.DefaultValid24 | test/spec/prefer-lowercase-title.spec.ts:24 | default options, a call of test.skip with the single-quoted title "foo": no report |
| Fixtures.DefaultValid25 | test/spec/prefer-lowercase-title.spec.ts:25 | default options, a call of test.only with the single-quoted title "foo Bar": no report |
| Fixtures.DefaultValid26 | test/spec/prefer-lowercase-title.spec.ts:26 | default options, a call of test["fixme"] with the double-quoted title "foo": no report |
| Fixtures.DefaultValid27 | test/spec/prefer-lowercase-title.spec.ts:27 | default options, a call of test["skip"] with the template title "foo": no report |
| Fixtures.DefaultValid28 | test/spec/prefer-lowercase-title.spec.ts:28 | default options, a call of test.describe with no argument: no report |
| Fixtures.DefaultValid29 | test/spec/prefer-lowercase-title.spec.ts:29 | default options, a call of test.describe with the single-quoted title "foo Bar": no report |
| Fixtures.DefaultValid30 | test/spec/prefer-lowercase-title.spec.ts:30 | default options, a call of test.describe with the template title "foo": no report |
| Fixtures.DefaultValid31 | test/spec/prefer-lowercase-title.spec.ts:31 | default options, a call of test["describe"] with the double-quoted title "<Foo/>": no report |
| Fixtures.DefaultValid32 | test/spec/prefer-lowercase-title.spec.ts:32 | default options, a call of test[\`describe\`] with the double-quoted title "123 foo": no report |
| Fixtures.DefaultValid33 | test/spec/prefer-lowercase-title.spec.ts:33 | default options, a call of test.describe with the double-quoted title "42": no report |
| Fixtures.DefaultValid34 | test/spec/prefer-lowercase-title.spec.ts:34 | default options, a call of test.describe with the template title "": no report |
| Fixtures.DefaultValid35 | test/spec/prefer-lowercase-title.spec.ts:35 | default options, a call of test.describe with the double-quoted title "": no report |
| Fixtures.DefaultValid36 | test/spec/prefer-lowercase-title.spec.ts:36 | default options, a call of test.describe with the number 42 as first argument: no report |
| Fixtures.DefaultValid37 | test/spec/prefer-lowercase-title.spec.ts:37 | default options, a call of test.describe.skip with the single-quoted title "foo Bar": no report |
| Fixtures.DefaultValid38 | test/spec/prefer-lowercase-title.spec.ts:38 | default options, a call of test.describe.skip with the template title "foo": no report |
| Fixtures.DefaultValid39 | test/spec/prefer-lowercase-title.spec.ts:39 | default options, a call of test.describe.fixme with the single-quoted title "foo": no report |
| Fixtures.DefaultValid40 | test/spec/prefer-lowercase-title.spec.ts:40 | default options, a call of test.describe.only with the single-quoted title "foo": no report |
| Fixtures.DefaultValid41 | test/spec/prefer-lowercase-title.spec.ts:41 | default options, a call of test.describe.parallel.skip with the single-quoted title "foo Bar": no report |
| Fixtures.DefaultValid42 | test/spec/prefer-lowercase-title.spec.ts:42 | default options, a call of test.describe.parallel.skip with the template title "foo": no report |
| Fixtures.DefaultValid43 | test/spec/prefer-lowercase-title.spec.ts:43 | default options, a call of test.describe.parallel.fixme with the single-quoted title "foo": no report |
| Fixtures.DefaultValid44 | test/spec/prefer-lowercase-title.spec.ts:44 | default options, a call of test.describe.parallel.only with the single-quoted title "foo Bar Baz": no report |
| Fixtures.DefaultValid45 | test/spec/prefer-lowercase-title.spec.ts:45 | default options, a call of test.describe.serial.skip with the single-quoted title "foo": no report |
| Fixtures.DefaultValid46 | test/spec/prefer-lowercase-title.spec.ts:46 | default options, a call of test.describe[\`serial\`].fixme with the single-quoted title "foo": no report |
| Fixtures.DefaultValid47 | test/spec/prefer-lowercase-title.spec.ts:47 | default options, a call of test.describe['serial'].only with the single-quoted title "foo": no report |
| Fixtures.DefaultInvalid50 | test/spec/prefer-lowercase-title.spec.ts:50 | default options, a call of test with the single-quoted title "Foo": exactly one report, method name "test", at offset 5 (the opening delimiter); its fix lowers the first title character and yields the expected output |
| Fixtures.DefaultInvalid51 | test/spec/prefer-lowercase-title.spec.ts:51 | default options, a call of test with the template title "Foo bar": exactly one report, method name "test", at offset 5 (the opening delimiter); its fix lowers the first title character and yields the expected output |
| Fixtures.DefaultInvalid52 | test/spec/prefer-lowercase-title.spec.ts:52-56 | default options, a call of test.skip with the single-quoted title "Foo Bar": exactly one report, method name "test", at offset 10 (the opening delimiter); its fix lowers the first title character and yields the expected output |
| Fixtures.DefaultInvalid57 | test/spec/prefer-lowercase-title.spec.ts:57-61 | default options, a call of test.skip with the template title "Foo": exactly one report, method name "test", at offset 10 (the opening delimiter); its fix lowers the first title character and yields the expected output |
| Fixtures.DefaultInvalid62 | test/spec/prefer-lowercase-title.spec.ts:62-66 | default options, a call of test['fixme'] with the single-quoted title "Foo": exactly one report, method name "test", at offset 14 (the opening delimiter); its fix lowers the first title character and yields the expected output |
| Fixtures.DefaultInvalid67 | test/spec/prefer-lowercase-title.spec.ts:67-71 | default options, a call of test[\`only\`] with the template title "Foo": exactly one report, method name "test", at offset 13 (the opening delimiter); its fix lowers the first title character and yields the expected output |
| Fixtures.DefaultInvalid72 | test/spec/prefer-lowercase-title.spec.ts:72-76 | default options, a call of test.describe with the single-quoted title "Foo bar": exactly one report, method name "test.describe", at offset 14 (the opening delimiter); its fix lowers the first title character and yields the expected output |
| Fixtures.DefaultInvalid77 | test/spec/prefer-lowercase-title.spec.ts:77-81 | default options, a call of test[\`describe\`] with the template title "Foo Bar": exactly one report, method name "test.describe", at offset 17 (the opening delimiter); its fix lowers the first title character and yields the expected output |
| Fixtures.DefaultInvalid82 | test/spec/prefer-lowercase-title.spec.ts:82-86 | default options, a call of test.describe.skip with the single-quoted title "Foo": exactly one report, method name "test.describe", at offset 19 (the opening delimiter); its fix lowers the first title character and yields the expected output |
| Fixtures.DefaultInvalid87 | test/spec/prefer-lowercase-title.spec.ts:87-91 | default options, a call of test.describe.fixme with the template title "Foo": exactly one report, method name "test.describe", at offset 20 (the opening delimiter); its fix lowers the first title character and yields the expected output |
| Fixtures.DefaultInvalid92 | test/spec/prefer-lowercase-title.spec.ts:92-96 | default options, a call of test[\`describe\`]["only"] with the double-quoted title "Foo": exactly one report, method name "test.describe", at offset 25 (the opening delimiter); its fix lowers the first title character and yields the expected output |
| Fixtures.DefaultInvalid97 | test/spec/prefer-lowercase-title.spec.ts:97-101 | default options, a call of test.describe.parallel.skip with the single-quoted title "Foo": exactly one report, method name "test.describe", at offset 28 (the opening delimiter); its fix lowers the first title character and yields the expected output |
| Fixtures.DefaultInvalid102 | test/spec/prefer-lowercase-title.spec.ts:102-106 | default options, a call of test.describe.parallel.fixme with the template title "Foo": exactly one report, method name "test.describe", at offset 29 (the opening delimiter); its fix lowers the first title character and yields the expected output |
| Fixtures.DefaultInvalid107 | test/spec/prefer-lowercase-title.spec.ts:107-111 | default options, a call of test.describe.parallel.only with the double-quoted title "Foo": exactly one report, method name "test.describe", at offset 28 (the opening delimiter); its fix lowers the first title character and yields the expected output |
| Fixtures.DefaultInvalid112 | test/spec/prefer-lowercase-title.spec.ts:112-116 | default options, a call of test.describe.serial.skip with the single-quoted title "Foo": exactly one report, method name "test.describe", at offset 26 (the opening delimiter); its fix lowers the first title character and yields the expected output |
| Fixtures.DefaultInvalid117 | test/spec/prefer-lowercase-title.spec.ts:117-121 | default options, a call of test.describe.serial.fixme with the template title "Foo": exactly one report, method name "test.describe", at offset 27 (the opening delimiter); its fix lowers the first title character and yields the expected output |
| Fixtures.DefaultInvalid122 | test/spec/prefer-lowercase-title.spec.ts:122-126 | default options, a call of test.describe.serial.only with the double-quoted title "Foo": exactly one report, method name "test.describe", at offset 26 (the opening delimiter); its fix lowers the first title character and yields the expected output |
| Fixtures.IgnoreDescribeValid133 | test/spec/prefer-lowercase-title.spec.ts:132-135 | ignore test.describe: a call of test.describe with the single-quoted title "Foo" passes |
| Fixtures.IgnoreDescribeValid137 | test/spec/prefer-lowercase-title.spec.ts:136-139 | ignore test.describe: a call of test.describe.parallel with the template title "Foo" passes |
| Fixtures.IgnoreDescribeValid141 | test/spec/prefer-lowercase-title.spec.ts:140-143 | ignore test.describe: a call of test.describe.skip with the template title "Foo" passes |
| Fixtures.IgnoreDescribeInvalid147 | test/spec/prefer-lowercase-title.spec.ts:146-151 | ignore test.describe: a call of test with the single-quoted title "Foo" is still reported once as "test" at offset 5, fixed to "foo" |
| Fixtures.IgnoreTestValid158 | test/spec/prefer-lowercase-title.spec.ts:157-160 | ignore test: a call of test with the single-quoted title "Foo" passes |
| Fixtures.IgnoreTestValid162 | test/spec/prefer-lowercase-title.spec.ts:161-164 | ignore test: a call of test with the template title "Foo" passes |
| Fixtures.IgnoreTestValid166 | test/spec/prefer-lowercase-title.spec.ts:165-168 | ignore test: a call of test.only with the template title "Foo" passes |
| Fixtures.IgnoreTestInvalid172 | test/spec/prefer-lowercase-title.spec.ts:171-181 | ignore test: a call of test.describe with the single-quoted title "Foo" is still reported once as "test.describe" at offset 14, fixed to "foo" |
| Fixtures.AllowedPrefixesValid188 | test/spec/prefer-lowercase-title.spec.ts:187-190 | allowed prefix GET: a call of test with the single-quoted title "GET /live" passes |
| Fixtures.AllowedPrefixesValid192 | test/spec/prefer-lowercase-title.spec.ts:191-194 | allowed prefixes GET and POST: a call of test with the double-quoted title "POST /live" passes |
| Fixtures.AllowedPrefixesValid196 | test/spec/prefer-lowercase-title.spec.ts:195-198 | allowed prefixes GET and PATCH: a call of test with the template title "PATCH /live" passes |
| Fixtures.AllowedPrefixesInvalid202 | test/spec/prefer-lowercase-title.spec.ts:201-206 | allowed prefix GET only: a call of test with the template title "POST /live" is reported once as "test" at offset 5 and fixed to "pOST /live" |
| Fixtures.TopLevelDescribeValid213 | test/spec/prefer-lowercase-title.spec.ts:212-215 | ignoreTopLevelDescribe: a call of describe with the double-quoted title "MyClass" passes (bare describe is no declaration in this model) |
| Fixtures.TopLevelDescribeValid217 | test/spec/prefer-lowercase-title.spec.ts:216-225 | ignoreTopLevelDescribe: a top-level describe with an upper-case title, a nested describe titled "#myMethod" and a test titled "does things" inside it: no report |
| Fixtures.TopLevelDescribeInvalid229 | test/spec/prefer-lowercase-title.spec.ts:228-238 | ignoreTopLevelDescribe: a top-level call of test with the double-quoted title "Works!" is reported once as "test" at offset 5 and fixed to "works!" |
| Fixtures.TopLevelDescribeInvalid240 | test/spec/prefer-lowercase-title.spec.ts:239-269 | ignoreTopLevelDescribe: the top-level describe is exempt; the nested describe is reported as "test.describe" at offset 49 (line 2, column 17) and the test inside it as "test" at offset 78 (line 3, column 10), in that order; the two fixes yield the expected output |

## Left out

- The rule's implementation, `src/rules/prefer-lowercase-title`, is not part of this model. The decision logic is derived from the fixtures.
- The order of nested calls in a `CallTree` is taken as given: no lemma ties it to source offsets. Reports follow the tree's pre-order, which is source order when the tree lists nested calls in source order.
- The ESLint host is left out: `runRuleTester`, rule registration, walking the syntax tree, and merging and applying fixes. This is external harness code. `Traversal` keeps only what the fixtures observe: every call, its describe depth, the reports in pre-order, and fixes applied one after another.
- Real ESTree nodes are replaced by the abstract `Callee`, `Segment`, `Argument` and `CallTree` datatypes. In the fixture lemmas, the offsets of the arguments are data given with each fixture; no parser computes them.
- `dedent` and the conversion from offsets to lines and columns are left out. They belong to the test host. Locations are source offsets, and the dedented nested fixture is written out directly.
- The message text behind `unexpectedLowercase` and the validation of the options schema are host-owned strings and schema.
- Only ASCII letters have case here, because the fixtures use only `A`-`Z`. Unicode case mapping is not modelled.
- Escape sequences in string literals are not modelled. A literal's text is taken as written between its delimiters.
- CallChain.OtherBaseIsNoDeclaration: the model treats a bare `describe` call as an ordinary call. The fixture at line 213 passes whichever way bare `describe` is classified, so the source does not decide this.
