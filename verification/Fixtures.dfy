/**
 * The rule's test fixtures, each as an exact statement about the model: the
 * source text, the calls it contains (with the offsets of their arguments),
 * the options, and either "no report" or the reported method names, report
 * offsets and the source after all fixes. Line numbers refer to
 * test/spec/prefer-lowercase-title.spec.ts.
 */
module Fixtures {
  import opened CallChain
  import opened Title
  import opened CasePolicy
  import opened Traversal
  import opened Wrappers
  import opened Ascii

  /** Every argument of every call in `t` sits in `code` where its offset says. */
  predicate Placed(code: string, t: CallTree)
    decreases t
  {
    && (forall i :: 0 <= i < |t.args| ==> LiteralIn(code, t.args[i]))
    && PlacedAll(code, t.nested)
  }

  predicate PlacedAll(code: string, ts: seq<CallTree>)
    decreases ts
  {
    ts == [] || (Placed(code, ts[0]) && PlacedAll(code, ts[1..]))
  }

  /** A string or template literal as written: the delimiter, the text, the delimiter. */
  function Quoted(q: char, v: string): string {
    [q] + v + [q]
  }

  /** The source of a fixture with one call: the callee as written, `(`, the first argument as written, the rest. */
  function OneCall(calleeText: string, firstArgument: string, rest: string): string {
    calleeText + "(" + firstArgument + rest
  }

  /** A literal written between `before` and `after` lies in the source at offset |before|. */
  lemma QuotedIn(before: string, q: char, v: string, after: string)
    ensures q == '\'' || q == '"' ==> LiteralIn(before + Quoted(q, v) + after, StringLiteral(|before|, q, v))
    ensures q == '`' ==> LiteralIn(before + Quoted(q, v) + after, TemplateLiteral(|before|, [v]))
  {
    var code := before + Quoted(q, v) + after;
    var s := |before| + 1;
    assert code[|before|] == q;
    assert code[s + |v|] == q;
    assert code[s..s + |v|] == v;
    SpellsIsSlice(code, s, v);
  }

  /** An argument that lies in a text still lies there once more text follows it. */
  lemma LiteralInExtends(code: string, more: string, a: Argument)
    requires LiteralIn(code, a)
    ensures LiteralIn(code + more, a)
  {
    var ext := code + more;
    match a
    case StringLiteral(start, q, v) =>
      SpellsIsSlice(code, start + 1, v);
      assert ext[start + 1..start + 1 + |v|] == code[start + 1..start + 1 + |v|];
      SpellsIsSlice(ext, start + 1, v);
    case TemplateLiteral(start, qs) =>
      if |qs| == 1 {
        SpellsIsSlice(code, start + 1, qs[0]);
        assert ext[start + 1..start + 1 + |qs[0]|] == code[start + 1..start + 1 + |qs[0]|];
        SpellsIsSlice(ext, start + 1, qs[0]);
      }
    case NumberLiteral(start, raw) =>
      SpellsIsSlice(code, start, raw);
      assert ext[start..start + |raw|] == code[start..start + |raw|];
      SpellsIsSlice(ext, start, raw);
    case OtherExpression(_) =>
  }

  /** Replacing the first character of a literal's text leaves the rest of the source alone. */
  lemma EditFirstOfQuoted(before: string, q: char, v: string, after: string, c: char)
    requires |v| > 0
    ensures ApplyEdit(before + Quoted(q, v) + after, Edit(|before| + 1, |before| + 2, [c]))
      == before + Quoted(q, [c] + v[1..]) + after
  {
    var code := before + Quoted(q, v) + after;
    var fixed := before + Quoted(q, [c] + v[1..]) + after;
    assert code[..|before| + 1] == before + [q] == fixed[..|before| + 1];
    assert code[|before| + 2..] == v[1..] + [q] + after == fixed[|before| + 2..];
  }

  /** A `valid` fixture: nothing is reported. */
  predicate Valid(code: string, calls: seq<CallTree>, opts: Options) {
    PlacedAll(code, calls) && FileReports(calls, opts) == []
  }

  /**
   * An `invalid` fixture: exactly the `expected` reports are made (their
   * canonical method names, offsets and fixes), and applying their fixes
   * turns `code` into `output`.
   */
  predicate Invalid(code: string, calls: seq<CallTree>, opts: Options, expected: seq<Report>, output: string) {
    && PlacedAll(code, calls)
    && FileReports(calls, opts) == expected
    && SingleCharacterFixesIn(code, expected)
    && ApplyFixes(code, expected) == output
  }

  /** The title argument as written with delimiter `q`: a template literal for a backquote. */
  function FirstArgument(start: nat, q: char, title: string): Argument {
    if q == '`' then TemplateLiteral(start, [title]) else StringLiteral(start, q, title)
  }

  /** A call with a quoted title as its first argument, and its other arguments in the source. */
  predicate OneCallPlaced(calleeText: string, q: char, title: string, rest: string, t: CallTree) {
    && (q == '\'' || q == '"' || q == '`')
    && t.nested == []
    && |t.args| > 0
    && t.args[0] == FirstArgument(|calleeText| + 1, q, title)
    && forall i :: 1 <= i < |t.args| ==> LiteralIn(OneCall(calleeText, Quoted(q, title), rest), t.args[i])
  }

  lemma OneCallReports(calleeText: string, q: char, title: string, rest: string, t: CallTree, opts: Options)
    requires OneCallPlaced(calleeText, q, title, rest, t)
    ensures PlacedAll(OneCall(calleeText, Quoted(q, title), rest), [t])
    ensures FileReports([t], opts) == OwnReports(t, 0, opts)
  {
    var code := OneCall(calleeText, Quoted(q, title), rest);
    QuotedIn(calleeText + "(", q, title, rest);
    assert LiteralIn(code, t.args[0]);
    assert Placed(code, t);
    assert [t][1..] == [];
    assert Reports(t, 0, opts) == OwnReports(t, 0, opts) + ReportsAll([], InnerDepth(t, 0), opts);
    assert ReportsAll([t], 0, opts) == Reports(t, 0, opts) + ReportsAll([], 0, opts);
  }

  /** A `valid` fixture with one call, established from the verdict on that call. */
  lemma ValidOneCall(calleeText: string, q: char, title: string, rest: string, t: CallTree, opts: Options)
    requires OneCallPlaced(calleeText, q, title, rest, t)
    requires Check(t.callee, t.args, 0, opts) == Pass
    ensures Valid(OneCall(calleeText, Quoted(q, title), rest), [t], opts)
  {
    OneCallReports(calleeText, q, title, rest, t, opts);
  }

  /** The verdict on a declaration whose title starts upper-case, with no exemption applying. */
  lemma RejectedTitle(callee: Callee, args: seq<Argument>, opts: Options, kind: Kind, title: string)
    requires Declaration(callee) == Some(kind) && MethodName(kind) !in opts.ignore
    requires kind == Describe ==> !opts.ignoreTopLevelDescribe
    requires |args| > 0 && StaticText(args[0]) == Some(title) && title != ""
    requires IsUpper(title[0]) && !HasAllowedPrefix(title, opts.allowedPrefixes)
    ensures Check(callee, args, 0, opts) ==
      Fail(Report(MethodName(kind), args[0].start, Edit(args[0].start + 1, args[0].start + 2, [ToLower(title[0])])))
  {
  }

  /** An `invalid` fixture with one call and one report, established from the verdict on that call. */
  lemma InvalidOneCall(calleeText: string, q: char, title: string, rest: string, t: CallTree, opts: Options,
                       methodName: string, fixedFirst: char)
    requires |title| > 0
    requires OneCallPlaced(calleeText, q, title, rest, t)
    requires Check(t.callee, t.args, 0, opts) ==
      Fail(Report(methodName, |calleeText| + 1, Edit(|calleeText| + 2, |calleeText| + 3, [fixedFirst])))
    ensures Invalid(OneCall(calleeText, Quoted(q, title), rest), [t], opts,
      [Report(methodName, |calleeText| + 1, Edit(|calleeText| + 2, |calleeText| + 3, [fixedFirst]))],
      OneCall(calleeText, Quoted(q, [fixedFirst] + title[1..]), rest))
  {
    OneCallReports(calleeText, q, title, rest, t, opts);
    EditFirstOfQuoted(calleeText + "(", q, title, rest, fixedFirst);
  }

  // Default options, valid cases (lines 12-48).

  lemma DefaultValid13()
    ensures Valid(OneCall("randomFunction", "", ")"),
      [Call(Callee("randomFunction", []), [], [])],
      DefaultOptions)
  {
  }

  lemma DefaultValid14()
    ensures Valid(OneCall("foo.bar", "", ")"),
      [Call(Callee("foo", [Dot("bar")]), [], [])],
      DefaultOptions)
  {
  }

  lemma DefaultValid15()
    ensures Valid(OneCall("test", Quoted('\'', "foo Bar"), ", () => {})"),
      [Call(Callee("test", []), [StringLiteral(5, '\'', "foo Bar"), OtherExpression(16)], [])],
      DefaultOptions)
  {
    KindOfTest();
    ValidOneCall("test", '\'', "foo Bar", ", () => {})",
      Call(Callee("test", []), [StringLiteral(5, '\'', "foo Bar"), OtherExpression(16)], []),
      DefaultOptions);
  }

  lemma DefaultValid16()
    ensures Valid(OneCall("test", Quoted('`', "foo"), ", () => {})"),
      [Call(Callee("test", []), [TemplateLiteral(5, ["foo"]), OtherExpression(12)], [])],
      DefaultOptions)
  {
    KindOfTest();
    ValidOneCall("test", '`', "foo", ", () => {})",
      Call(Callee("test", []), [TemplateLiteral(5, ["foo"]), OtherExpression(12)], []),
      DefaultOptions);
  }

  lemma DefaultValid17()
    ensures Valid(OneCall("test", Quoted('"', "<Foo/>"), ", () => {})"),
      [Call(Callee("test", []), [StringLiteral(5, '"', "<Foo/>"), OtherExpression(15)], [])],
      DefaultOptions)
  {
    KindOfTest();
    ValidOneCall("test", '"', "<Foo/>", ", () => {})",
      Call(Callee("test", []), [StringLiteral(5, '"', "<Foo/>"), OtherExpression(15)], []),
      DefaultOptions);
  }

  lemma DefaultValid18()
    ensures Valid(OneCall("test", Quoted('"', "123 foo"), ", () => {})"),
      [Call(Callee("test", []), [StringLiteral(5, '"', "123 foo"), OtherExpression(16)], [])],
      DefaultOptions)
  {
    KindOfTest();
    ValidOneCall("test", '"', "123 foo", ", () => {})",
      Call(Callee("test", []), [StringLiteral(5, '"', "123 foo"), OtherExpression(16)], []),
      DefaultOptions);
  }

  lemma DefaultValid19()
    ensures Valid(OneCall("test", Quoted('"', "42"), ", () => {})"),
      [Call(Callee("test", []), [StringLiteral(5, '"', "42"), OtherExpression(11)], [])],
      DefaultOptions)
  {
    KindOfTest();
    ValidOneCall("test", '"', "42", ", () => {})",
      Call(Callee("test", []), [StringLiteral(5, '"', "42"), OtherExpression(11)], []),
      DefaultOptions);
  }

  lemma DefaultValid20()
    ensures Valid(OneCall("test", Quoted('`', ""), ", () => {})"),
      [Call(Callee("test", []), [TemplateLiteral(5, [""]), OtherExpression(9)], [])],
      DefaultOptions)
  {
    KindOfTest();
    ValidOneCall("test", '`', "", ", () => {})",
      Call(Callee("test", []), [TemplateLiteral(5, [""]), OtherExpression(9)], []),
      DefaultOptions);
  }

  lemma DefaultValid21()
    ensures Valid(OneCall("test", Quoted('"', ""), ", () => {})"),
      [Call(Callee("test", []), [StringLiteral(5, '"', ""), OtherExpression(9)], [])],
      DefaultOptions)
  {
    KindOfTest();
    ValidOneCall("test", '"', "", ", () => {})",
      Call(Callee("test", []), [StringLiteral(5, '"', ""), OtherExpression(9)], []),
      DefaultOptions);
  }

  lemma DefaultValid22()
    ensures Valid(OneCall("test", "42", ", () => {})"),
      [Call(Callee("test", []), [NumberLiteral(5, "42"), OtherExpression(9)], [])],
      DefaultOptions)
  {
    KindOfTest();
  }

  lemma DefaultValid23()
    ensures Valid(OneCall("test.fixme", Quoted('\'', "foo"), ", () => {})"),
      [Call(Callee("test", [Dot("fixme")]), [StringLiteral(11, '\'', "foo"), OtherExpression(18)], [])],
      DefaultOptions)
  {
    KindOfTestFixme();
    ValidOneCall("test.fixme", '\'', "foo", ", () => {})",
      Call(Callee("test", [Dot("fixme")]), [StringLiteral(11, '\'', "foo"), OtherExpression(18)], []),
      DefaultOptions);
  }

  lemma DefaultValid24()
    ensures Valid(OneCall("test.skip", Quoted('\'', "foo"), ", () => {})"),
      [Call(Callee("test", [Dot("skip")]), [StringLiteral(10, '\'', "foo"), OtherExpression(17)], [])],
      DefaultOptions)
  {
    KindOfTestSkip();
    ValidOneCall("test.skip", '\'', "foo", ", () => {})",
      Call(Callee("test", [Dot("skip")]), [StringLiteral(10, '\'', "foo"), OtherExpression(17)], []),
      DefaultOptions);
  }

  lemma DefaultValid25()
    ensures Valid(OneCall("test.only", Quoted('\'', "foo Bar"), ", () => {})"),
      [Call(Callee("test", [Dot("only")]), [StringLiteral(10, '\'', "foo Bar"), OtherExpression(21)], [])],
      DefaultOptions)
  {
    KindOfTestOnly();
    ValidOneCall("test.only", '\'', "foo Bar", ", () => {})",
      Call(Callee("test", [Dot("only")]), [StringLiteral(10, '\'', "foo Bar"), OtherExpression(21)], []),
      DefaultOptions);
  }

  lemma DefaultValid26()
    ensures Valid(OneCall("test[\"fixme\"]", Quoted('"', "foo"), ", () => {})"),
      [Call(Callee("test", [StringKey("fixme")]), [StringLiteral(14, '"', "foo"), OtherExpression(21)], [])],
      DefaultOptions)
  {
    KindOfTestKeyFixme();
    ValidOneCall("test[\"fixme\"]", '"', "foo", ", () => {})",
      Call(Callee("test", [StringKey("fixme")]), [StringLiteral(14, '"', "foo"), OtherExpression(21)], []),
      DefaultOptions);
  }

  lemma DefaultValid27()
    ensures Valid(OneCall("test[\"skip\"]", Quoted('`', "foo"), ", () => {})"),
      [Call(Callee("test", [StringKey("skip")]), [TemplateLiteral(13, ["foo"]), OtherExpression(20)], [])],
      DefaultOptions)
  {
    KindOfTestKeySkip();
    ValidOneCall("test[\"skip\"]", '`', "foo", ", () => {})",
      Call(Callee("test", [StringKey("skip")]), [TemplateLiteral(13, ["foo"]), OtherExpression(20)], []),
      DefaultOptions);
  }

  lemma DefaultValid28()
    ensures Valid(OneCall("test.describe", "", ")"),
      [Call(Callee("test", [Dot("describe")]), [], [])],
      DefaultOptions)
  {
    KindOfTestDescribe();
  }

  lemma DefaultValid29()
    ensures Valid(OneCall("test.describe", Quoted('\'', "foo Bar"), ", () => {})"),
      [Call(Callee("test", [Dot("describe")]), [StringLiteral(14, '\'', "foo Bar"), OtherExpression(25)], [])],
      DefaultOptions)
  {
    KindOfTestDescribe();
    ValidOneCall("test.describe", '\'', "foo Bar", ", () => {})",
      Call(Callee("test", [Dot("describe")]), [StringLiteral(14, '\'', "foo Bar"), OtherExpression(25)], []),
      DefaultOptions);
  }

  lemma DefaultValid30()
    ensures Valid(OneCall("test.describe", Quoted('`', "foo"), ", () => {})"),
      [Call(Callee("test", [Dot("describe")]), [TemplateLiteral(14, ["foo"]), OtherExpression(21)], [])],
      DefaultOptions)
  {
    KindOfTestDescribe();
    ValidOneCall("test.describe", '`', "foo", ", () => {})",
      Call(Callee("test", [Dot("describe")]), [TemplateLiteral(14, ["foo"]), OtherExpression(21)], []),
      DefaultOptions);
  }

  lemma DefaultValid31()
    ensures Valid(OneCall("test[\"describe\"]", Quoted('"', "<Foo/>"), ", () => {})"),
      [Call(Callee("test", [StringKey("describe")]), [StringLiteral(17, '"', "<Foo/>"), OtherExpression(27)], [])],
      DefaultOptions)
  {
    KindOfTestKeyDescribe();
    ValidOneCall("test[\"describe\"]", '"', "<Foo/>", ", () => {})",
      Call(Callee("test", [StringKey("describe")]), [StringLiteral(17, '"', "<Foo/>"), OtherExpression(27)], []),
      DefaultOptions);
  }

  lemma DefaultValid32()
    ensures Valid(OneCall("test[`describe`]", Quoted('"', "123 foo"), ", () => {})"),
      [Call(Callee("test", [TemplateKey("describe")]), [StringLiteral(17, '"', "123 foo"), OtherExpression(28)], [])],
      DefaultOptions)
  {
    KindOfTestTemplateDescribe();
    ValidOneCall("test[`describe`]", '"', "123 foo", ", () => {})",
      Call(Callee("test", [TemplateKey("describe")]), [StringLiteral(17, '"', "123 foo"), OtherExpression(28)], []),
      DefaultOptions);
  }

  lemma DefaultValid33()
    ensures Valid(OneCall("test.describe", Quoted('"', "42"), ", () => {})"),
      [Call(Callee("test", [Dot("describe")]), [StringLiteral(14, '"', "42"), OtherExpression(20)], [])],
      DefaultOptions)
  {
    KindOfTestDescribe();
    ValidOneCall("test.describe", '"', "42", ", () => {})",
      Call(Callee("test", [Dot("describe")]), [StringLiteral(14, '"', "42"), OtherExpression(20)], []),
      DefaultOptions);
  }

  lemma DefaultValid34()
    ensures Valid(OneCall("test.describe", Quoted('`', ""), ")"),
      [Call(Callee("test", [Dot("describe")]), [TemplateLiteral(14, [""])], [])],
      DefaultOptions)
  {
    KindOfTestDescribe();
    ValidOneCall("test.describe", '`', "", ")",
      Call(Callee("test", [Dot("describe")]), [TemplateLiteral(14, [""])], []),
      DefaultOptions);
  }

  lemma DefaultValid35()
    ensures Valid(OneCall("test.describe", Quoted('"', ""), ")"),
      [Call(Callee("test", [Dot("describe")]), [StringLiteral(14, '"', "")], [])],
      DefaultOptions)
  {
    KindOfTestDescribe();
    ValidOneCall("test.describe", '"', "", ")",
      Call(Callee("test", [Dot("describe")]), [StringLiteral(14, '"', "")], []),
      DefaultOptions);
  }

  lemma DefaultValid36()
    ensures Valid(OneCall("test.describe", "42", ")"),
      [Call(Callee("test", [Dot("describe")]), [NumberLiteral(14, "42")], [])],
      DefaultOptions)
  {
    KindOfTestDescribe();
  }

  lemma DefaultValid37()
    ensures Valid(OneCall("test.describe.skip", Quoted('\'', "foo Bar"), ", () => {})"),
      [Call(Callee("test", [Dot("describe"), Dot("skip")]), [StringLiteral(19, '\'', "foo Bar"), OtherExpression(30)], [])],
      DefaultOptions)
  {
    KindOfTestDescribeSkip();
    ValidOneCall("test.describe.skip", '\'', "foo Bar", ", () => {})",
      Call(Callee("test", [Dot("describe"), Dot("skip")]), [StringLiteral(19, '\'', "foo Bar"), OtherExpression(30)], []),
      DefaultOptions);
  }

  lemma DefaultValid38()
    ensures Valid(OneCall("test.describe.skip", Quoted('`', "foo"), ", () => {})"),
      [Call(Callee("test", [Dot("describe"), Dot("skip")]), [TemplateLiteral(19, ["foo"]), OtherExpression(26)], [])],
      DefaultOptions)
  {
    KindOfTestDescribeSkip();
    ValidOneCall("test.describe.skip", '`', "foo", ", () => {})",
      Call(Callee("test", [Dot("describe"), Dot("skip")]), [TemplateLiteral(19, ["foo"]), OtherExpression(26)], []),
      DefaultOptions);
  }

  lemma DefaultValid39()
    ensures Valid(OneCall("test.describe.fixme", Quoted('\'', "foo"), ", () => {})"),
      [Call(Callee("test", [Dot("describe"), Dot("fixme")]), [StringLiteral(20, '\'', "foo"), OtherExpression(27)], [])],
      DefaultOptions)
  {
    KindOfTestDescribeFixme();
    ValidOneCall("test.describe.fixme", '\'', "foo", ", () => {})",
      Call(Callee("test", [Dot("describe"), Dot("fixme")]), [StringLiteral(20, '\'', "foo"), OtherExpression(27)], []),
      DefaultOptions);
  }

  lemma DefaultValid40()
    ensures Valid(OneCall("test.describe.only", Quoted('\'', "foo"), ", () => {})"),
      [Call(Callee("test", [Dot("describe"), Dot("only")]), [StringLiteral(19, '\'', "foo"), OtherExpression(26)], [])],
      DefaultOptions)
  {
    KindOfTestDescribeOnly();
    ValidOneCall("test.describe.only", '\'', "foo", ", () => {})",
      Call(Callee("test", [Dot("describe"), Dot("only")]), [StringLiteral(19, '\'', "foo"), OtherExpression(26)], []),
      DefaultOptions);
  }

  lemma DefaultValid41()
    ensures Valid(OneCall("test.describe.parallel.skip", Quoted('\'', "foo Bar"), ", () => {})"),
      [Call(Callee("test", [Dot("describe"), Dot("parallel"), Dot("skip")]), [StringLiteral(28, '\'', "foo Bar"), OtherExpression(39)], [])],
      DefaultOptions)
  {
    KindOfTestDescribeParallelSkip();
    ValidOneCall("test.describe.parallel.skip", '\'', "foo Bar", ", () => {})",
      Call(Callee("test", [Dot("describe"), Dot("parallel"), Dot("skip")]), [StringLiteral(28, '\'', "foo Bar"), OtherExpression(39)], []),
      DefaultOptions);
  }

  lemma DefaultValid42()
    ensures Valid(OneCall("test.describe.parallel.skip", Quoted('`', "foo"), ", () => {})"),
      [Call(Callee("test", [Dot("describe"), Dot("parallel"), Dot("skip")]), [TemplateLiteral(28, ["foo"]), OtherExpression(35)], [])],
      DefaultOptions)
  {
    KindOfTestDescribeParallelSkip();
    ValidOneCall("test.describe.parallel.skip", '`', "foo", ", () => {})",
      Call(Callee("test", [Dot("describe"), Dot("parallel"), Dot("skip")]), [TemplateLiteral(28, ["foo"]), OtherExpression(35)], []),
      DefaultOptions);
  }

  lemma DefaultValid43()
    ensures Valid(OneCall("test.describe.parallel.fixme", Quoted('\'', "foo"), ", () => {})"),
      [Call(Callee("test", [Dot("describe"), Dot("parallel"), Dot("fixme")]), [StringLiteral(29, '\'', "foo"), OtherExpression(36)], [])],
      DefaultOptions)
  {
    KindOfTestDescribeParallelFixme();
    ValidOneCall("test.describe.parallel.fixme", '\'', "foo", ", () => {})",
      Call(Callee("test", [Dot("describe"), Dot("parallel"), Dot("fixme")]), [StringLiteral(29, '\'', "foo"), OtherExpression(36)], []),
      DefaultOptions);
  }

  lemma DefaultValid44()
    ensures Valid(OneCall("test.describe.parallel.only", Quoted('\'', "foo Bar Baz"), ", () => {})"),
      [Call(Callee("test", [Dot("describe"), Dot("parallel"), Dot("only")]), [StringLiteral(28, '\'', "foo Bar Baz"), OtherExpression(43)], [])],
      DefaultOptions)
  {
    KindOfTestDescribeParallelOnly();
    ValidOneCall("test.describe.parallel.only", '\'', "foo Bar Baz", ", () => {})",
      Call(Callee("test", [Dot("describe"), Dot("parallel"), Dot("only")]), [StringLiteral(28, '\'', "foo Bar Baz"), OtherExpression(43)], []),
      DefaultOptions);
  }

  lemma DefaultValid45()
    ensures Valid(OneCall("test.describe.serial.skip", Quoted('\'', "foo"), ", () => {})"),
      [Call(Callee("test", [Dot("describe"), Dot("serial"), Dot("skip")]), [StringLiteral(26, '\'', "foo"), OtherExpression(33)], [])],
      DefaultOptions)
  {
    KindOfTestDescribeSerialSkip();
    ValidOneCall("test.describe.serial.skip", '\'', "foo", ", () => {})",
      Call(Callee("test", [Dot("describe"), Dot("serial"), Dot("skip")]), [StringLiteral(26, '\'', "foo"), OtherExpression(33)], []),
      DefaultOptions);
  }

  lemma DefaultValid46()
    ensures Valid(OneCall("test.describe[`serial`].fixme", Quoted('\'', "foo"), ", () => {})"),
      [Call(Callee("test", [Dot("describe"), TemplateKey("serial"), Dot("fixme")]), [StringLiteral(30, '\'', "foo"), OtherExpression(37)], [])],
      DefaultOptions)
  {
    KindOfTestDescribeTemplateSerialFixme();
    ValidOneCall("test.describe[`serial`].fixme", '\'', "foo", ", () => {})",
      Call(Callee("test", [Dot("describe"), TemplateKey("serial"), Dot("fixme")]), [StringLiteral(30, '\'', "foo"), OtherExpression(37)], []),
      DefaultOptions);
  }

  lemma DefaultValid47()
    ensures Valid(OneCall("test.describe['serial'].only", Quoted('\'', "foo"), ", () => {})"),
      [Call(Callee("test", [Dot("describe"), StringKey("serial"), Dot("only")]), [StringLiteral(29, '\'', "foo"), OtherExpression(36)], [])],
      DefaultOptions)
  {
    KindOfTestDescribeKeySerialOnly();
    ValidOneCall("test.describe['serial'].only", '\'', "foo", ", () => {})",
      Call(Callee("test", [Dot("describe"), StringKey("serial"), Dot("only")]), [StringLiteral(29, '\'', "foo"), OtherExpression(36)], []),
      DefaultOptions);
  }

  // Default options, invalid cases and their fixed source (lines 49-127).

  lemma DefaultInvalid50()
    ensures Invalid(OneCall("test", Quoted('\'', "Foo"), ",  () => {})"),
      [Call(Callee("test", []), [StringLiteral(5, '\'', "Foo"), OtherExpression(13)], [])],
      DefaultOptions,
      [Report("test", 5, Edit(6, 7, "f"))],
      OneCall("test", Quoted('\'', "foo"), ",  () => {})"))
  {
    KindOfTest();
    assert "f" + "Foo"[1..] == "foo";
    var call := Call(Callee("test", []), [StringLiteral(5, '\'', "Foo"), OtherExpression(13)], []);
    RejectedTitle(call.callee, call.args, DefaultOptions, Test, "Foo");
    InvalidOneCall("test", '\'', "Foo", ",  () => {})", call, DefaultOptions, "test", 'f');
  }

  lemma DefaultInvalid51()
    ensures Invalid(OneCall("test", Quoted('`', "Foo bar"), ",  () => {})"),
      [Call(Callee("test", []), [TemplateLiteral(5, ["Foo bar"]), OtherExpression(17)], [])],
      DefaultOptions,
      [Report("test", 5, Edit(6, 7, "f"))],
      OneCall("test", Quoted('`', "foo bar"), ",  () => {})"))
  {
    KindOfTest();
    assert "f" + "Foo bar"[1..] == "foo bar";
    var call := Call(Callee("test", []), [TemplateLiteral(5, ["Foo bar"]), OtherExpression(17)], []);
    RejectedTitle(call.callee, call.args, DefaultOptions, Test, "Foo bar");
    InvalidOneCall("test", '`', "Foo bar", ",  () => {})", call, DefaultOptions, "test", 'f');
  }

  lemma DefaultInvalid52()
    ensures Invalid(OneCall("test.skip", Quoted('\'', "Foo Bar"), ",  () => {})"),
      [Call(Callee("test", [Dot("skip")]), [StringLiteral(10, '\'', "Foo Bar"), OtherExpression(22)], [])],
      DefaultOptions,
      [Report("test", 10, Edit(11, 12, "f"))],
      OneCall("test.skip", Quoted('\'', "foo Bar"), ",  () => {})"))
  {
    KindOfTestSkip();
    assert "f" + "Foo Bar"[1..] == "foo Bar";
    var call := Call(Callee("test", [Dot("skip")]), [StringLiteral(10, '\'', "Foo Bar"), OtherExpression(22)], []);
    RejectedTitle(call.callee, call.args, DefaultOptions, Test, "Foo Bar");
    InvalidOneCall("test.skip", '\'', "Foo Bar", ",  () => {})", call, DefaultOptions, "test", 'f');
  }

  lemma DefaultInvalid57()
    ensures Invalid(OneCall("test.skip", Quoted('`', "Foo"), ",  () => {})"),
      [Call(Callee("test", [Dot("skip")]), [TemplateLiteral(10, ["Foo"]), OtherExpression(18)], [])],
      DefaultOptions,
      [Report("test", 10, Edit(11, 12, "f"))],
      OneCall("test.skip", Quoted('`', "foo"), ",  () => {})"))
  {
    KindOfTestSkip();
    assert "f" + "Foo"[1..] == "foo";
    var call := Call(Callee("test", [Dot("skip")]), [TemplateLiteral(10, ["Foo"]), OtherExpression(18)], []);
    RejectedTitle(call.callee, call.args, DefaultOptions, Test, "Foo");
    InvalidOneCall("test.skip", '`', "Foo", ",  () => {})", call, DefaultOptions, "test", 'f');
  }

  lemma DefaultInvalid62()
    ensures Invalid(OneCall("test['fixme']", Quoted('\'', "Foo"), ",  () => {})"),
      [Call(Callee("test", [StringKey("fixme")]), [StringLiteral(14, '\'', "Foo"), OtherExpression(22)], [])],
      DefaultOptions,
      [Report("test", 14, Edit(15, 16, "f"))],
      OneCall("test['fixme']", Quoted('\'', "foo"), ",  () => {})"))
  {
    KindOfTestKeyFixme();
    assert "f" + "Foo"[1..] == "foo";
    var call := Call(Callee("test", [StringKey("fixme")]), [StringLiteral(14, '\'', "Foo"), OtherExpression(22)], []);
    RejectedTitle(call.callee, call.args, DefaultOptions, Test, "Foo");
    InvalidOneCall("test['fixme']", '\'', "Foo", ",  () => {})", call, DefaultOptions, "test", 'f');
  }

  lemma DefaultInvalid67()
    ensures Invalid(OneCall("test[`only`]", Quoted('`', "Foo"), ",  () => {})"),
      [Call(Callee("test", [TemplateKey("only")]), [TemplateLiteral(13, ["Foo"]), OtherExpression(21)], [])],
      DefaultOptions,
      [Report("test", 13, Edit(14, 15, "f"))],
      OneCall("test[`only`]", Quoted('`', "foo"), ",  () => {})"))
  {
    KindOfTestTemplateOnly();
    assert "f" + "Foo"[1..] == "foo";
    var call := Call(Callee("test", [TemplateKey("only")]), [TemplateLiteral(13, ["Foo"]), OtherExpression(21)], []);
    RejectedTitle(call.callee, call.args, DefaultOptions, Test, "Foo");
    InvalidOneCall("test[`only`]", '`', "Foo", ",  () => {})", call, DefaultOptions, "test", 'f');
  }

  lemma DefaultInvalid72()
    ensures Invalid(OneCall("test.describe", Quoted('\'', "Foo bar"), ",  () => {})"),
      [Call(Callee("test", [Dot("describe")]), [StringLiteral(14, '\'', "Foo bar"), OtherExpression(26)], [])],
      DefaultOptions,
      [Report("test.describe", 14, Edit(15, 16, "f"))],
      OneCall("test.describe", Quoted('\'', "foo bar"), ",  () => {})"))
  {
    KindOfTestDescribe();
    assert "f" + "Foo bar"[1..] == "foo bar";
    var call := Call(Callee("test", [Dot("describe")]), [StringLiteral(14, '\'', "Foo bar"), OtherExpression(26)], []);
    RejectedTitle(call.callee, call.args, DefaultOptions, Describe, "Foo bar");
    InvalidOneCall("test.describe", '\'', "Foo bar", ",  () => {})", call, DefaultOptions, "test.describe", 'f');
  }

  lemma DefaultInvalid77()
    ensures Invalid(OneCall("test[`describe`]", Quoted('`', "Foo Bar"), ",  () => {})"),
      [Call(Callee("test", [TemplateKey("describe")]), [TemplateLiteral(17, ["Foo Bar"]), OtherExpression(29)], [])],
      DefaultOptions,
      [Report("test.describe", 17, Edit(18, 19, "f"))],
      OneCall("test[`describe`]", Quoted('`', "foo Bar"), ",  () => {})"))
  {
    KindOfTestTemplateDescribe();
    assert "f" + "Foo Bar"[1..] == "foo Bar";
    var call := Call(Callee("test", [TemplateKey("describe")]), [TemplateLiteral(17, ["Foo Bar"]), OtherExpression(29)], []);
    RejectedTitle(call.callee, call.args, DefaultOptions, Describe, "Foo Bar");
    InvalidOneCall("test[`describe`]", '`', "Foo Bar", ",  () => {})", call, DefaultOptions, "test.describe", 'f');
  }

  lemma DefaultInvalid82()
    ensures Invalid(OneCall("test.describe.skip", Quoted('\'', "Foo"), ",  () => {})"),
      [Call(Callee("test", [Dot("describe"), Dot("skip")]), [StringLiteral(19, '\'', "Foo"), OtherExpression(27)], [])],
      DefaultOptions,
      [Report("test.describe", 19, Edit(20, 21, "f"))],
      OneCall("test.describe.skip", Quoted('\'', "foo"), ",  () => {})"))
  {
    KindOfTestDescribeSkip();
    assert "f" + "Foo"[1..] == "foo";
    var call := Call(Callee("test", [Dot("describe"), Dot("skip")]), [StringLiteral(19, '\'', "Foo"), OtherExpression(27)], []);
    RejectedTitle(call.callee, call.args, DefaultOptions, Describe, "Foo");
    InvalidOneCall("test.describe.skip", '\'', "Foo", ",  () => {})", call, DefaultOptions, "test.describe", 'f');
  }

  lemma DefaultInvalid87()
    ensures Invalid(OneCall("test.describe.fixme", Quoted('`', "Foo"), ",  () => {})"),
      [Call(Callee("test", [Dot("describe"), Dot("fixme")]), [TemplateLiteral(20, ["Foo"]), OtherExpression(28)], [])],
      DefaultOptions,
      [Report("test.describe", 20, Edit(21, 22, "f"))],
      OneCall("test.describe.fixme", Quoted('`', "foo"), ",  () => {})"))
  {
    KindOfTestDescribeFixme();
    assert "f" + "Foo"[1..] == "foo";
    var call := Call(Callee("test", [Dot("describe"), Dot("fixme")]), [TemplateLiteral(20, ["Foo"]), OtherExpression(28)], []);
    RejectedTitle(call.callee, call.args, DefaultOptions, Describe, "Foo");
    InvalidOneCall("test.describe.fixme", '`', "Foo", ",  () => {})", call, DefaultOptions, "test.describe", 'f');
  }

  lemma DefaultInvalid92()
    ensures Invalid(OneCall("test[`describe`][\"only\"]", Quoted('"', "Foo"), ",  () => {})"),
      [Call(Callee("test", [TemplateKey("describe"), StringKey("only")]), [StringLiteral(25, '"', "Foo"), OtherExpression(33)], [])],
      DefaultOptions,
      [Report("test.describe", 25, Edit(26, 27, "f"))],
      OneCall("test[`describe`][\"only\"]", Quoted('"', "foo"), ",  () => {})"))
  {
    KindOfTestTemplateDescribeKeyOnly();
    assert "f" + "Foo"[1..] == "foo";
    var call := Call(Callee("test", [TemplateKey("describe"), StringKey("only")]), [StringLiteral(25, '"', "Foo"), OtherExpression(33)], []);
    RejectedTitle(call.callee, call.args, DefaultOptions, Describe, "Foo");
    InvalidOneCall("test[`describe`][\"only\"]", '"', "Foo", ",  () => {})", call, DefaultOptions, "test.describe", 'f');
  }

  lemma DefaultInvalid97()
    ensures Invalid(OneCall("test.describe.parallel.skip", Quoted('\'', "Foo"), ",  () => {})"),
      [Call(Callee("test", [Dot("describe"), Dot("parallel"), Dot("skip")]), [StringLiteral(28, '\'', "Foo"), OtherExpression(36)], [])],
      DefaultOptions,
      [Report("test.describe", 28, Edit(29, 30, "f"))],
      OneCall("test.describe.parallel.skip", Quoted('\'', "foo"), ",  () => {})"))
  {
    KindOfTestDescribeParallelSkip();
    assert "f" + "Foo"[1..] == "foo";
    var call := Call(Callee("test", [Dot("describe"), Dot("parallel"), Dot("skip")]), [StringLiteral(28, '\'', "Foo"), OtherExpression(36)], []);
    RejectedTitle(call.callee, call.args, DefaultOptions, Describe, "Foo");
    InvalidOneCall("test.describe.parallel.skip", '\'', "Foo", ",  () => {})", call, DefaultOptions, "test.describe", 'f');
  }

  lemma DefaultInvalid102()
    ensures Invalid(OneCall("test.describe.parallel.fixme", Quoted('`', "Foo"), ",  () => {})"),
      [Call(Callee("test", [Dot("describe"), Dot("parallel"), Dot("fixme")]), [TemplateLiteral(29, ["Foo"]), OtherExpression(37)], [])],
      DefaultOptions,
      [Report("test.describe", 29, Edit(30, 31, "f"))],
      OneCall("test.describe.parallel.fixme", Quoted('`', "foo"), ",  () => {})"))
  {
    KindOfTestDescribeParallelFixme();
    assert "f" + "Foo"[1..] == "foo";
    var call := Call(Callee("test", [Dot("describe"), Dot("parallel"), Dot("fixme")]), [TemplateLiteral(29, ["Foo"]), OtherExpression(37)], []);
    RejectedTitle(call.callee, call.args, DefaultOptions, Describe, "Foo");
    InvalidOneCall("test.describe.parallel.fixme", '`', "Foo", ",  () => {})", call, DefaultOptions, "test.describe", 'f');
  }

  lemma DefaultInvalid107()
    ensures Invalid(OneCall("test.describe.parallel.only", Quoted('"', "Foo"), ",  () => {})"),
      [Call(Callee("test", [Dot("describe"), Dot("parallel"), Dot("only")]), [StringLiteral(28, '"', "Foo"), OtherExpression(36)], [])],
      DefaultOptions,
      [Report("test.describe", 28, Edit(29, 30, "f"))],
      OneCall("test.describe.parallel.only", Quoted('"', "foo"), ",  () => {})"))
  {
    KindOfTestDescribeParallelOnly();
    assert "f" + "Foo"[1..] == "foo";
    var call := Call(Callee("test", [Dot("describe"), Dot("parallel"), Dot("only")]), [StringLiteral(28, '"', "Foo"), OtherExpression(36)], []);
    RejectedTitle(call.callee, call.args, DefaultOptions, Describe, "Foo");
    InvalidOneCall("test.describe.parallel.only", '"', "Foo", ",  () => {})", call, DefaultOptions, "test.describe", 'f');
  }

  lemma DefaultInvalid112()
    ensures Invalid(OneCall("test.describe.serial.skip", Quoted('\'', "Foo"), ",  () => {})"),
      [Call(Callee("test", [Dot("describe"), Dot("serial"), Dot("skip")]), [StringLiteral(26, '\'', "Foo"), OtherExpression(34)], [])],
      DefaultOptions,
      [Report("test.describe", 26, Edit(27, 28, "f"))],
      OneCall("test.describe.serial.skip", Quoted('\'', "foo"), ",  () => {})"))
  {
    KindOfTestDescribeSerialSkip();
    assert "f" + "Foo"[1..] == "foo";
    var call := Call(Callee("test", [Dot("describe"), Dot("serial"), Dot("skip")]), [StringLiteral(26, '\'', "Foo"), OtherExpression(34)], []);
    RejectedTitle(call.callee, call.args, DefaultOptions, Describe, "Foo");
    InvalidOneCall("test.describe.serial.skip", '\'', "Foo", ",  () => {})", call, DefaultOptions, "test.describe", 'f');
  }

  lemma DefaultInvalid117()
    ensures Invalid(OneCall("test.describe.serial.fixme", Quoted('`', "Foo"), ",  () => {})"),
      [Call(Callee("test", [Dot("describe"), Dot("serial"), Dot("fixme")]), [TemplateLiteral(27, ["Foo"]), OtherExpression(35)], [])],
      DefaultOptions,
      [Report("test.describe", 27, Edit(28, 29, "f"))],
      OneCall("test.describe.serial.fixme", Quoted('`', "foo"), ",  () => {})"))
  {
    KindOfTestDescribeSerialFixme();
    assert "f" + "Foo"[1..] == "foo";
    var call := Call(Callee("test", [Dot("describe"), Dot("serial"), Dot("fixme")]), [TemplateLiteral(27, ["Foo"]), OtherExpression(35)], []);
    RejectedTitle(call.callee, call.args, DefaultOptions, Describe, "Foo");
    InvalidOneCall("test.describe.serial.fixme", '`', "Foo", ",  () => {})", call, DefaultOptions, "test.describe", 'f');
  }

  lemma DefaultInvalid122()
    ensures Invalid(OneCall("test.describe.serial.only", Quoted('"', "Foo"), ",  () => {})"),
      [Call(Callee("test", [Dot("describe"), Dot("serial"), Dot("only")]), [StringLiteral(26, '"', "Foo"), OtherExpression(34)], [])],
      DefaultOptions,
      [Report("test.describe", 26, Edit(27, 28, "f"))],
      OneCall("test.describe.serial.only", Quoted('"', "foo"), ",  () => {})"))
  {
    KindOfTestDescribeSerialOnly();
    assert "f" + "Foo"[1..] == "foo";
    var call := Call(Callee("test", [Dot("describe"), Dot("serial"), Dot("only")]), [StringLiteral(26, '"', "Foo"), OtherExpression(34)], []);
    RejectedTitle(call.callee, call.args, DefaultOptions, Describe, "Foo");
    InvalidOneCall("test.describe.serial.only", '"', "Foo", ",  () => {})", call, DefaultOptions, "test.describe", 'f');
  }

  // With `ignore: ["test.describe"]` (lines 130-153).

  lemma IgnoreDescribeValid133()
    ensures Valid(OneCall("test.describe", Quoted('\'', "Foo"), ", () => {})"),
      [Call(Callee("test", [Dot("describe")]), [StringLiteral(14, '\'', "Foo"), OtherExpression(21)], [])],
      Options(["test.describe"], [], false))
  {
    KindOfTestDescribe();
    ValidOneCall("test.describe", '\'', "Foo", ", () => {})",
      Call(Callee("test", [Dot("describe")]), [StringLiteral(14, '\'', "Foo"), OtherExpression(21)], []),
      Options(["test.describe"], [], false));
  }

  lemma IgnoreDescribeValid137()
    ensures Valid(OneCall("test.describe.parallel", Quoted('`', "Foo"), ", () => {})"),
      [Call(Callee("test", [Dot("describe"), Dot("parallel")]), [TemplateLiteral(23, ["Foo"]), OtherExpression(30)], [])],
      Options(["test.describe"], [], false))
  {
    KindOfTestDescribeParallel();
    ValidOneCall("test.describe.parallel", '`', "Foo", ", () => {})",
      Call(Callee("test", [Dot("describe"), Dot("parallel")]), [TemplateLiteral(23, ["Foo"]), OtherExpression(30)], []),
      Options(["test.describe"], [], false));
  }

  lemma IgnoreDescribeValid141()
    ensures Valid(OneCall("test.describe.skip", Quoted('`', "Foo"), ", () => {})"),
      [Call(Callee("test", [Dot("describe"), Dot("skip")]), [TemplateLiteral(19, ["Foo"]), OtherExpression(26)], [])],
      Options(["test.describe"], [], false))
  {
    KindOfTestDescribeSkip();
    ValidOneCall("test.describe.skip", '`', "Foo", ", () => {})",
      Call(Callee("test", [Dot("describe"), Dot("skip")]), [TemplateLiteral(19, ["Foo"]), OtherExpression(26)], []),
      Options(["test.describe"], [], false));
  }

  lemma IgnoreDescribeInvalid147()
    ensures Invalid(OneCall("test", Quoted('\'', "Foo"), ", () => {})"),
      [Call(Callee("test", []), [StringLiteral(5, '\'', "Foo"), OtherExpression(12)], [])],
      Options(["test.describe"], [], false),
      [Report("test", 5, Edit(6, 7, "f"))],
      OneCall("test", Quoted('\'', "foo"), ", () => {})"))
  {
    KindOfTest();
    assert "f" + "Foo"[1..] == "foo";
    var call := Call(Callee("test", []), [StringLiteral(5, '\'', "Foo"), OtherExpression(12)], []);
    RejectedTitle(call.callee, call.args, Options(["test.describe"], [], false), Test, "Foo");
    InvalidOneCall("test", '\'', "Foo", ", () => {})", call, Options(["test.describe"], [], false), "test", 'f');
  }

  // With `ignore: ["test"]` (lines 155-183).

  lemma IgnoreTestValid158()
    ensures Valid(OneCall("test", Quoted('\'', "Foo"), ", () => {})"),
      [Call(Callee("test", []), [StringLiteral(5, '\'', "Foo"), OtherExpression(12)], [])],
      Options(["test"], [], false))
  {
    KindOfTest();
    ValidOneCall("test", '\'', "Foo", ", () => {})",
      Call(Callee("test", []), [StringLiteral(5, '\'', "Foo"), OtherExpression(12)], []),
      Options(["test"], [], false));
  }

  lemma IgnoreTestValid162()
    ensures Valid(OneCall("test", Quoted('`', "Foo"), ", () => {})"),
      [Call(Callee("test", []), [TemplateLiteral(5, ["Foo"]), OtherExpression(12)], [])],
      Options(["test"], [], false))
  {
    KindOfTest();
    ValidOneCall("test", '`', "Foo", ", () => {})",
      Call(Callee("test", []), [TemplateLiteral(5, ["Foo"]), OtherExpression(12)], []),
      Options(["test"], [], false));
  }

  lemma IgnoreTestValid166()
    ensures Valid(OneCall("test.only", Quoted('`', "Foo"), ", () => {})"),
      [Call(Callee("test", [Dot("only")]), [TemplateLiteral(10, ["Foo"]), OtherExpression(17)], [])],
      Options(["test"], [], false))
  {
    KindOfTestOnly();
    ValidOneCall("test.only", '`', "Foo", ", () => {})",
      Call(Callee("test", [Dot("only")]), [TemplateLiteral(10, ["Foo"]), OtherExpression(17)], []),
      Options(["test"], [], false));
  }

  lemma IgnoreTestInvalid172()
    ensures Invalid(OneCall("test.describe", Quoted('\'', "Foo"), ", () => {})"),
      [Call(Callee("test", [Dot("describe")]), [StringLiteral(14, '\'', "Foo"), OtherExpression(21)], [])],
      Options(["test"], [], false),
      [Report("test.describe", 14, Edit(15, 16, "f"))],
      OneCall("test.describe", Quoted('\'', "foo"), ", () => {})"))
  {
    KindOfTestDescribe();
    assert "f" + "Foo"[1..] == "foo";
    var call := Call(Callee("test", [Dot("describe")]), [StringLiteral(14, '\'', "Foo"), OtherExpression(21)], []);
    RejectedTitle(call.callee, call.args, Options(["test"], [], false), Describe, "Foo");
    InvalidOneCall("test.describe", '\'', "Foo", ", () => {})", call, Options(["test"], [], false), "test.describe", 'f');
  }

  // With `allowedPrefixes` (lines 185-208).

  lemma AllowedPrefixesValid188()
    ensures Valid(OneCall("test", Quoted('\'', "GET /live"), ", () => {})"),
      [Call(Callee("test", []), [StringLiteral(5, '\'', "GET /live"), OtherExpression(18)], [])],
      Options([], ["GET"], false))
  {
    KindOfTest();
    assert StartsWith("GET /live", "GET");
    assert HasAllowedPrefix("GET /live", ["GET"]);
    ValidOneCall("test", '\'', "GET /live", ", () => {})",
      Call(Callee("test", []), [StringLiteral(5, '\'', "GET /live"), OtherExpression(18)], []),
      Options([], ["GET"], false));
  }

  lemma AllowedPrefixesValid192()
    ensures Valid(OneCall("test", Quoted('"', "POST /live"), ", () => {})"),
      [Call(Callee("test", []), [StringLiteral(5, '"', "POST /live"), OtherExpression(19)], [])],
      Options([], ["GET", "POST"], false))
  {
    KindOfTest();
    assert ["GET", "POST"][1..] == ["POST"];
    assert !StartsWith("POST /live", "GET");
    assert StartsWith("POST /live", "POST");
    assert HasAllowedPrefix("POST /live", ["POST"]);
    assert HasAllowedPrefix("POST /live", ["GET", "POST"]);
    ValidOneCall("test", '"', "POST /live", ", () => {})",
      Call(Callee("test", []), [StringLiteral(5, '"', "POST /live"), OtherExpression(19)], []),
      Options([], ["GET", "POST"], false));
  }

  lemma AllowedPrefixesValid196()
    ensures Valid(OneCall("test", Quoted('`', "PATCH /live"), ", () => {})"),
      [Call(Callee("test", []), [TemplateLiteral(5, ["PATCH /live"]), OtherExpression(20)], [])],
      Options([], ["GET", "PATCH"], false))
  {
    KindOfTest();
    assert ["GET", "PATCH"][1..] == ["PATCH"];
    assert !StartsWith("PATCH /live", "GET");
    assert StartsWith("PATCH /live", "PATCH");
    assert HasAllowedPrefix("PATCH /live", ["PATCH"]);
    assert HasAllowedPrefix("PATCH /live", ["GET", "PATCH"]);
    assert ExtractTitle([TemplateLiteral(5, ["PATCH /live"]), OtherExpression(20)]) == Some(CheckableTitle("PATCH /live", 6));
    assert Check(Callee("test", []), [TemplateLiteral(5, ["PATCH /live"]), OtherExpression(20)], 0, Options([], ["GET", "PATCH"], false)) == Pass;
    ValidOneCall("test", '`', "PATCH /live", ", () => {})",
      Call(Callee("test", []), [TemplateLiteral(5, ["PATCH /live"]), OtherExpression(20)], []),
      Options([], ["GET", "PATCH"], false));
  }

  lemma AllowedPrefixesInvalid202()
    ensures Invalid(OneCall("test", Quoted('`', "POST /live"), ", () => {})"),
      [Call(Callee("test", []), [TemplateLiteral(5, ["POST /live"]), OtherExpression(19)], [])],
      Options([], ["GET"], false),
      [Report("test", 5, Edit(6, 7, "p"))],
      OneCall("test", Quoted('`', "pOST /live"), ", () => {})"))
  {
    KindOfTest();
    assert ["GET"][1..] == [];
    assert !StartsWith("POST /live", "GET");
    assert !HasAllowedPrefix("POST /live", ["GET"]);
    assert "p" + "POST /live"[1..] == "pOST /live";
    var call := Call(Callee("test", []), [TemplateLiteral(5, ["POST /live"]), OtherExpression(19)], []);
    RejectedTitle(call.callee, call.args, Options([], ["GET"], false), Test, "POST /live");
    InvalidOneCall("test", '`', "POST /live", ", () => {})", call, Options([], ["GET"], false), "test", 'p');
  }

  // With `ignoreTopLevelDescribe: true` (lines 210-270).

  lemma TopLevelDescribeValid213()
    ensures Valid(OneCall("describe", Quoted('"', "MyClass"), ", () => {});"),
      [Call(Callee("describe", []), [StringLiteral(9, '"', "MyClass"), OtherExpression(20)], [])],
      Options([], [], true))
  {
    ValidOneCall("describe", '"', "MyClass", ", () => {});",
      Call(Callee("describe", []), [StringLiteral(9, '"', "MyClass"), OtherExpression(20)], []),
      Options([], [], true));
  }

  lemma TopLevelDescribeInvalid229()
    ensures Invalid(OneCall("test", Quoted('"', "Works!"), ", () => {});"),
      [Call(Callee("test", []), [StringLiteral(5, '"', "Works!"), OtherExpression(15)], [])],
      Options([], [], true),
      [Report("test", 5, Edit(6, 7, "w"))],
      OneCall("test", Quoted('"', "works!"), ", () => {});"))
  {
    KindOfTest();
    assert "w" + "Works!"[1..] == "works!";
    var call := Call(Callee("test", []), [StringLiteral(5, '"', "Works!"), OtherExpression(15)], []);
    RejectedTitle(call.callee, call.args, Options([], [], true), Test, "Works!");
    InvalidOneCall("test", '"', "Works!", ", () => {});", call, Options([], [], true), "test", 'w');
  }

  // The kind of each callee the fixtures use, from the shape of its chain.

  /** A chain of static names after `test` denotes the declaration the reference chain says. */
  lemma DeclarationOfStaticChain(c: Callee, names: seq<string>)
    requires c.base == TestBase && |c.members| == |names|
    requires forall i :: 0 <= i < |names| ==> StaticName(c.members[i]) == Some(names[i])
    requires forall t | t in names :: AllowedAfterBase(t)
    requires multiset(names)[DescribeToken] <= 1
    ensures Declaration(c) == Some(if DescribeToken in names then Describe else Test)
  {
    var tokens := [TestBase] + names;
    assert ResolveMembers(c.members).value == names;
    assert tokens[1..] == names;
    ClassifyMatchesReference(tokens);
  }

  /** `test` followed by modifiers only is a test declaration. */
  lemma ModifiersOnly(c: Callee, modifiers: seq<string>)
    requires c.base == TestBase && |c.members| == |modifiers|
    requires forall i :: 0 <= i < |modifiers| ==> StaticName(c.members[i]) == Some(modifiers[i]) && modifiers[i] in Modifiers
    ensures Declaration(c) == Some(Test)
  {
    DescribeIsNoModifier();
    assert DescribeToken !in modifiers;
    DeclarationOfStaticChain(c, modifiers);
  }

  /** `test.describe` followed by modifiers only is a describe declaration. */
  lemma DescribeThenModifiers(c: Callee, modifiers: seq<string>)
    requires c.base == TestBase && |c.members| == 1 + |modifiers|
    requires StaticName(c.members[0]) == Some(DescribeToken)
    requires forall i :: 0 <= i < |modifiers| ==> StaticName(c.members[i + 1]) == Some(modifiers[i]) && modifiers[i] in Modifiers
    ensures Declaration(c) == Some(Describe)
  {
    DescribeIsNoModifier();
    var names := [DescribeToken] + modifiers;
    assert DescribeToken !in modifiers;
    assert multiset(names)[DescribeToken] == 1;
    DeclarationOfStaticChain(c, names);
  }

  lemma KindOfTest()
    ensures Declaration(Callee("test", [])) == Some(Test)
  {
    ModifiersOnly(Callee("test", []), []);
  }

  lemma KindOfTestFixme()
    ensures Declaration(Callee("test", [Dot("fixme")])) == Some(Test)
  {
    ModifiersOnly(Callee("test", [Dot("fixme")]), ["fixme"]);
  }

  lemma KindOfTestSkip()
    ensures Declaration(Callee("test", [Dot("skip")])) == Some(Test)
  {
    ModifiersOnly(Callee("test", [Dot("skip")]), ["skip"]);
  }

  lemma KindOfTestOnly()
    ensures Declaration(Callee("test", [Dot("only")])) == Some(Test)
  {
    ModifiersOnly(Callee("test", [Dot("only")]), ["only"]);
  }

  lemma KindOfTestKeyFixme()
    ensures Declaration(Callee("test", [StringKey("fixme")])) == Some(Test)
  {
    ModifiersOnly(Callee("test", [StringKey("fixme")]), ["fixme"]);
  }

  lemma KindOfTestKeySkip()
    ensures Declaration(Callee("test", [StringKey("skip")])) == Some(Test)
  {
    ModifiersOnly(Callee("test", [StringKey("skip")]), ["skip"]);
  }

  lemma KindOfTestDescribe()
    ensures Declaration(Callee("test", [Dot("describe")])) == Some(Describe)
  {
    DescribeThenModifiers(Callee("test", [Dot("describe")]), []);
  }

  lemma KindOfTestKeyDescribe()
    ensures Declaration(Callee("test", [StringKey("describe")])) == Some(Describe)
  {
    DescribeThenModifiers(Callee("test", [StringKey("describe")]), []);
  }

  lemma KindOfTestTemplateDescribe()
    ensures Declaration(Callee("test", [TemplateKey("describe")])) == Some(Describe)
  {
    DescribeThenModifiers(Callee("test", [TemplateKey("describe")]), []);
  }

  lemma KindOfTestDescribeSkip()
    ensures Declaration(Callee("test", [Dot("describe"), Dot("skip")])) == Some(Describe)
  {
    DescribeThenModifiers(Callee("test", [Dot("describe"), Dot("skip")]), ["skip"]);
  }

  lemma KindOfTestDescribeFixme()
    ensures Declaration(Callee("test", [Dot("describe"), Dot("fixme")])) == Some(Describe)
  {
    DescribeThenModifiers(Callee("test", [Dot("describe"), Dot("fixme")]), ["fixme"]);
  }

  lemma KindOfTestDescribeOnly()
    ensures Declaration(Callee("test", [Dot("describe"), Dot("only")])) == Some(Describe)
  {
    DescribeThenModifiers(Callee("test", [Dot("describe"), Dot("only")]), ["only"]);
  }

  lemma KindOfTestDescribeParallelSkip()
    ensures Declaration(Callee("test", [Dot("describe"), Dot("parallel"), Dot("skip")])) == Some(Describe)
  {
    DescribeThenModifiers(Callee("test", [Dot("describe"), Dot("parallel"), Dot("skip")]), ["parallel", "skip"]);
  }

  lemma KindOfTestDescribeParallelFixme()
    ensures Declaration(Callee("test", [Dot("describe"), Dot("parallel"), Dot("fixme")])) == Some(Describe)
  {
    DescribeThenModifiers(Callee("test", [Dot("describe"), Dot("parallel"), Dot("fixme")]), ["parallel", "fixme"]);
  }

  lemma KindOfTestDescribeParallelOnly()
    ensures Declaration(Callee("test", [Dot("describe"), Dot("parallel"), Dot("only")])) == Some(Describe)
  {
    DescribeThenModifiers(Callee("test", [Dot("describe"), Dot("parallel"), Dot("only")]), ["parallel", "only"]);
  }

  lemma KindOfTestDescribeSerialSkip()
    ensures Declaration(Callee("test", [Dot("describe"), Dot("serial"), Dot("skip")])) == Some(Describe)
  {
    DescribeThenModifiers(Callee("test", [Dot("describe"), Dot("serial"), Dot("skip")]), ["serial", "skip"]);
  }

  lemma KindOfTestDescribeTemplateSerialFixme()
    ensures Declaration(Callee("test", [Dot("describe"), TemplateKey("serial"), Dot("fixme")])) == Some(Describe)
  {
    DescribeThenModifiers(Callee("test", [Dot("describe"), TemplateKey("serial"), Dot("fixme")]), ["serial", "fixme"]);
  }

  lemma KindOfTestDescribeKeySerialOnly()
    ensures Declaration(Callee("test", [Dot("describe"), StringKey("serial"), Dot("only")])) == Some(Describe)
  {
    DescribeThenModifiers(Callee("test", [Dot("describe"), StringKey("serial"), Dot("only")]), ["serial", "only"]);
  }

  lemma KindOfTestTemplateOnly()
    ensures Declaration(Callee("test", [TemplateKey("only")])) == Some(Test)
  {
    ModifiersOnly(Callee("test", [TemplateKey("only")]), ["only"]);
  }

  lemma KindOfTestTemplateDescribeKeyOnly()
    ensures Declaration(Callee("test", [TemplateKey("describe"), StringKey("only")])) == Some(Describe)
  {
    DescribeThenModifiers(Callee("test", [TemplateKey("describe"), StringKey("only")]), ["only"]);
  }

  lemma KindOfTestDescribeSerialFixme()
    ensures Declaration(Callee("test", [Dot("describe"), Dot("serial"), Dot("fixme")])) == Some(Describe)
  {
    DescribeThenModifiers(Callee("test", [Dot("describe"), Dot("serial"), Dot("fixme")]), ["serial", "fixme"]);
  }

  lemma KindOfTestDescribeSerialOnly()
    ensures Declaration(Callee("test", [Dot("describe"), Dot("serial"), Dot("only")])) == Some(Describe)
  {
    DescribeThenModifiers(Callee("test", [Dot("describe"), Dot("serial"), Dot("only")]), ["serial", "only"]);
  }

  lemma KindOfTestDescribeParallel()
    ensures Declaration(Callee("test", [Dot("describe"), Dot("parallel")])) == Some(Describe)
  {
    DescribeThenModifiers(Callee("test", [Dot("describe"), Dot("parallel")]), ["parallel"]);
  }

  // With `ignoreTopLevelDescribe: true`, nested declarations (lines 216-226 and
  // 239-269). The dedented source of the fixtures, with the titles of the
  // inner describe and of the test inside it as parameters.

  function NestedSource(describeTitle: string, testTitle: string): string {
    "test.describe(" + Quoted('\'', "MyClass") + ", () => {\n  test.describe("
    + Quoted('\'', describeTitle) + ", () => {\n    test("
    + Quoted('\'', testTitle) + ", () => {});\n  });\n});"
  }

  /** The three calls of NestedSource, each nested in the callback of the one before. */
  function NestedCalls(describeTitle: string, testTitle: string): seq<CallTree> {
    var describeQuote := 49;
    var testQuote := describeQuote + |describeTitle| + 2 + 19;
    [Call(Callee("test", [Dot("describe")]), [StringLiteral(14, '\'', "MyClass"), OtherExpression(25)],
      [Call(Callee("test", [Dot("describe")]), [StringLiteral(describeQuote, '\'', describeTitle), OtherExpression(describeQuote + |describeTitle| + 4)],
        [Call(Callee("test", []), [StringLiteral(testQuote, '\'', testTitle), OtherExpression(testQuote + |testTitle| + 4)], [])])])]
  }

  /** The three titles of NestedSource lie at offsets 14, 49 and |describeTitle| + 70. */
  lemma NestedTitlesPlaced(describeTitle: string, testTitle: string)
    ensures var code := NestedSource(describeTitle, testTitle);
      && LiteralIn(code, StringLiteral(14, '\'', "MyClass"))
      && LiteralIn(code, StringLiteral(49, '\'', describeTitle))
      && LiteralIn(code, StringLiteral(|describeTitle| + 70, '\'', testTitle))
      && |code| == |describeTitle| + |testTitle| + 94
  {
    var a, b, c, d := "test.describe(", ", () => {\n  test.describe(", ", () => {\n    test(", ", () => {});\n  });\n});";
    var q0, q1, q2 := Quoted('\'', "MyClass"), Quoted('\'', describeTitle), Quoted('\'', testTitle);
    var outerTitle := StringLiteral(14, '\'', "MyClass");
    QuotedIn(a, '\'', "MyClass", b);
    LiteralInExtends(a + q0 + b, q1, outerTitle);
    LiteralInExtends(a + q0 + b + q1, c, outerTitle);
    LiteralInExtends(a + q0 + b + q1 + c, q2, outerTitle);
    LiteralInExtends(a + q0 + b + q1 + c + q2, d, outerTitle);
    var innerTitle := StringLiteral(49, '\'', describeTitle);
    QuotedIn(a + q0 + b, '\'', describeTitle, c);
    LiteralInExtends(a + q0 + b + q1 + c, q2, innerTitle);
    LiteralInExtends(a + q0 + b + q1 + c + q2, d, innerTitle);
    QuotedIn(a + q0 + b + q1 + c, '\'', testTitle, d);
  }

  /** Whatever the two titles, every argument of the nested calls lies where its offset says. */
  lemma NestedPlaced(describeTitle: string, testTitle: string)
    ensures PlacedAll(NestedSource(describeTitle, testTitle), NestedCalls(describeTitle, testTitle))
  {
    NestedTitlesPlaced(describeTitle, testTitle);
    var code := NestedSource(describeTitle, testTitle);
    var calls := NestedCalls(describeTitle, testTitle);
    var inner := calls[0].nested[0];
    var innermost := inner.nested[0];
    assert Placed(code, innermost);
    assert PlacedAll(code, inner.nested);
    assert Placed(code, inner);
    assert PlacedAll(code, calls[0].nested);
    assert Placed(code, calls[0]);
  }

  /** Two one-character fixes, at the first characters of two quoted titles, fix both titles. */
  lemma FixTwoTitles(x: string, q: char, v: string, y: string, w: string, z: string, m1: string, m2: string, c1: char, c2: char)
    requires |v| > 0 && |w| > 0
    ensures var rs := [Report(m1, |x|, Edit(|x| + 1, |x| + 2, [c1])),
                       Report(m2, |x| + |v| + 2 + |y|, Edit(|x| + |v| + 3 + |y|, |x| + |v| + 4 + |y|, [c2]))];
      && SingleCharacterFixesIn(x + Quoted(q, v) + y + Quoted(q, w) + z, rs)
      && ApplyFixes(x + Quoted(q, v) + y + Quoted(q, w) + z, rs) ==
         x + Quoted(q, [c1] + v[1..]) + y + Quoted(q, [c2] + w[1..]) + z
  {
    var v2 := [c1] + v[1..];
    var code := x + Quoted(q, v) + y + Quoted(q, w) + z;
    var rs := [Report(m1, |x|, Edit(|x| + 1, |x| + 2, [c1])),
               Report(m2, |x| + |v| + 2 + |y|, Edit(|x| + |v| + 3 + |y|, |x| + |v| + 4 + |y|, [c2]))];
    assert code == x + Quoted(q, v) + (y + Quoted(q, w) + z);
    EditFirstOfQuoted(x, q, v, y + Quoted(q, w) + z, c1);
    var once := ApplyEdit(code, rs[0].fix);
    assert once == (x + Quoted(q, v2) + y) + Quoted(q, w) + z;
    assert |x + Quoted(q, v2) + y| == |x| + |v| + 2 + |y|;
    EditFirstOfQuoted(x + Quoted(q, v2) + y, q, w, z, c2);
    var twice := ApplyEdit(once, rs[1].fix);
    assert twice == x + Quoted(q, v2) + y + Quoted(q, [c2] + w[1..]) + z;
    assert SingleCharacterFixesIn(code, rs);
    assert ApplyFixes(code, rs) == ApplyFixes(once, rs[1..]);
    assert ApplyFixes(once, rs[1..]) == ApplyFixes(twice, rs[2..]);
  }

  /** Fixing the first characters of both inner titles of NestedSource gives the source with the fixed titles. */
  lemma NestedFixes(describeTitle: string, testTitle: string, m1: string, m2: string, c1: char, c2: char)
    requires |describeTitle| > 0 && |testTitle| > 0
    ensures var rs := [Report(m1, 49, Edit(50, 51, [c1])), Report(m2, |describeTitle| + 70, Edit(|describeTitle| + 71, |describeTitle| + 72, [c2]))];
      && SingleCharacterFixesIn(NestedSource(describeTitle, testTitle), rs)
      && ApplyFixes(NestedSource(describeTitle, testTitle), rs) == NestedSource([c1] + describeTitle[1..], [c2] + testTitle[1..])
  {
    FixTwoTitles("test.describe(" + Quoted('\'', "MyClass") + ", () => {\n  test.describe(", '\'', describeTitle,
      ", () => {\n    test(", testTitle, ", () => {});\n  });\n});", m1, m2, c1, c2);
  }

  /**
   * With `ignoreTopLevelDescribe`, the outer describe is exempt and the
   * inner describe and its test are judged at depths 1 and 2.
   */
  lemma NestedReports(describeTitle: string, testTitle: string)
    ensures var calls := NestedCalls(describeTitle, testTitle);
      FileReports(calls, Options([], [], true)) ==
        OwnReports(calls[0].nested[0], 1, Options([], [], true)) + OwnReports(calls[0].nested[0].nested[0], 2, Options([], [], true))
  {
    KindOfTestDescribe();
    KindOfTest();
    var opts := Options([], [], true);
    var calls := NestedCalls(describeTitle, testTitle);
    var inner := calls[0].nested[0];
    var innermost := inner.nested[0];
    assert Reports(innermost, 2, opts) == OwnReports(innermost, 2, opts);
    assert ReportsAll(inner.nested, 2, opts) == OwnReports(innermost, 2, opts);
    assert Reports(inner, 1, opts) == OwnReports(inner, 1, opts) + OwnReports(innermost, 2, opts);
    assert ReportsAll(calls[0].nested, 1, opts) == Reports(inner, 1, opts);
    assert OwnReports(calls[0], 0, opts) == [];
    assert Reports(calls[0], 0, opts) == ReportsAll(calls[0].nested, 1, opts);
    assert calls[1..] == [];
    assert ReportsAll(calls, 0, opts) == Reports(calls[0], 0, opts) + [];
  }

  lemma TopLevelDescribeValid217()
    ensures Valid(NestedSource("#myMethod", "does things"), NestedCalls("#myMethod", "does things"), Options([], [], true))
  {
    KindOfTestDescribe();
    KindOfTest();
    NestedPlaced("#myMethod", "does things");
    NestedReports("#myMethod", "does things");
  }

  /** The inner describe of the invalid nested fixture is reported on its own. */
  lemma InnerDescribeOfInvalid240()
    ensures OwnReports(NestedCalls("MyMethod", "Does things")[0].nested[0], 1, Options([], [], true)) ==
      [Report("test.describe", 49, Edit(50, 51, "m"))]
  {
    KindOfTestDescribe();
    var inner := NestedCalls("MyMethod", "Does things")[0].nested[0];
    assert Check(inner.callee, inner.args, 1, Options([], [], true)) == Fail(Report("test.describe", 49, Edit(50, 51, "m")));
  }

  /** The test of the invalid nested fixture is reported on its own. */
  lemma InnerTestOfInvalid240()
    ensures OwnReports(NestedCalls("MyMethod", "Does things")[0].nested[0].nested[0], 2, Options([], [], true)) ==
      [Report("test", 78, Edit(79, 80, "d"))]
  {
    KindOfTest();
    var innermost := NestedCalls("MyMethod", "Does things")[0].nested[0].nested[0];
    assert Check(innermost.callee, innermost.args, 2, Options([], [], true)) == Fail(Report("test", 78, Edit(79, 80, "d")));
  }

  /** The reports of the invalid nested fixture, call by call. */
  lemma ReportsOfInvalid240()
    ensures FileReports(NestedCalls("MyMethod", "Does things"), Options([], [], true)) ==
      [Report("test.describe", 49, Edit(50, 51, "m")), Report("test", 78, Edit(79, 80, "d"))]
  {
    NestedReports("MyMethod", "Does things");
    InnerDescribeOfInvalid240();
    InnerTestOfInvalid240();
  }

  /** The inner describe is reported at offset 49 (line 2, column 17), the test at 78 (line 3, column 10). */
  lemma TopLevelDescribeInvalid240()
    ensures Invalid(NestedSource("MyMethod", "Does things"), NestedCalls("MyMethod", "Does things"), Options([], [], true),
      [Report("test.describe", 49, Edit(50, 51, "m")), Report("test", 78, Edit(79, 80, "d"))],
      NestedSource("myMethod", "does things"))
  {
    KindOfTestDescribe();
    KindOfTest();
    NestedPlaced("MyMethod", "Does things");
    ReportsOfInvalid240();
    NestedFixes("MyMethod", "Does things", "test.describe", "test", 'm', 'd');
    assert "m" + "MyMethod"[1..] == "myMethod";
    assert "d" + "Does things"[1..] == "does things";
  }
}
