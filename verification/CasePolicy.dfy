/**
 * The casing policy of one call: whether its title may start as it does, and
 * if not, the report and the one-character edit that corrects it.
 */
module CasePolicy {
  import opened Wrappers
  import opened Ascii
  import opened CallChain
  import opened Title

  /** The rule's options; the empty lists and `false` are the defaults. */
  datatype Options = Options(ignore: seq<string>, allowedPrefixes: seq<string>, ignoreTopLevelDescribe: bool)

  const DefaultOptions: Options := Options([], [], false)

  /** Replace the source text in [start, stop) by `text`. */
  datatype Edit = Edit(start: nat, stop: nat, text: string)

  /** A report: the canonical method name, the offset it points at, and its fix. */
  datatype Report = Report(methodName: string, location: nat, fix: Edit)

  datatype Verdict = Pass | Fail(report: Report)

  /**
   * `title` begins with `prefix`, compared character by character
   * (case-sensitive). It is the same test as `prefix <= title`
   * (StartsWithIsPrefix), written this way because the solver settles it on
   * literal strings far more cheaply.
   */
  predicate StartsWith(title: string, prefix: string) {
    SpellsFrom(title, 0, prefix, 0)
  }

  lemma StartsWithIsPrefix(title: string, prefix: string)
    ensures StartsWith(title, prefix) <==> prefix <= title
  {
    SpellsIsSlice(title, 0, prefix);
  }

  /** Some configured prefix is a leading part of `title`. */
  function HasAllowedPrefix(title: string, prefixes: seq<string>): (r: bool)
    ensures r <==> exists i :: 0 <= i < |prefixes| && prefixes[i] <= title
  {
    if prefixes == [] then false
    else
      StartsWithIsPrefix(title, prefixes[0]);
      StartsWith(title, prefixes[0]) || HasAllowedPrefix(title, prefixes[1..])
  }

  /**
   * The decision for one call with `describeDepth` enclosing describe
   * declarations. A call is reported when it is a declaration whose method
   * is not ignored, that is not an exempt top-level describe, whose title is
   * checkable, starts with an upper-case letter and with no allowed prefix.
   */
  function Check(callee: Callee, args: seq<Argument>, describeDepth: nat, opts: Options): (v: Verdict)
    ensures v.Fail? ==> Declaration(callee).Some? && ExtractTitle(args).Some?
    ensures v.Fail? ==>
      var t := ExtractTitle(args).value;
      && IsUpper(t.text[0])
      && v.report.methodName == MethodName(Declaration(callee).value)
      && v.report.location == args[0].start
      && v.report.fix.start == t.contentStart
      && v.report.fix.stop == t.contentStart + 1
      && v.report.fix.text == [ToLower(t.text[0])]
  {
    match Declaration(callee)
    case None => Pass
    case Some(kind) =>
      var name := MethodName(kind);
      if name in opts.ignore then Pass
      else if kind == Describe && opts.ignoreTopLevelDescribe && describeDepth == 0 then Pass
      else
        match ExtractTitle(args)
        case None => Pass
        case Some(title) =>
          var first := title.text[0];
          if !IsUpper(first) then Pass
          else if HasAllowedPrefix(title.text, opts.allowedPrefixes) then Pass
          else Fail(Report(name, args[0].start, Edit(title.contentStart, title.contentStart + 1, [ToLower(first)])))
  }

  /** The text after applying an edit whose range lies inside it. */
  function ApplyEdit(code: string, e: Edit): (r: string)
    requires e.start <= e.stop <= |code|
    ensures |r| == |code| - (e.stop - e.start) + |e.text|
    ensures r[..e.start] == code[..e.start]
    ensures r[e.start..e.start + |e.text|] == e.text
    ensures r[e.start + |e.text|..] == code[e.stop..]
  {
    code[..e.start] + e.text + code[e.stop..]
  }

  // ---------------------------------------------------------------------
  // Properties of the decision.
  // ---------------------------------------------------------------------

  /** Calls that are not declarations, among them every call whose base is not `test`, pass. */
  lemma OrdinaryCallsPass(callee: Callee, args: seq<Argument>, depth: nat, opts: Options)
    requires Declaration(callee).None? || callee.base != TestBase
    ensures Check(callee, args, depth, opts) == Pass
  {
    if callee.base != TestBase {
      OtherBaseIsNoDeclaration(callee);
    }
  }

  /** A missing, non-literal, interpolated or empty title passes, whatever the options. */
  lemma UncheckableTitlesPass(callee: Callee, args: seq<Argument>, depth: nat, opts: Options)
    requires |args| == 0 || StaticText(args[0]).None? || StaticText(args[0]) == Some("")
    ensures Check(callee, args, depth, opts) == Pass
  {
  }

  /** A title whose first character is not an upper-case letter passes, whatever the options. */
  lemma NonUpperStartPasses(callee: Callee, args: seq<Argument>, depth: nat, opts: Options)
    requires |args| > 0 && StaticText(args[0]).Some? && StaticText(args[0]).value != ""
    requires !IsUpper(StaticText(args[0]).value[0])
    ensures Check(callee, args, depth, opts) == Pass
  {
  }

  /** Exactly the calls the policy rejects are reported. */
  lemma FailsExactlyWhen(callee: Callee, args: seq<Argument>, depth: nat, opts: Options)
    ensures Check(callee, args, depth, opts).Fail? <==>
      && Declaration(callee).Some?
      && MethodName(Declaration(callee).value) !in opts.ignore
      && !(Declaration(callee) == Some(Describe) && opts.ignoreTopLevelDescribe && depth == 0)
      && |args| > 0 && StaticText(args[0]).Some? && StaticText(args[0]).value != ""
      && IsUpper(StaticText(args[0]).value[0])
      && !(exists p :: p in opts.allowedPrefixes && p <= StaticText(args[0]).value)
  {
    if Declaration(callee).Some? && ExtractTitle(args).Some? {
      var text := ExtractTitle(args).value.text;
      assert (exists p :: p in opts.allowedPrefixes && p <= text) <==> HasAllowedPrefix(text, opts.allowedPrefixes) by {
        if HasAllowedPrefix(text, opts.allowedPrefixes) {
          var i :| 0 <= i < |opts.allowedPrefixes| && opts.allowedPrefixes[i] <= text;
          assert opts.allowedPrefixes[i] in opts.allowedPrefixes;
        }
      }
    }
  }

  /** `ignore` exempts the calls whose canonical method name it lists, and has no other effect. */
  lemma IgnoreMatchesCanonicalName(callee: Callee, args: seq<Argument>, depth: nat, opts: Options)
    requires Declaration(callee).Some?
    ensures MethodName(Declaration(callee).value) in opts.ignore ==> Check(callee, args, depth, opts) == Pass
    ensures MethodName(Declaration(callee).value) !in opts.ignore ==>
      Check(callee, args, depth, opts) == Check(callee, args, depth, opts.(ignore := []))
  {
  }

  /** `allowedPrefixes` exempts the titles that start with a listed prefix, and has no other effect. */
  lemma AllowedPrefixesExemptOnlyMatchingTitles(callee: Callee, args: seq<Argument>, depth: nat, opts: Options)
    requires ExtractTitle(args).Some?
    ensures (exists i :: 0 <= i < |opts.allowedPrefixes| && opts.allowedPrefixes[i] <= ExtractTitle(args).value.text) ==>
      Check(callee, args, depth, opts) == Pass
    ensures !(exists i :: 0 <= i < |opts.allowedPrefixes| && opts.allowedPrefixes[i] <= ExtractTitle(args).value.text) ==>
      Check(callee, args, depth, opts) == Check(callee, args, depth, opts.(allowedPrefixes := []))
  {
  }

  /**
   * `ignoreTopLevelDescribe` exempts a describe declaration with no enclosing
   * describe, and changes the outcome of no other call.
   */
  lemma TopLevelDescribeExemption(callee: Callee, args: seq<Argument>, depth: nat, opts: Options)
    ensures Declaration(callee) == Some(Describe) && depth == 0 ==>
      Check(callee, args, depth, opts.(ignoreTopLevelDescribe := true)) == Pass
    ensures Declaration(callee) != Some(Describe) || depth > 0 ==>
      Check(callee, args, depth, opts.(ignoreTopLevelDescribe := true)) ==
      Check(callee, args, depth, opts.(ignoreTopLevelDescribe := false))
  {
  }

  /**
   * The fix of a report changes only the first character of the title, to
   * its lower-case form; the opening delimiter, the rest of the title and the
   * surrounding source stay as they were. The report points at the opening
   * delimiter of the title argument.
   */
  lemma FixChangesOnlyFirstTitleCharacter(code: string, callee: Callee, args: seq<Argument>, depth: nat, opts: Options)
    requires |args| > 0 && LiteralIn(code, args[0])
    requires Check(callee, args, depth, opts).Fail?
    ensures var r := Check(callee, args, depth, opts).report;
      && r.fix.start < r.fix.stop <= |code|
      && code[r.location] in {'\'', '"', '`'}
      && r.fix.start == r.location + 1
      && IsUpper(code[r.fix.start])
      && var fixed := ApplyEdit(code, r.fix);
      && |fixed| == |code|
      && fixed[r.fix.start] == ToLower(code[r.fix.start])
      && forall i :: 0 <= i < |code| && i != r.fix.start ==> fixed[i] == code[i]
  {
    var r := Check(callee, args, depth, opts).report;
    TitleLiesInSource(code, args);
    var fixed := ApplyEdit(code, r.fix);
    forall i | 0 <= i < |code| && i != r.fix.start ensures fixed[i] == code[i] {
      if i < r.fix.start {
        assert fixed[..r.fix.start][i] == code[..r.fix.start][i];
      } else {
        assert fixed[r.fix.start + 1..][i - r.fix.start - 1] == code[r.fix.stop..][i - r.fix.start - 1];
      }
    }
    assert fixed[r.fix.start..r.fix.start + 1][0] == fixed[r.fix.start];
  }

  /** Replacing the first character of a title in the source gives the source of the title so replaced. */
  lemma ReplacedFirstCharacterIn(code: string, a: Argument, c: char)
    requires LiteralIn(code, a) && StaticText(a).Some? && StaticText(a).value != ""
    ensures a.start + 2 <= |code|
    ensures LiteralIn(ApplyEdit(code, Edit(a.start + 1, a.start + 2, [c])), WithFirstChar(a, c))
  {
    var text := StaticText(a).value;
    var newText := StaticText(WithFirstChar(a, c)).value;
    var s := a.start + 1;
    SpellsIsSlice(code, s, text);
    var fixed := ApplyEdit(code, Edit(s, s + 1, [c]));
    forall k | 0 <= k < |newText| ensures fixed[s + k] == newText[k] {
      if k > 0 {
        assert code[s..s + |text|][k] == text[k];
        assert fixed[s + 1..][k - 1] == code[s + 1..][k - 1];
      }
    }
    SliceIsSpellsFrom(fixed, s, newText, 0);
    assert fixed[..s][a.start] == code[..s][a.start];
    assert fixed[s + 1..][|text| - 1] == code[s + 1..][|text| - 1];
  }

  /**
   * After the fix, the source holds the title argument with its first
   * character lowered, and that argument is no longer reported: applying
   * the fix once is enough.
   */
  lemma FixedTitlePasses(code: string, callee: Callee, args: seq<Argument>, depth: nat, opts: Options)
    requires |args| > 0 && LiteralIn(code, args[0])
    requires Check(callee, args, depth, opts).Fail?
    ensures var r := Check(callee, args, depth, opts).report;
      var lowered := WithFirstChar(args[0], ToLower(StaticText(args[0]).value[0]));
      && r.fix.start <= r.fix.stop <= |code|
      && LiteralIn(ApplyEdit(code, r.fix), lowered)
      && Check(callee, [lowered] + args[1..], depth, opts) == Pass
  {
    var text := StaticText(args[0]).value;
    var lowered := WithFirstChar(args[0], ToLower(text[0]));
    ReplacedFirstCharacterIn(code, args[0], ToLower(text[0]));
    NonUpperStartPasses(callee, [lowered] + args[1..], depth, opts);
  }
}
