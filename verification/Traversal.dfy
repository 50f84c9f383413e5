/**
 * The walk over the calls of a file. Every call is judged with the number of
 * describe declarations that enclose it; a describe declaration raises that
 * number for the calls nested in its arguments, whether or not it is itself
 * reported. Reports come out in pre-order (a call before the calls nested
 * in it), which is source order when each call lists its nested calls in
 * source order.
 */
module Traversal {
  import opened Wrappers
  import opened CallChain
  import opened Title
  import opened CasePolicy

  /** A call, its arguments, and the calls nested inside its arguments (a callback body). */
  datatype CallTree = Call(callee: Callee, args: seq<Argument>, nested: seq<CallTree>)

  /** The describe depth for the calls nested in `t`, when `t` itself sits at `depth`. */
  function InnerDepth(t: CallTree, depth: nat): (d: nat)
    ensures d == depth || d == depth + 1
    ensures d == depth + 1 <==> Declaration(t.callee) == Some(Describe)
  {
    if Declaration(t.callee) == Some(Describe) then depth + 1 else depth
  }

  /** The report of `t` itself: the verdict's report when the policy rejects `t`, nothing otherwise. */
  function OwnReports(t: CallTree, depth: nat, opts: Options): (rs: seq<Report>)
    ensures |rs| <= 1
    ensures rs == [] <==> Check(t.callee, t.args, depth, opts) == Pass
    ensures Check(t.callee, t.args, depth, opts).Fail? ==> rs == [Check(t.callee, t.args, depth, opts).report]
  {
    match Check(t.callee, t.args, depth, opts)
    case Pass => []
    case Fail(r) => [r]
  }

  /** The reports for `t` and every call nested in it, at most one per call. */
  function Reports(t: CallTree, depth: nat, opts: Options): (rs: seq<Report>)
    ensures |rs| <= Size(t)
    decreases t, 1
  {
    OwnReports(t, depth, opts) + ReportsAll(t.nested, InnerDepth(t, depth), opts)
  }

  function ReportsAll(ts: seq<CallTree>, depth: nat, opts: Options): (rs: seq<Report>)
    ensures |rs| <= SizeAll(ts)
    decreases ts, 0
  {
    if ts == [] then [] else Reports(ts[0], depth, opts) + ReportsAll(ts[1..], depth, opts)
  }

  /**
   * The reports for a whole file: its top-level calls, with no enclosing
   * describe; at most one report per call of the file.
   */
  function FileReports(calls: seq<CallTree>, opts: Options): (rs: seq<Report>)
    ensures |rs| <= SizeAll(calls)
  {
    ReportsAll(calls, 0, opts)
  }

  function Size(t: CallTree): nat
    decreases t
  {
    1 + SizeAll(t.nested)
  }

  function SizeAll(ts: seq<CallTree>): nat
    decreases ts
  {
    if ts == [] then 0 else Size(ts[0]) + SizeAll(ts[1..])
  }

  /** `t` and every call nested in it. */
  function CallsOf(t: CallTree): set<CallTree>
    decreases t
  {
    {t} + CallsOfAll(t.nested)
  }

  function CallsOfAll(ts: seq<CallTree>): set<CallTree>
    decreases ts
  {
    if ts == [] then {} else CallsOf(ts[0]) + CallsOfAll(ts[1..])
  }

  // ---------------------------------------------------------------------
  // Reference: every call paired with the describe depth it is judged at,
  // the call itself before the calls nested in it.
  // ---------------------------------------------------------------------

  /**
   * The calls of `t` in pre-order, each with its describe depth: `t` at
   * `depth`, the calls nested in it one deeper exactly when `t` declares a
   * describe. When the nested calls are listed in source order, pre-order is
   * source order.
   */
  function Judged(t: CallTree, depth: nat): (ps: seq<(CallTree, nat)>)
    ensures |ps| == Size(t) && ps[0] == (t, depth)
    ensures forall p :: p in ps ==> p.0 in CallsOf(t)
    decreases t, 1
  {
    [(t, depth)] + JudgedAll(t.nested, InnerDepth(t, depth))
  }

  function JudgedAll(ts: seq<CallTree>, depth: nat): (ps: seq<(CallTree, nat)>)
    ensures |ps| == SizeAll(ts)
    ensures forall p :: p in ps ==> p.0 in CallsOfAll(ts)
    decreases ts, 0
  {
    if ts == [] then [] else Judged(ts[0], depth) + JudgedAll(ts[1..], depth)
  }

  /** In a tree without describe declarations, every call is judged at the starting depth. */
  lemma {:induction false} JudgedDepthWithoutDescribes(t: CallTree, depth: nat)
    requires forall c | c in CallsOf(t) :: Declaration(c.callee) != Some(Describe)
    ensures forall p | p in Judged(t, depth) :: p.1 == depth
    decreases t, 1
  {
    assert InnerDepth(t, depth) == depth;
    JudgedDepthWithoutDescribesAll(t.nested, depth);
  }

  lemma {:induction false} JudgedDepthWithoutDescribesAll(ts: seq<CallTree>, depth: nat)
    requires forall c | c in CallsOfAll(ts) :: Declaration(c.callee) != Some(Describe)
    ensures forall p | p in JudgedAll(ts, depth) :: p.1 == depth
    decreases ts, 0
  {
    if ts != [] {
      JudgedDepthWithoutDescribes(ts[0], depth);
      JudgedDepthWithoutDescribesAll(ts[1..], depth);
    }
  }

  /** The reports of the judged calls that the policy rejects, in order. */
  function Failures(ps: seq<(CallTree, nat)>, opts: Options): seq<Report>
    decreases |ps|
  {
    if ps == [] then []
    else
      var verdict := Check(ps[0].0.callee, ps[0].0.args, ps[0].1, opts);
      (if verdict.Fail? then [verdict.report] else []) + Failures(ps[1..], opts)
  }

  lemma {:induction false} FailuresOfConcat(a: seq<(CallTree, nat)>, b: seq<(CallTree, nat)>, opts: Options)
    ensures Failures(a + b, opts) == Failures(a, opts) + Failures(b, opts)
    decreases |a|
  {
    if a == [] {
      assert a + b == b;
    } else {
      assert (a + b)[0] == a[0];
      assert (a + b)[1..] == a[1..] + b;
      FailuresOfConcat(a[1..], b, opts);
    }
  }

  lemma {:induction false} InFailures(ps: seq<(CallTree, nat)>, opts: Options, r: Report)
    ensures r in Failures(ps, opts) <==> exists p :: p in ps && Check(p.0.callee, p.0.args, p.1, opts) == Fail(r)
    decreases |ps|
  {
    if ps != [] {
      InFailures(ps[1..], opts, r);
      assert forall p :: p in ps <==> p == ps[0] || p in ps[1..];
    }
  }

  /**
   * The reports of a tree are, in order, the reports of its calls judged in
   * pre-order, each at its own describe depth.
   */
  lemma {:induction false} ReportsFollowJudgedOrder(t: CallTree, depth: nat, opts: Options)
    ensures Reports(t, depth, opts) == Failures(Judged(t, depth), opts)
    decreases t, 1
  {
    var inner := JudgedAll(t.nested, InnerDepth(t, depth));
    ReportsFollowJudgedOrderAll(t.nested, InnerDepth(t, depth), opts);
    FailuresOfConcat([(t, depth)], inner, opts);
    assert Failures([(t, depth)], opts) == OwnReports(t, depth, opts);
  }

  lemma {:induction false} ReportsFollowJudgedOrderAll(ts: seq<CallTree>, depth: nat, opts: Options)
    ensures ReportsAll(ts, depth, opts) == Failures(JudgedAll(ts, depth), opts)
    decreases ts, 0
  {
    if ts != [] {
      ReportsFollowJudgedOrder(ts[0], depth, opts);
      ReportsFollowJudgedOrderAll(ts[1..], depth, opts);
      FailuresOfConcat(Judged(ts[0], depth), JudgedAll(ts[1..], depth), opts);
    }
  }

  /** A report is issued exactly for a call that the policy rejects at its own describe depth. */
  lemma ReportedExactlyWhenJudgedFails(t: CallTree, depth: nat, opts: Options, r: Report)
    ensures r in Reports(t, depth, opts) <==> exists p :: p in Judged(t, depth) && Check(p.0.callee, p.0.args, p.1, opts) == Fail(r)
  {
    ReportsFollowJudgedOrder(t, depth, opts);
    InFailures(Judged(t, depth), opts, r);
  }

  /**
   * The reports of a file are, in order, those of its calls judged in
   * pre-order from outside every describe; a report is issued exactly for a
   * call that the policy rejects at the number of describe declarations
   * enclosing it.
   */
  lemma FileReportsAreJudgedFailures(calls: seq<CallTree>, opts: Options)
    ensures FileReports(calls, opts) == Failures(JudgedAll(calls, 0), opts)
    ensures forall r :: r in FileReports(calls, opts) <==>
      exists p :: p in JudgedAll(calls, 0) && Check(p.0.callee, p.0.args, p.1, opts) == Fail(r)
  {
    ReportsFollowJudgedOrderAll(calls, 0, opts);
    ReportedExactlyWhenJudgedFailsAll(calls, 0, opts);
  }

  lemma ReportedExactlyWhenJudgedFailsAll(ts: seq<CallTree>, depth: nat, opts: Options)
    ensures forall r :: r in ReportsAll(ts, depth, opts) <==> exists p :: p in JudgedAll(ts, depth) && Check(p.0.callee, p.0.args, p.1, opts) == Fail(r)
  {
    ReportsFollowJudgedOrderAll(ts, depth, opts);
    forall r ensures r in ReportsAll(ts, depth, opts) <==> exists p :: p in JudgedAll(ts, depth) && Check(p.0.callee, p.0.args, p.1, opts) == Fail(r) {
      InFailures(JudgedAll(ts, depth), opts, r);
    }
  }

  /** Without `ignoreTopLevelDescribe`, the describe depth has no influence on any report. */
  lemma {:induction false} DepthIrrelevantWithoutTopLevelExemption(t: CallTree, d1: nat, d2: nat, opts: Options)
    requires !opts.ignoreTopLevelDescribe
    ensures Reports(t, d1, opts) == Reports(t, d2, opts)
    decreases t, 1
  {
    DepthIrrelevantWithoutTopLevelExemptionAll(t.nested, InnerDepth(t, d1), InnerDepth(t, d2), opts);
  }

  lemma {:induction false} DepthIrrelevantWithoutTopLevelExemptionAll(ts: seq<CallTree>, d1: nat, d2: nat, opts: Options)
    requires !opts.ignoreTopLevelDescribe
    ensures ReportsAll(ts, d1, opts) == ReportsAll(ts, d2, opts)
    decreases ts, 0
  {
    if ts != [] {
      DepthIrrelevantWithoutTopLevelExemption(ts[0], d1, d2, opts);
      DepthIrrelevantWithoutTopLevelExemptionAll(ts[1..], d1, d2, opts);
    }
  }

  /** Inside at least one describe, `ignoreTopLevelDescribe` changes no report. */
  lemma {:induction false} NestedCallsIgnoreTopLevelFlag(t: CallTree, depth: nat, opts: Options)
    requires depth > 0
    ensures Reports(t, depth, opts.(ignoreTopLevelDescribe := true)) == Reports(t, depth, opts.(ignoreTopLevelDescribe := false))
    decreases t, 1
  {
    TopLevelDescribeExemption(t.callee, t.args, depth, opts);
    NestedCallsIgnoreTopLevelFlagAll(t.nested, InnerDepth(t, depth), opts);
  }

  lemma {:induction false} NestedCallsIgnoreTopLevelFlagAll(ts: seq<CallTree>, depth: nat, opts: Options)
    requires depth > 0
    ensures ReportsAll(ts, depth, opts.(ignoreTopLevelDescribe := true)) == ReportsAll(ts, depth, opts.(ignoreTopLevelDescribe := false))
    decreases ts, 0
  {
    if ts != [] {
      NestedCallsIgnoreTopLevelFlag(ts[0], depth, opts);
      NestedCallsIgnoreTopLevelFlagAll(ts[1..], depth, opts);
    }
  }

  /**
   * With `ignoreTopLevelDescribe`, a top-level describe loses its own report
   * and nothing else: everything nested in it is reported as without the option.
   */
  lemma TopLevelDescribeLosesOnlyItsOwnReport(t: CallTree, opts: Options)
    requires Declaration(t.callee) == Some(Describe)
    ensures Reports(t, 0, opts.(ignoreTopLevelDescribe := true)) ==
      ReportsAll(t.nested, 1, opts.(ignoreTopLevelDescribe := false))
    ensures Reports(t, 0, opts.(ignoreTopLevelDescribe := false)) ==
      OwnReports(t, 0, opts.(ignoreTopLevelDescribe := false)) + ReportsAll(t.nested, 1, opts.(ignoreTopLevelDescribe := false))
  {
    TopLevelDescribeExemption(t.callee, t.args, 0, opts);
    NestedCallsIgnoreTopLevelFlagAll(t.nested, 1, opts);
  }

  /** Every fix in `rs` replaces one character by one character inside `code`. */
  predicate SingleCharacterFixesIn(code: string, rs: seq<Report>) {
    forall i :: 0 <= i < |rs| ==> rs[i].fix.start < rs[i].fix.stop == rs[i].fix.start + 1 <= |code| && |rs[i].fix.text| == 1
  }

  /** The text after applying each report's fix in turn (the fixes never change the length). */
  function ApplyFixes(code: string, rs: seq<Report>): (r: string)
    requires SingleCharacterFixesIn(code, rs)
    ensures |r| == |code|
    decreases |rs|
  {
    if rs == [] then code
    else ApplyFixes(ApplyEdit(code, rs[0].fix), rs[1..])
  }

  /**
   * What applying the fixes changes: an offset no fix starts at keeps its
   * character, and an offset holds the replacement of the last fix that
   * starts there.
   */
  lemma {:induction false} ApplyFixesContents(code: string, rs: seq<Report>)
    requires SingleCharacterFixesIn(code, rs)
    ensures forall i :: 0 <= i < |code| && (forall k :: 0 <= k < |rs| ==> rs[k].fix.start != i) ==>
      ApplyFixes(code, rs)[i] == code[i]
    ensures forall k :: 0 <= k < |rs| && (forall j :: k < j < |rs| ==> rs[j].fix.start != rs[k].fix.start) ==>
      ApplyFixes(code, rs)[rs[k].fix.start] == rs[k].fix.text[0]
    decreases |rs|
  {
    if rs != [] {
      var once := ApplyEdit(code, rs[0].fix);
      assert forall i :: 0 <= i < |code| && i != rs[0].fix.start ==> once[i] == code[i];
      assert once[rs[0].fix.start] == rs[0].fix.text[0];
      ApplyFixesContents(once, rs[1..]);
    }
  }
}
