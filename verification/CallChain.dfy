/**
 * Recognition of test and describe declarations from the shape of a call's
 * callee: a base identifier followed by member accesses written with a dot,
 * with a bracketed string key, with a bracketed template key, or with a key
 * that cannot be known statically.
 */
module CallChain {
  import opened Wrappers

  /** One member access of a callee, in source order. */
  datatype Segment =
    | Dot(name: string)          // test.skip
    | StringKey(key: string)     // test["skip"] or test['skip']
    | TemplateKey(key: string)   // test[`skip`], a template without interpolation
    | DynamicKey                 // test[name], test[`${x}`]: not known statically

  /** A callee such as `test.describe['serial'].only`: base `test`, three segments. */
  datatype Callee = Callee(base: string, members: seq<Segment>)

  /**
   * The property name a segment statically denotes: a dot name, a string key
   * or a template key denotes its text, a dynamic key denotes nothing.
   */
  function StaticName(s: Segment): (r: Option<string>)
    ensures r.None? <==> s.DynamicKey?
    ensures s.Dot? ==> r == Some(s.name)
    ensures s.StringKey? || s.TemplateKey? ==> r == Some(s.key)
  {
    match s
    case Dot(n) => Some(n)
    case StringKey(k) => Some(k)
    case TemplateKey(k) => Some(k)
    case DynamicKey => None
  }

  /** The names of the segments in order, or None when one of them is dynamic. */
  function ResolveMembers(ms: seq<Segment>): (r: Option<seq<string>>)
    ensures r.Some? <==> forall i :: 0 <= i < |ms| ==> StaticName(ms[i]).Some?
    ensures r.Some? ==> |r.value| == |ms|
    ensures r.Some? ==> forall i :: 0 <= i < |ms| ==> StaticName(ms[i]) == Some(r.value[i])
  {
    if ms == [] then Some([])
    else
      match StaticName(ms[0])
      case None => None
      case Some(n) =>
        match ResolveMembers(ms[1..])
        case None => None
        case Some(rest) => Some([n] + rest)
  }

  /** The token sequence of a callee: the base, then each segment's name. */
  function Resolve(c: Callee): (r: Option<seq<string>>)
    ensures r.Some? <==> forall i :: 0 <= i < |c.members| ==> !c.members[i].DynamicKey?
    ensures r.Some? ==> |r.value| == |c.members| + 1 && r.value[0] == c.base
    ensures r.Some? ==> forall i :: 0 <= i < |c.members| ==> StaticName(c.members[i]) == Some(r.value[i + 1])
  {
    match ResolveMembers(c.members)
    case None => None
    case Some(names) => Some([c.base] + names)
  }

  /** The two kinds of declaration the rule checks. */
  datatype Kind = Test | Describe

  const TestBase: string := "test"
  const DescribeToken: string := "describe"
  const Modifiers: set<string> := {"skip", "only", "fixme", "parallel", "serial"}

  /** States of the recognizer that reads the tokens after the base. */
  datatype MatchState = Plain | InDescribe | Rejected

  /** One step: modifiers keep the state, a first `describe` moves to InDescribe, anything else rejects. */
  function Step(st: MatchState, token: string): (r: MatchState)
    ensures st == Rejected ==> r == Rejected
    ensures r != Rejected ==> AllowedAfterBase(token)
    ensures token in Modifiers && st != Rejected ==> r == st
    ensures token == DescribeToken ==> r == if st == Plain then InDescribe else Rejected
  {
    DescribeIsNoModifier();
    if st == Rejected then Rejected
    else if token in Modifiers then st
    else if token == DescribeToken && st == Plain then InDescribe
    else Rejected
  }

  /**
   * The state after reading `tokens` from `st`: rejection is final, and the
   * describe state is reached only through a `describe`. That a surviving
   * chain holds only allowed tokens is RunSurvivorsAllowed.
   */
  function Run(st: MatchState, tokens: seq<string>): (r: MatchState)
    ensures st == Rejected ==> r == Rejected
    ensures r == InDescribe ==> st == InDescribe || DescribeToken in tokens
    decreases |tokens|
  {
    if tokens == [] then st
    else
      assert forall t :: t in tokens <==> t == tokens[0] || t in tokens[1..];
      Run(Step(st, tokens[0]), tokens[1..])
  }

  /** The kind of declaration a token sequence denotes, or None for an ordinary call. */
  function Classify(tokens: seq<string>): (r: Option<Kind>)
    ensures r.Some? ==> |tokens| > 0 && tokens[0] == TestBase
    ensures r == Some(Describe) ==> DescribeToken in tokens[1..]
  {
    if |tokens| == 0 || tokens[0] != TestBase then None
    else
      match Run(Plain, tokens[1..])
      case Plain => Some(Test)
      case InDescribe => Some(Describe)
      case Rejected => None
  }

  /**
   * The kind of declaration a callee denotes; None for ordinary calls and
   * dynamic keys: a declaration has base `test` and only static keys.
   */
  function Declaration(c: Callee): (r: Option<Kind>)
    ensures r.Some? ==> c.base == TestBase && Resolve(c).Some?
  {
    match Resolve(c)
    case None => None
    case Some(tokens) => Classify(tokens)
  }

  /** The canonical method name: modifiers stripped, `describe` kept. */
  function MethodName(k: Kind): (name: string)
    ensures name == TestBase || name == TestBase + "." + DescribeToken
    ensures (name == TestBase) <==> k == Test
  {
    match k
    case Test => "test"
    case Describe => "test.describe"
  }

  // ---------------------------------------------------------------------
  // Reference definition of a declaration chain, and its agreement with
  // the recognizer.
  // ---------------------------------------------------------------------

  predicate AllowedAfterBase(t: string) {
    t in Modifiers || t == DescribeToken
  }

  /** `test`, then only modifiers and `describe`, with `describe` at most once. */
  ghost predicate IsDeclarationChain(tokens: seq<string>) {
    && |tokens| > 0
    && tokens[0] == TestBase
    && (forall t | t in tokens[1..] :: AllowedAfterBase(t))
    && multiset(tokens[1..])[DescribeToken] <= 1
  }

  lemma DescribeIsNoModifier()
    ensures DescribeToken !in Modifiers
  {
    assert DescribeToken[0] == 'd';
    assert "parallel"[0] == 'p';
  }

  lemma {:induction false} RunFromDescribe(tokens: seq<string>)
    ensures Run(InDescribe, tokens) == if forall t | t in tokens :: t in Modifiers then InDescribe else Rejected
    decreases |tokens|
  {
    if tokens != [] {
      var rest := tokens[1..];
      assert tokens == [tokens[0]] + rest;
      DescribeIsNoModifier();
      if tokens[0] in Modifiers {
        RunFromDescribe(rest);
      }
    }
  }

  lemma {:induction false} RunFromPlain(tokens: seq<string>)
    ensures Run(Plain, tokens) ==
      if (forall t | t in tokens :: AllowedAfterBase(t)) && multiset(tokens)[DescribeToken] <= 1 then
        (if DescribeToken in tokens then InDescribe else Plain)
      else Rejected
    decreases |tokens|
  {
    if tokens != [] {
      var head, rest := tokens[0], tokens[1..];
      assert tokens == [head] + rest;
      assert multiset(tokens) == multiset{head} + multiset(rest);
      DescribeIsNoModifier();
      if head in Modifiers {
        RunFromPlain(rest);
      } else if head == DescribeToken {
        RunFromDescribe(rest);
        assert multiset(rest)[DescribeToken] == 0 <==> DescribeToken !in rest;
      } else {
        assert head in tokens && !AllowedAfterBase(head);
      }
    }
  }

  /** From any state, a chain the recognizer does not reject holds only modifiers and `describe`. */
  lemma RunSurvivorsAllowed(st: MatchState, tokens: seq<string>)
    ensures Run(st, tokens) != Rejected ==> forall t | t in tokens :: AllowedAfterBase(t)
  {
    if st == Plain {
      RunFromPlain(tokens);
    } else if st == InDescribe {
      RunFromDescribe(tokens);
    }
  }

  /** The recognizer accepts exactly the reference chains, and reports Describe exactly when `describe` occurs. */
  lemma ClassifyMatchesReference(tokens: seq<string>)
    ensures Classify(tokens).Some? <==> IsDeclarationChain(tokens)
    ensures Classify(tokens) == Some(Describe) <==> IsDeclarationChain(tokens) && DescribeToken in tokens[1..]
    ensures Classify(tokens) == Some(Test) <==> IsDeclarationChain(tokens) && DescribeToken !in tokens[1..]
  {
    if |tokens| > 0 && tokens[0] == TestBase {
      RunFromPlain(tokens[1..]);
    }
  }

  /**
   * A callee is a declaration exactly when its tokens form a reference chain,
   * and a describe declaration exactly when that chain holds `describe`.
   */
  lemma DeclarationMatchesReference(c: Callee)
    ensures Declaration(c).Some? <==> Resolve(c).Some? && IsDeclarationChain(Resolve(c).value)
    ensures Declaration(c) == Some(Describe) <==>
      Resolve(c).Some? && IsDeclarationChain(Resolve(c).value) && DescribeToken in Resolve(c).value[1..]
  {
    if Resolve(c).Some? {
      ClassifyMatchesReference(Resolve(c).value);
    }
  }

  /** Reordering the tokens after the base never changes the classification. */
  lemma ClassifyIgnoresOrder(base: string, a: seq<string>, b: seq<string>)
    requires multiset(a) == multiset(b)
    ensures Classify([base] + a) == Classify([base] + b)
  {
    ClassifyMatchesReference([base] + a);
    ClassifyMatchesReference([base] + b);
    assert ([base] + a)[1..] == a;
    assert ([base] + b)[1..] == b;
    assert forall t :: t in a <==> t in b by {
      forall t ensures t in a <==> t in b {
        assert t in a <==> t in multiset(a);
        assert t in b <==> t in multiset(b);
      }
    }
  }

  /** Inserting a modifier anywhere after the base never changes the classification. */
  lemma ClassifyIgnoresInsertedModifier(tokens: seq<string>, i: nat, m: string)
    requires 1 <= i <= |tokens|
    requires m in Modifiers
    ensures Classify(tokens[..i] + [m] + tokens[i..]) == Classify(tokens)
  {
    var longer := tokens[..i] + [m] + tokens[i..];
    ClassifyMatchesReference(tokens);
    ClassifyMatchesReference(longer);
    DescribeIsNoModifier();
    assert tokens == tokens[..i] + tokens[i..];
    assert longer[1..] == tokens[1..i] + [m] + tokens[i..];
    assert tokens[1..] == tokens[1..i] + tokens[i..];
    assert multiset(longer[1..]) == multiset(tokens[1..]) + multiset{m};
    assert forall t :: t in longer[1..] <==> t in tokens[1..] || t == m;
  }

  /** Two callees whose segments denote the same names, in the same order, are the same declaration. */
  lemma {:induction false} SameNamesSameDeclaration(a: Callee, b: Callee)
    requires a.base == b.base && |a.members| == |b.members|
    requires forall i :: 0 <= i < |a.members| ==> StaticName(a.members[i]) == StaticName(b.members[i])
    ensures Resolve(a) == Resolve(b)
    ensures Declaration(a) == Declaration(b)
  {
    var ra, rb := Resolve(a), Resolve(b);
    if ra.Some? {
      assert rb.Some?;
      assert |ra.value| == |rb.value|;
      forall k | 0 <= k < |ra.value| ensures ra.value[k] == rb.value[k] {
        if k > 0 {
          assert StaticName(a.members[k - 1]) == Some(ra.value[k]);
        }
      }
      assert ra.value == rb.value;
    }
  }

  /** Writing a dot access as a bracket access with a string or template key changes nothing. */
  lemma BracketKeyActsAsDot(base: string, before: seq<Segment>, name: string, after: seq<Segment>)
    ensures Declaration(Callee(base, before + [StringKey(name)] + after)) == Declaration(Callee(base, before + [Dot(name)] + after))
    ensures Declaration(Callee(base, before + [TemplateKey(name)] + after)) == Declaration(Callee(base, before + [Dot(name)] + after))
  {
    var dotted := before + [Dot(name)] + after;
    var stringKeyed := before + [StringKey(name)] + after;
    var templateKeyed := before + [TemplateKey(name)] + after;
    assert forall i :: 0 <= i < |dotted| ==> StaticName(stringKeyed[i]) == StaticName(dotted[i]);
    assert forall i :: 0 <= i < |dotted| ==> StaticName(templateKeyed[i]) == StaticName(dotted[i]);
    SameNamesSameDeclaration(Callee(base, stringKeyed), Callee(base, dotted));
    SameNamesSameDeclaration(Callee(base, templateKeyed), Callee(base, dotted));
  }

  /** A call whose base is not `test` is never a declaration. */
  lemma OtherBaseIsNoDeclaration(c: Callee)
    requires c.base != TestBase
    ensures Declaration(c) == None
  {
  }

  /** A dynamic key anywhere in the chain makes the call an ordinary one. */
  lemma DynamicKeyIsNoDeclaration(c: Callee, i: nat)
    requires i < |c.members| && c.members[i] == DynamicKey
    ensures Declaration(c) == None
  {
  }

  /**
   * Canonical names: `test` and its skip/only/fixme forms name "test"; a chain
   * of `describe` and any modifiers names "test.describe".
   */
  lemma CanonicalNames(tokens: seq<string>)
    requires |tokens| > 0 && tokens[0] == TestBase
    requires forall t | t in tokens[1..] :: AllowedAfterBase(t)
    requires multiset(tokens[1..])[DescribeToken] <= 1
    ensures Classify(tokens).Some?
    ensures MethodName(Classify(tokens).value) == if DescribeToken in tokens[1..] then "test.describe" else "test"
  {
    ClassifyMatchesReference(tokens);
  }
}
