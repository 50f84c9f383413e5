/**
 * Extraction of a checkable title from the first argument of a declaration
 * call, and where that title sits in the source text.
 */
module Title {
  import opened Wrappers

  /**
   * A call argument with its start offset in the source. A template literal
   * carries its static chunks: one chunk when it has no interpolation, k + 1
   * chunks around k interpolated expressions. Literal text is taken as
   * written (escape sequences are not modelled).
   */
  datatype Argument =
    | StringLiteral(start: nat, quote: char, value: string)
    | TemplateLiteral(start: nat, quasis: seq<string>)
    | NumberLiteral(start: nat, raw: string)
    | OtherExpression(start: nat)

  /** A title the rule can judge: its text and the offset of its first character. */
  datatype CheckableTitle = CheckableTitle(text: string, contentStart: nat)

  /** The statically known text of a string literal or an interpolation-free template. */
  function StaticText(a: Argument): (r: Option<string>)
    ensures r.Some? <==> a.StringLiteral? || (a.TemplateLiteral? && |a.quasis| == 1)
    ensures a.StringLiteral? ==> r == Some(a.value)
    ensures a.TemplateLiteral? && |a.quasis| == 1 ==> r == Some(a.quasis[0])
  {
    match a
    case StringLiteral(_, _, v) => Some(v)
    case TemplateLiteral(_, qs) => if |qs| == 1 then Some(qs[0]) else None
    case NumberLiteral(_, _) => None
    case OtherExpression(_) => None
  }

  /**
   * The title of a call: its first argument's static text, when there is a
   * first argument, it has static text, and that text is not empty.
   */
  function ExtractTitle(args: seq<Argument>): (t: Option<CheckableTitle>)
    ensures t.Some? <==> |args| > 0 && StaticText(args[0]).Some? && StaticText(args[0]).value != ""
    ensures t.Some? ==> Some(t.value.text) == StaticText(args[0]) && |t.value.text| > 0
    ensures t.Some? ==> t.value.contentStart == args[0].start + 1
  {
    if |args| == 0 then None
    else
      match StaticText(args[0])
      case None => None
      case Some(text) => if text == "" then None else Some(CheckableTitle(text, args[0].start + 1))
  }

  /** From offset `pos` on, `code` spells the characters of `v` from its `k`-th on. */
  predicate SpellsFrom(code: string, pos: nat, v: string, k: nat)
    requires k <= |v|
    decreases |v| - k
  {
    && pos + k <= |code|
    && (k == |v| || (pos + k < |code| && code[pos + k] == v[k] && SpellsFrom(code, pos, v, k + 1)))
  }

  lemma {:induction false} SpellsFromIsSlice(code: string, pos: nat, v: string, k: nat)
    requires k <= |v| && SpellsFrom(code, pos, v, k)
    ensures pos + |v| <= |code|
    ensures forall i :: k <= i < |v| ==> code[pos + i] == v[i]
    decreases |v| - k
  {
    if k < |v| {
      SpellsFromIsSlice(code, pos, v, k + 1);
    }
  }

  lemma {:induction false} SliceIsSpellsFrom(code: string, pos: nat, v: string, k: nat)
    requires k <= |v| && pos + |v| <= |code|
    requires forall i :: k <= i < |v| ==> code[pos + i] == v[i]
    ensures SpellsFrom(code, pos, v, k)
    decreases |v| - k
  {
    if k < |v| {
      SliceIsSpellsFrom(code, pos, v, k + 1);
    }
  }

  /** Spelling `v` at offset `pos` is holding `v` as the slice of `code` that starts there. */
  lemma SpellsIsSlice(code: string, pos: nat, v: string)
    ensures SpellsFrom(code, pos, v, 0) <==> pos + |v| <= |code| && code[pos..pos + |v|] == v
  {
    if SpellsFrom(code, pos, v, 0) {
      SpellsFromIsSlice(code, pos, v, 0);
    } else if pos + |v| <= |code| && code[pos..pos + |v|] == v {
      forall i | 0 <= i < |v| ensures code[pos + i] == v[i] {
        assert code[pos..pos + |v|][i] == v[i];
      }
      SliceIsSpellsFrom(code, pos, v, 0);
    }
  }

  /** The source `code` holds argument `a` at its start offset, delimiters included. */
  predicate LiteralIn(code: string, a: Argument) {
    match a
    case StringLiteral(start, q, v) =>
      && (q == '\'' || q == '"')
      && start + |v| + 1 < |code|
      && code[start] == q
      && SpellsFrom(code, start + 1, v, 0)
      && code[start + 1 + |v|] == q
    case TemplateLiteral(start, qs) =>
      && start < |code|
      && code[start] == '`'
      && (|qs| == 1 ==>
            && start + |qs[0]| + 1 < |code|
            && SpellsFrom(code, start + 1, qs[0], 0)
            && code[start + 1 + |qs[0]|] == '`')
    case NumberLiteral(start, raw) =>
      SpellsFrom(code, start, raw, 0)
    case OtherExpression(start) =>
      start < |code|
  }

  /**
   * When the first argument is where the source says it is, the extracted
   * title is the source text right after the opening delimiter.
   */
  lemma TitleLiesInSource(code: string, args: seq<Argument>)
    requires |args| > 0 && LiteralIn(code, args[0])
    requires ExtractTitle(args).Some?
    ensures var t := ExtractTitle(args).value;
      && 1 <= t.contentStart
      && t.contentStart + |t.text| < |code|
      && code[t.contentStart..t.contentStart + |t.text|] == t.text
      && code[t.contentStart - 1] in {'\'', '"', '`'}
      && code[t.contentStart] == t.text[0]
  {
    var t := ExtractTitle(args).value;
    SpellsIsSlice(code, t.contentStart, t.text);
    assert code[t.contentStart..t.contentStart + |t.text|][0] == code[t.contentStart];
  }

  /** The same argument with the first character of its static text replaced by `c`. */
  function WithFirstChar(a: Argument, c: char): (b: Argument)
    requires StaticText(a).Some? && StaticText(a).value != ""
    ensures b.start == a.start
    ensures StaticText(b).Some? && StaticText(b).value == [c] + StaticText(a).value[1..]
  {
    match a
    case StringLiteral(start, q, v) => StringLiteral(start, q, [c] + v[1..])
    case TemplateLiteral(start, qs) => TemplateLiteral(start, [[c] + qs[0][1..]])
  }
}
