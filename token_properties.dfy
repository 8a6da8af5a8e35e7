/** Properties of the token model: the default-payload table of
    `Token::from`, the per-kind rules of `Token::as_string`, and exactly what
    information a rendering keeps. */
module TokenProperties {
  import Decimal
  import opened Types

  // ---------------------------------------------------------------------
  // Token::from

  /** The default token of each kind, written out: an empty text for PRINT
      and STRING, no payload for the seven other kinds and for BINOP with any
      operator. */
  lemma FromKindTable(op: InfixOperation)
    ensures FromKind(PRINT) == Token(PRINT, Some(RepData.STRING("")))
    ensures FromKind(TokenType.STRING) == Token(TokenType.STRING, Some(RepData.STRING("")))
    ensures FromKind(FUNCTION) == Token(FUNCTION, None)
    ensures FromKind(RPAREN) == Token(RPAREN, None)
    ensures FromKind(LPAREN) == Token(LPAREN, None)
    ensures FromKind(RETURN) == Token(RETURN, None)
    ensures FromKind(NULL) == Token(NULL, None)
    ensures FromKind(TokenType.NUMBER) == Token(TokenType.NUMBER, None)
    ensures FromKind(BINOP(op)) == Token(BINOP(op), None)
  {
  }

  /** The unit test `check_token_into`. */
  lemma CheckTokenInto()
    ensures FromKind(LPAREN) == Token(LPAREN, None)
    ensures FromKind(TokenType.STRING) == Token(TokenType.STRING, Some(RepData.STRING("")))
  {
  }

  // ---------------------------------------------------------------------
  // Token::as_string, kind by kind

  /** PRINT, FUNCTION, RPAREN, LPAREN and NULL render as their own names,
      whatever the payload; each parenthesis renders its own name. */
  lemma NamedKindsRenderTheirName(v: Option<RepData>, esc: CharEscape)
    ensures AsString(Token(PRINT, v), esc) == "PRINT"
    ensures AsString(Token(FUNCTION, v), esc) == "FUNCTION"
    ensures AsString(Token(RPAREN, v), esc) == "RPAREN"
    ensures AsString(Token(LPAREN, v), esc) == "LPAREN"
    ensures AsString(Token(NULL, v), esc) == "NULL"
  {
  }

  /** STRING and RETURN render the payload alone, so the two kinds cannot be
      told apart by their renderings. */
  lemma PayloadKindsRenderPayload(v: Option<RepData>, esc: CharEscape)
    ensures AsString(Token(TokenType.STRING, v), esc) == DebugOpt(esc, v)
    ensures AsString(Token(RETURN, v), esc) == DebugOpt(esc, v)
  {
  }

  /** NUMBER renders its payload inside `NUMBER(...)`. */
  lemma NumberRendersWrappedPayload(v: Option<RepData>, esc: CharEscape)
    ensures AsString(Token(TokenType.NUMBER, v), esc) == "NUMBER(" + DebugOpt(esc, v) + ")"
  {
  }

  /** BINOP renders the operator's variant name, whatever the payload. */
  lemma BinopRendersOperator(v: Option<RepData>, esc: CharEscape)
    ensures AsString(Token(BINOP(Addition), v), esc) == "Addition"
    ensures AsString(Token(BINOP(Subtraction), v), esc) == "Subtraction"
    ensures AsString(Token(BINOP(Multiplication), v), esc) == "Multiplication"
    ensures AsString(Token(BINOP(Division), v), esc) == "Division"
  {
  }

  /** Renderings of default tokens; none depends on how text is escaped. */
  lemma DefaultRenderings(esc: CharEscape)
    ensures AsString(FromKind(TokenType.NUMBER), esc) == "NUMBER(None)"
    ensures AsString(FromKind(TokenType.STRING), esc) == "Some(STRING(\"\"))"
    ensures AsString(FromKind(RETURN), esc) == "None"
    ensures AsString(FromKind(PRINT), esc) == "PRINT"
  {
  }

  /** Numbers render as their variant name around their decimal value. */
  lemma NumberDebugExamples()
    ensures DebugNumber(UINT(42)) == "UINT(42)"
    ensures DebugNumber(UINT(1)) == "UINT(1)"
    ensures DebugNumber(IINT(-2)) == "IINT(-2)"
  {
    assert Decimal.FromNat(42) == Decimal.FromNat(4) + "2";
  }

  lemma PayloadDebugExample(esc: CharEscape)
    ensures DebugOpt(esc, Some(RepData.NUMBER(UINT(42)))) == "Some(NUMBER(UINT(42)))"
  {
    NumberDebugExamples();
  }

  /** A NUMBER token carrying an unsigned number. */
  lemma UnsignedNumberExample(esc: CharEscape)
    ensures AsString(Token(TokenType.NUMBER, Some(RepData.NUMBER(UINT(42)))), esc)
            == "NUMBER(Some(NUMBER(UINT(42))))"
  {
    PayloadDebugExample(esc);
  }

  /** A pair of numbers, the second negative: fields separated by ", ". */
  lemma NumberPairExample(esc: CharEscape)
    ensures DebugRepData(esc, TWONUMBER(UINT(1), IINT(-2))) == "TWONUMBER(UINT(1), IINT(-2))"
  {
    NumberDebugExamples();
  }

  // ---------------------------------------------------------------------
  // The Debug renderings lose nothing

  /** An escape under which different texts escape differently. */
  ghost predicate EscapeInjective(esc: CharEscape) {
    forall s, t :: EscapeDebug(esc, s) == EscapeDebug(esc, t) ==> s == t
  }

  /** An escape of Rust's kind, for showing the hypothesis can be met: a
      backslash goes before `"` and before `\`, every other character stays
      as it is. */
  function QuoteEscape(c: char): (r: string)
    ensures |r| >= 1
  {
    if c == '"' || c == '\\' then ['\\', c] else [c]
  }

  /** Reads a text escaped by `QuoteEscape` back: a backslash keeps the
      character after it. */
  function QuoteUnescape(r: string): (s: string)
    decreases |r|
  {
    if r == [] then []
    else if r[0] == '\\' && |r| >= 2 then [r[1]] + QuoteUnescape(r[2..])
    else [r[0]] + QuoteUnescape(r[1..])
  }

  lemma {:induction false} QuoteUnescapeEscape(s: string)
    ensures QuoteUnescape(EscapeDebug(QuoteEscape, s)) == s
    decreases |s|
  {
    if s != [] {
      var head := QuoteEscape(s[0]);
      var rest := EscapeDebug(QuoteEscape, s[1..]);
      var r := head + rest;
      assert EscapeDebug(QuoteEscape, s) == r;
      if |head| == 2 {
        assert r[2..] == rest;
      } else {
        assert r[1..] == rest;
      }
      QuoteUnescapeEscape(s[1..]);
    }
  }

  /** The hypothesis can be met by an escape that quotes as Rust does. */
  lemma QuoteEscapeInjective()
    ensures EscapeInjective(QuoteEscape)
  {
    forall s: string, t: string | EscapeDebug(QuoteEscape, s) == EscapeDebug(QuoteEscape, t)
      ensures s == t
    {
      QuoteUnescapeEscape(s);
      QuoteUnescapeEscape(t);
    }
  }

  lemma StripAffixes(p: string, a: string, b: string, q: string)
    requires p + a + q == p + b + q
    ensures a == b
  {
    var s := p + a + q;
    assert |a| == |b|;
    assert a == s[|p|..|p| + |a|];
    assert b == s[|p|..|p| + |b|];
  }

  /** In a comma-free head followed by ", ", the first comma ends the head. */
  lemma FirstComma(a: string, b: string)
    requires ',' !in a
    ensures (a + ", " + b)[|a|] == ','
    ensures forall k :: 0 <= k < |a| ==> (a + ", " + b)[k] != ','
  {
  }

  /** Two comma-free heads followed by ", " split a string the same way. */
  lemma SplitAtComma(a: string, b: string, c: string, d: string)
    requires ',' !in a && ',' !in c
    requires a + ", " + b == c + ", " + d
    ensures a == c && b == d
  {
    var s := a + ", " + b;
    FirstComma(a, b);
    FirstComma(c, d);
    assert |a| == |c|;
    assert a == s[..|a|];
    assert c == s[..|c|];
    assert b == s[|a| + 2..];
    assert d == s[|c| + 2..];
  }

  lemma DebugIsizeInjective(i: Isize, j: Isize)
    requires DebugIsize(i) == DebugIsize(j)
    ensures i == j
  {
    if i < 0 && j < 0 {
      StripAffixes("-", Decimal.FromNat(-(i as int)), Decimal.FromNat(-(j as int)), "");
      Decimal.FromNatInjective(-(i as int), -(j as int));
    } else if i >= 0 && j >= 0 {
      Decimal.FromNatInjective(i, j);
    }
  }

  lemma HeadOfDebugNumber(n: Number)
    ensures |DebugNumber(n)| > 0 && DebugNumber(n)[0] == if n.UINT? then 'U' else 'I'
  {
  }

  /** Different numbers are rendered differently. */
  lemma DebugNumberInjective(m: Number, n: Number)
    requires DebugNumber(m) == DebugNumber(n)
    ensures m == n
  {
    HeadOfDebugNumber(m);
    HeadOfDebugNumber(n);
    match (m, n)
    case (UINT(a), UINT(b)) =>
      StripAffixes("UINT(", DebugUsize(a), DebugUsize(b), ")");
      Decimal.FromNatInjective(a, b);
    case (IINT(a), IINT(b)) =>
      StripAffixes("IINT(", DebugIsize(a), DebugIsize(b), ")");
      DebugIsizeInjective(a, b);
    case _ =>
  }

  lemma HeadOfDebugRepData(esc: CharEscape, d: RepData)
    ensures |DebugRepData(esc, d)| > 0
    ensures DebugRepData(esc, d)[0] == match d
      case STRING(_) => 'S'
      case NUMBER(_) => 'N'
      case TWONUMBER(_, _) => 'T'
  {
  }

  lemma DebugNumberPairInjective(esc: CharEscape, a1: Number, a2: Number, b1: Number, b2: Number)
    requires DebugRepData(esc, TWONUMBER(a1, a2)) == DebugRepData(esc, TWONUMBER(b1, b2))
    ensures a1 == b1 && a2 == b2
  {
    var x := DebugNumber(a1) + ", " + DebugNumber(a2);
    var y := DebugNumber(b1) + ", " + DebugNumber(b2);
    StripAffixes("TWONUMBER(", x, y, ")");
    SplitAtComma(DebugNumber(a1), DebugNumber(a2), DebugNumber(b1), DebugNumber(b2));
    DebugNumberInjective(a1, b1);
    DebugNumberInjective(a2, b2);
  }

  /** Different payloads are rendered differently. */
  lemma DebugRepDataInjective(esc: CharEscape, d: RepData, e: RepData)
    requires EscapeInjective(esc)
    requires DebugRepData(esc, d) == DebugRepData(esc, e)
    ensures d == e
  {
    HeadOfDebugRepData(esc, d);
    HeadOfDebugRepData(esc, e);
    match (d, e)
    case (STRING(s), STRING(t)) =>
      StripAffixes("STRING(\"", EscapeDebug(esc, s), EscapeDebug(esc, t), "\")");
    case (NUMBER(a), NUMBER(b)) =>
      StripAffixes("NUMBER(", DebugNumber(a), DebugNumber(b), ")");
      DebugNumberInjective(a, b);
    case (TWONUMBER(a1, a2), TWONUMBER(b1, b2)) =>
      DebugNumberPairInjective(esc, a1, a2, b1, b2);
    case _ =>
  }

  /** Different optional payloads are rendered differently. */
  lemma DebugOptInjective(esc: CharEscape, v: Option<RepData>, w: Option<RepData>)
    requires EscapeInjective(esc)
    ensures DebugOpt(esc, v) == DebugOpt(esc, w) <==> v == w
  {
    if DebugOpt(esc, v) == DebugOpt(esc, w) {
      match (v, w)
      case (Some(d), Some(e)) =>
        StripAffixes("Some(", DebugRepData(esc, d), DebugRepData(esc, e), ")");
        DebugRepDataInjective(esc, d, e);
      case (None, None) =>
      case _ =>
    }
  }

  // ---------------------------------------------------------------------
  // What a rendering keeps

  /** The part of a token that `Token::as_string` shows: the kind alone for
      named kinds, the payload for STRING and RETURN (without saying which),
      the payload marked as a number for NUMBER, the operator for BINOP. */
  datatype Shown =
    | NamedKind(kind: TokenType)
    | Payload(value: Option<RepData>)
    | NumberPayload(value: Option<RepData>)
    | Operator(op: InfixOperation)

  function ShownPart(t: Token): (s: Shown) {
    match t.kind
    case STRING => Payload(t.value)
    case RETURN => Payload(t.value)
    case NUMBER => NumberPayload(t.value)
    case BINOP(op) => Operator(op)
    case _ => NamedKind(t.kind)
  }

  /** The shown parts that tokens have: a named kind is one of the
      kinds rendered by name. */
  predicate Showable(s: Shown) {
    s.NamedKind? ==> IsNamedKind(s.kind)
  }

  /** A proof device, not a second statement of the rendering: `AsString`'s
      table re-keyed by shown part, so that `Lead` and `RenderShownInjective`
      can reason about shown parts. `AsStringFactors` ties it to `AsString`. */
  function RenderShown(s: Shown, esc: CharEscape): (r: string) {
    match s
    case NamedKind(k) =>
      (match k
       case PRINT => "PRINT"
       case FUNCTION => "FUNCTION"
       case RPAREN => "RPAREN"
       case LPAREN => "LPAREN"
       case _ => "NULL")
    case Payload(v) => DebugOpt(esc, v)
    case NumberPayload(v) => "NUMBER(" + DebugOpt(esc, v) + ")"
    case Operator(op) => DebugOp(op)
  }

  /** A rendering depends on the token only through its shown part. */
  lemma AsStringFactors(t: Token, esc: CharEscape)
    ensures Showable(ShownPart(t))
    ensures AsString(t, esc) == RenderShown(ShownPart(t), esc)
  {
  }

  /** The first three characters of each rendering. */
  function Lead(s: Shown): (r: string) {
    match s
    case NamedKind(k) =>
      (match k
       case PRINT => "PRI"
       case FUNCTION => "FUN"
       case RPAREN => "RPA"
       case LPAREN => "LPA"
       case _ => "NUL")
    case Payload(v) => if v.None? then "Non" else "Som"
    case NumberPayload(_) => "NUM"
    case Operator(op) =>
      (match op
       case Addition => "Add"
       case Subtraction => "Sub"
       case Multiplication => "Mul"
       case Division => "Div")
  }

  lemma LeadOfDebugOpt(esc: CharEscape, v: Option<RepData>)
    ensures |DebugOpt(esc, v)| >= 3
    ensures DebugOpt(esc, v)[..3] == if v.None? then "Non" else "Som"
  {
    if v.Some? {
      var r := DebugOpt(esc, v);
      assert r == "Some(" + DebugRepData(esc, v.value) + ")";
      assert r[..3] == "Som";
    }
  }

  lemma LeadOfRenderShown(s: Shown, esc: CharEscape)
    ensures |RenderShown(s, esc)| >= 3 && RenderShown(s, esc)[..3] == Lead(s)
  {
    match s
    case Payload(v) =>
      LeadOfDebugOpt(esc, v);
    case NumberPayload(v) =>
      var r := RenderShown(s, esc);
      assert r == "NUMBER(" + DebugOpt(esc, v) + ")";
      assert r[..3] == "NUM";
    case _ =>
  }

  /** Equal leads mean the same kind of shown part, and the same kind or
      operator where that is all that is shown. */
  lemma LeadSeparates(a: Shown, b: Shown)
    requires Showable(a) && Showable(b)
    requires Lead(a) == Lead(b)
    ensures a.NamedKind? || a.Operator? ==> a == b
    ensures a.Payload? ==> b.Payload? && (a.value.None? <==> b.value.None?)
    ensures a.NumberPayload? ==> b.NumberPayload?
  {
  }

  /** Different shown parts render differently. */
  lemma RenderShownInjective(a: Shown, b: Shown, esc: CharEscape)
    requires EscapeInjective(esc)
    requires Showable(a) && Showable(b)
    requires RenderShown(a, esc) == RenderShown(b, esc)
    ensures a == b
  {
    LeadOfRenderShown(a, esc);
    LeadOfRenderShown(b, esc);
    LeadSeparates(a, b);
    match a
    case Payload(v) =>
      DebugOptInjective(esc, v, b.value);
    case NumberPayload(v) =>
      StripAffixes("NUMBER(", DebugOpt(esc, v), DebugOpt(esc, b.value), ")");
      DebugOptInjective(esc, v, b.value);
    case _ =>
  }

  /** Two tokens render the same exactly when they agree on the shown part:
      the rendering forgets the payload of named kinds and of BINOP and the
      difference between STRING and RETURN, and nothing else. */
  lemma RenderingKeepsShownPart(t: Token, u: Token, esc: CharEscape)
    requires EscapeInjective(esc)
    ensures AsString(t, esc) == AsString(u, esc) <==> ShownPart(t) == ShownPart(u)
  {
    AsStringFactors(t, esc);
    AsStringFactors(u, esc);
    if AsString(t, esc) == AsString(u, esc) {
      RenderShownInjective(ShownPart(t), ShownPart(u), esc);
    }
  }
}
