/** The token data model of the make_lang front end: the kinds of token a
    lexer produces, the literal payload a token may carry, the flat binary
    expression, the conversion from a bare kind to a token with a default
    payload, and the diagnostic rendering of a token. */
module Types {
  import Decimal

  datatype Option<T> = None | Some(value: T)

  /** Declared for a scope checker that is not part of this model; nothing
      here constructs or inspects it. */
  datatype Error = ConsistentScopeError(message: string)

  /** The kind of a token; only BINOP carries something, its operator. */
  datatype TokenType =
    | PRINT
    | STRING
    | FUNCTION
    | RPAREN
    | LPAREN
    | RETURN
    | NULL
    | NUMBER
    | BINOP(op: InfixOperation)

  /** The allowed binary, infix operations. */
  datatype InfixOperation = Addition | Subtraction | Multiplication | Division

  /** `usize` and `isize`, taken to be 64 bits wide. */
  const USIZE_LIMIT: int := 0x1_0000_0000_0000_0000
  const ISIZE_LIMIT: int := 0x8000_0000_0000_0000
  type Usize = n: int | 0 <= n < USIZE_LIMIT
  type Isize = i: int | -ISIZE_LIMIT <= i < ISIZE_LIMIT

  /** A lexed integer literal, exactly unsigned or exactly signed. */
  datatype Number = UINT(u: Usize) | IINT(i: Isize)

  /** The data a token carries, depending on its kind. */
  datatype RepData =
    | STRING(text: string)
    | NUMBER(num: Number)
    | TWONUMBER(first: Number, second: Number)

  /** A token generated by the lexer. */
  datatype Token = Token(kind: TokenType, value: Option<RepData>)

  /** A flat binary expression: two literal operands around an operator. */
  datatype Expr = Expr(lhs: RepData, op: InfixOperation, rhs: RepData)

  /** `Token::from`: the kind is kept; PRINT and STRING get an empty text as
      their default payload, every other kind gets no payload. */
  function FromKind(k: TokenType): (t: Token)
    ensures t.kind == k
    ensures t.value.Some? <==> (k == PRINT || k == TokenType.STRING)
    ensures t.value.Some? ==> t.value.value == RepData.STRING("")
  {
    var defaultValue := match k {
      case PRINT => Some(RepData.STRING(""))
      case STRING => Some(RepData.STRING(""))
      case _ => None
    };
    Token(k, defaultValue)
  }

  /** How Rust's `Debug` escapes one character of a `String` (quotes,
      backslashes, control and non-printable characters). That table belongs
      to the standard library and is not part of this model, so it is a
      parameter of every rendering that prints text. */
  type CharEscape = char -> string

  /** The escaped contents of a `String`: each character escaped in turn. */
  function EscapeDebug(esc: CharEscape, s: string): (r: string)
    decreases |s|
  {
    if s == [] then [] else esc(s[0]) + EscapeDebug(esc, s[1..])
  }

  /** `{:?}` of a `usize`: its decimal numeral. */
  function DebugUsize(n: Usize): (r: string)
    ensures |r| >= 1 && Decimal.AllDigits(r)
    ensures Decimal.ToNat(r) == n && (r[0] == '0' <==> n == 0)
    ensures n == 0 ==> r == "0"
  {
    Decimal.ToNatFromNat(n);
    Decimal.FromNat(n)
  }

  /** `{:?}` of an `isize`: a minus sign before negative values, then the
      decimal numeral of the magnitude. */
  function DebugIsize(i: Isize): (r: string)
    ensures |r| >= 1 && (r[0] == '-' <==> i < 0)
    ensures ',' !in r
    ensures var digits := if i < 0 then r[1..] else r;
      Decimal.AllDigits(digits) && Decimal.ToNat(digits) == if i < 0 then -(i as int) else i as int
    ensures var digits := if i < 0 then r[1..] else r;
      |digits| >= 1 && (digits[0] == '0' <==> i == 0)
    ensures i == 0 ==> r == "0"
  {
    Decimal.ToNatFromNat(if i < 0 then -(i as int) else i as int);
    assert i < 0 ==> ("-" + Decimal.FromNat(-(i as int)))[1..] == Decimal.FromNat(-(i as int));
    if i < 0 then "-" + Decimal.FromNat(-(i as int)) else Decimal.FromNat(i)
  }

  /** Derived `Debug` of `Number`. */
  function DebugNumber(n: Number): (r: string)
    ensures ',' !in r
  {
    match n
    case UINT(u) => "UINT(" + DebugUsize(u) + ")"
    case IINT(i) => "IINT(" + DebugIsize(i) + ")"
  }

  /** Derived `Debug` of `RepData`; a `String` field is quoted and escaped,
      tuple fields are separated by ", ". */
  function DebugRepData(esc: CharEscape, d: RepData): (r: string) {
    match d
    case STRING(s) => "STRING(\"" + EscapeDebug(esc, s) + "\")"
    case NUMBER(n) => "NUMBER(" + DebugNumber(n) + ")"
    case TWONUMBER(a, b) => "TWONUMBER(" + (DebugNumber(a) + ", " + DebugNumber(b)) + ")"
  }

  /** `{:?}` of an `Option<RepData>`. */
  function DebugOpt(esc: CharEscape, v: Option<RepData>): (r: string) {
    match v
    case None => "None"
    case Some(d) => "Some(" + DebugRepData(esc, d) + ")"
  }

  /** Derived `Debug` of `InfixOperation`: the variant name. */
  function DebugOp(op: InfixOperation): (r: string) {
    match op
    case Addition => "Addition"
    case Subtraction => "Subtraction"
    case Multiplication => "Multiplication"
    case Division => "Division"
  }

  /** The kinds that `Token::as_string` renders by a fixed name, whatever
      the payload. */
  predicate IsNamedKind(k: TokenType) {
    k in {PRINT, FUNCTION, RPAREN, LPAREN, NULL}
  }

  /** `Token::as_string`: a fixed name for PRINT, FUNCTION, RPAREN, LPAREN
      and NULL; the payload alone for STRING and RETURN; the payload inside
      `NUMBER(...)` for NUMBER; the operator's name for BINOP. */
  function AsString(t: Token, esc: CharEscape): (r: string)
  {
    match t.kind
    case PRINT => "PRINT"
    case STRING => DebugOpt(esc, t.value)
    case FUNCTION => "FUNCTION"
    case RPAREN => "RPAREN"
    case LPAREN => "LPAREN"
    case RETURN => DebugOpt(esc, t.value)
    case NULL => "NULL"
    case BINOP(op) => DebugOp(op)
    case NUMBER => "NUMBER(" + DebugOpt(esc, t.value) + ")"
  }
}
