# make_lang token model in Dafny

This project models the lexical-token data model of the make_lang scripting
language front end (`src/types.rs`). It covers:

- the closed kinds of token (`TokenType`, nine kinds, with `BINOP` carrying
  an `InfixOperation`);
- the four infix operators;
- the literal payload (`RepData`: a text, a number, or a pair of numbers);
- the number type (`Number`: a 64-bit unsigned `UINT` or signed `IINT`);
- the `Token` record, the flat `Expr` triple and the declared `Error` kind;
- the two operations on them: `Token::from`, which builds a token from a bare
  kind with a default payload, and `Token::as_string`, which renders a token
  for diagnostics.

Files:

- `decimal.dfy` (module `Decimal`): the decimal numeral Rust's `Debug` writes
  for an integer, and its inverse.
- `types.dfy` (module `Types`): the datatypes, `FromKind` (`Token::from`),
  `AsString` (`Token::as_string`) and the derived `Debug` renderings it uses
  (`DebugOpt` for `{:?}` of an `Option<RepData>`, `DebugOp` for an
  operator).
- `token_properties.dfy` (module `TokenProperties`): the lemmas.

The main result is `RenderingKeepsShownPart`. Two tokens render to the same
string exactly when they agree on what the rendering shows:

- the kind, for PRINT, FUNCTION, RPAREN, LPAREN and NULL;
- the payload, for STRING and RETURN, without saying which of the two kinds it was;
- the payload, for NUMBER;
- the operator, for BINOP.

So a rendering drops the payload of named kinds and of BINOP tokens. It also
drops the difference between STRING and RETURN. It drops nothing else. This
rests on the Debug renderings being injective (`DebugOptInjective`), which
in turn rests on decimal numerals being readable back (`ToNatFromNat`).

Each parenthesis renders its own name: RPAREN as `"RPAREN"` and LPAREN as
`"LPAREN"` (src/types.rs:59-60).

## Model

| member | source | states |
|---|---|---|
| Types.FromKind | src/types.rs:69-82 | the kind is kept; a payload is present exactly for PRINT and STRING, and it is then the empty text |
| Types.AsString | src/types.rs:54-66 | no ensures of its own; its contract is stated by `RenderingKeepsShownPart` (equal renderings exactly for equal shown parts) and by the per-kind lemmas `NamedKindsRenderTheirName`, `PayloadKindsRenderPayload`, `NumberRendersWrappedPayload` and `BinopRendersOperator` |
| Types.DebugOpt | src/types.rs:57-64 | no ensures of its own; the `{:?}` of an `Option<RepData>` as used at lines 57, 61 and 64; `DebugOptInjective` states that it is injective given an injective text escape |
| Types.DebugRepData | src/types.rs:39-45 | no ensures of its own; the derived `Debug` of `RepData`; `DebugRepDataInjective` states that it is injective given an injective text escape |
| Types.DebugOp | src/types.rs:31-37 | no ensures of its own; the derived `Debug` of `InfixOperation`, used at line 63; `BinopRendersOperator` gives the four names and the operator case of `RenderShownInjective` shows that they differ |
| Types.EscapeDebug | src/types.rs:42 | no ensures of its own; the escaped contents of the `String` field, each character through the escape parameter; `EscapeInjective` is the hypothesis on it and `QuoteEscapeInjective` shows that an escape meets it |
| TokenProperties.FromKindTable | src/types.rs:71-79 | the default token of each of the nine kinds written out: `Some(STRING(""))` for PRINT and STRING, `None` for FUNCTION, RPAREN, LPAREN, RETURN, NULL, NUMBER and BINOP with any operator |
| TokenProperties.CheckTokenInto | src/types.rs:90-105 | `from(LPAREN)` is `Token{LPAREN, None}` and `from(STRING)` is `Token{STRING, Some(STRING(""))}` |
| TokenProperties.NamedKindsRenderTheirName | src/types.rs:56-62 | PRINT, FUNCTION, RPAREN, LPAREN and NULL render as their own names whatever the payload, each parenthesis as its own name |
| TokenProperties.PayloadKindsRenderPayload | src/types.rs:57-61 | STRING and RETURN both render the `{:?}` form of the payload and nothing of the kind |
| TokenProperties.NumberRendersWrappedPayload | src/types.rs:64 | NUMBER renders as `NUMBER(` + `{:?}` of the payload + `)` |
| TokenProperties.BinopRendersOperator | src/types.rs:63 | BINOP renders the operator's variant name whatever the payload |
| TokenProperties.DefaultRenderings | src/types.rs:54-82 | the default NUMBER token renders `NUMBER(None)`, the default STRING token `Some(STRING(""))`, the default RETURN token `None`, the default PRINT token `PRINT`, whatever the text escape |
| TokenProperties.UnsignedNumberExample | src/types.rs:64 | a NUMBER token carrying `UINT(42)` renders `NUMBER(Some(NUMBER(UINT(42))))` |
| TokenProperties.NumberPairExample | src/types.rs:40-45 | the `{:?}` form of `TWONUMBER(UINT(1), IINT(-2))` is exactly that text, fields separated by `, ` |
| TokenProperties.NumberDebugExamples | src/types.rs:47-51 | `UINT(42)`, `UINT(1)` and `IINT(-2)` render as written, with a minus sign for the negative value |
| TokenProperties.PayloadDebugExample | src/types.rs:39-45 | a payload `Some(NUMBER(UINT(42)))` renders as written |
| TokenProperties.AsStringFactors | src/types.rs:54-66 | a rendering depends on the token only through its shown part (the kind for named kinds, the payload for STRING/RETURN and NUMBER, the operator for BINOP): the "if" direction of `RenderingKeepsShownPart` |
| TokenProperties.RenderShownInjective | src/types.rs:54-66 | different shown parts that tokens can have (`Showable`) render differently, given an injective text escape |
| TokenProperties.RenderingKeepsShownPart | src/types.rs:54-66 | two renderings are equal if and only if the tokens agree on kind (named kinds), payload (STRING/RETURN, NUMBER) or operator (BINOP), given an injective text escape |
| TokenProperties.DebugOptInjective | src/types.rs:39-51 | `{:?}` of an `Option<RepData>` is equal for two payloads if and only if they are equal, given an injective text escape |
| TokenProperties.DebugRepDataInjective | src/types.rs:40-45 | different `RepData` values have different `{:?}` forms, given an injective text escape |
| TokenProperties.DebugNumberInjective | src/types.rs:47-51 | different `Number` values have different `{:?}` forms; `UINT(0)` and `IINT(0)` differ |
| TokenProperties.DebugIsizeInjective | src/types.rs:50 | different `isize` values have different `{:?}` forms |
| TokenProperties.QuoteEscapeInjective | src/types.rs:42 | the injectivity hypothesis on the text escape is met by an escape that puts a backslash before `"` and `\`, as Rust's does |
| Types.DebugUsize | src/types.rs:49 | the `{:?}` form of a `usize` is a non-empty string of decimal digits that reads back as the number, with a leading `0` only for zero, and is `0` for zero |
| Types.DebugIsize | src/types.rs:50 | the `{:?}` form of an `isize` starts with `-` exactly when it is negative, the rest is digits with no leading zero (`0` for zero) that read back as the magnitude, and there is no comma |
| Types.DebugNumber | src/types.rs:47-51 | the `{:?}` form of a `Number` has no comma, so it can stand as a tuple field |
| Decimal.FromNat | src/types.rs:49 | a numeral is non-empty and all digits, starts with `0` only for zero, and is `0` for zero |
| Decimal.ToNatFromNat | src/types.rs:49 | reading back the numeral of `n` gives `n` |
| Decimal.FromNatInjective | src/types.rs:49 | different numbers have different numerals |

## Left out

- Rust's `Debug` escaping of `String` contents (quotes, backslashes, control and non-printable characters) belongs to the standard library. It is the parameter `esc: char -> string`, applied to each character in turn. The lemmas that need it assume it is injective (`EscapeInjective`), and nothing else is assumed about it.
- `DebugOpt`, `DebugRepData` and `AsString` take that escape parameter, where the Rust functions take only the value.
- `usize` and `isize` are fixed at 64 bits (`Usize`, `Isize`). Other platform widths are not modelled.
- `Error::ConsistentScopeError` is declared only, as in the source. Nothing constructs or matches it.
- `Expr` and `TWONUMBER` are declared only. The source has no code that evaluates them.
- The derived `Debug` of `Token`, `TokenType`, `Expr` and `Error` is not modelled, because `as_string` does not use it.
- `Clone` and the derived `PartialEq` are Dafny's value semantics and datatype equality.
- The scanner, parser, interpreter and command-line interface are not part of this model.
