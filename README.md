# aster literal and statement builders, in Dafny

This project models two builder layers of the `aster` syntax-tree builder library:

- the literal builder `LitBuilder` (src/lit.rs);
- the statement builder `StmtBuilder` and its sub-builders (src/stmt.rs).

A builder holds a continuation and a span. Its finalisers assemble an `ast::Lit` or an `ast::Stmt`, stamp the span on it, and hand it to the continuation. The caller gets back whatever the continuation returns.

Both layers are pure. Every builder is an owned value, and every call either returns a new builder or returns the continuation's result. So builders are datatypes and their operations are functions:

- A continuation (`Invoke<T>` with result `R`) is a Dafny function `T -> R` stored in the builder.
- `Identity` is `x => x`, so a stand-alone builder returns the node itself.
- `Record` is `x => [x]`. A chain finished with `Record` returns `[n]` exactly when the node handed to the continuation, and the only thing that reaches the caller, is `n`.

Files:

- `ints.dfy` (module `RustInts`): Rust's fixed-width integers as subset types of `int`. The `as` casts the literal builder uses are written out: two's-complement reinterpretation between `i64` and `u64`, sign extension and zero extension.
- `ast.dfy` (module `Ast`): the node types the builders construct. These are `Spanned`, `Local`, `DeclKind` (`Decl_`), `StmtKind` (`Stmt_`), `LitKind` (`Lit_`), `LitIntType`, `IntTy`, `UintTy` and `Sign`. `Span`, `NodeId`, `Pat`, `Ty`, `Expr`, `Item`, `Ident` and `InternedString` are opaque types. `DUMMY_SP`, `DUMMY_NODE_ID`, the identifier pattern `IdPat` and the interner `Intern` are uninterpreted constants.
- `invoke.dfy` (module `Invoke`): the `Identity` and `Record` continuations. It also holds the last step of the pattern, type, expression and item builders that live in other files. That step is `Build`, whose result is the callback applied to the finished node. `PatBuilder.Id` finishes with `IdPat(id)`.
- `lit.dfy` (module `LitBuilders`): `LitBuilder` and its finalisers. It also defines `DecodeInt`, which reads an integer literal back into its number and suffix. `DecodeInt` is the partner of the integer finalisers.
- `stmt.dfy` (module `StmtBuilders`): `StmtBuilder`, `StmtLetIdBuilder`, `StmtExprBuilder`, `StmtSemiBuilder`, `StmtLetBuilder`, `StmtLetTyBuilder` and `StmtItemBuilder`. `Finish` dispatches to the finaliser for each kind of statement (`Built`). `Decode` reads a statement of the builder's shape back into a `Built`.

Rust names are mapped as follows:

- `span` becomes `WithSpan`.
- `let_` becomes `Let`.
- `expr` becomes `ExprStmt` on `StmtBuilder` and `ExprStage` on the `let` stages.
- `ty` becomes `TyStage`.
- `item` becomes `ItemStmt`.
- The `Invoke` impls become `InvokePat`, `InvokeTy` and `InvokeExpr`. On the one-field builders they are called `Invoke`.
- `new` and `builder` become `New` and `Builder`.

## Model

| member | source | states |
|---|---|---|
| `RustInts.I64AsU64` | src/lit.rs:48-51 | `value as u64` keeps the 64-bit pattern, so the result is congruent to the value mod 2^64. Reading it back as `i64` gives the value again. |
| `RustInts.U64AsI64` | src/lit.rs:48-51 | Reading a `u64` pattern as `i64` gives the congruent value mod 2^64. That value is negative exactly when the top bit is set. |
| `RustInts.U64AsI64RoundTrip` | src/lit.rs:48-51 | The reinterpretation is a bijection: `u64` to `i64` and back gives the same pattern. |
| `RustInts.WidenSigned` | src/lit.rs:53-67 | The `as i64` cast of an `i8`/`i16`/`i32` is bit-level sign extension. It keeps the mathematical value, and the stored `u64` pattern is the sign-extended narrow pattern. |
| `RustInts.WidenUnsigned` | src/lit.rs:77-91 | The `as u64` cast of a `u8`/`u16`/`u32` is zero extension. It keeps the value, which stays below 2^width. |
| `LitBuilders.SpanChain` | src/lit.rs:32-35 | After any sequence of `span` calls, the span is the last one given and the callback is unchanged. |
| `LitBuilders.FreshSpanChain` | src/lit.rs:25-35 | A builder from `new_with_callback` has span `DUMMY_SP` and keeps its callback. After `span` calls, the last call wins. |
| `LitBuilders.BuildLitContinuation` | src/lit.rs:37-42 | The result of `build_lit` is the continuation applied to exactly `Lit { span: current span, node: payload }`, and nothing else reaches the caller. With `Identity`, that literal is the result. |
| `LitBuilders.IntRoundTrip` | src/lit.rs:48-51 | `int(v, ty)` stores v mod 2^64 with the builder's span. Decoding the stored bits as `i64` with the tag gives back exactly `(v, ty)`. |
| `LitBuilders.IntSign` | src/lit.rs:49-50 | The sign tag of `int` is `Minus` if and only if v < 0. It is the same for every suffix type. |
| `LitBuilders.IntInjective` | src/lit.rs:48-51 | Two `int` literals are equal if and only if their numbers and suffix types are equal. |
| `LitBuilders.SignedWidths` | src/lit.rs:53-71 | `i8`/`i16`/`i32`/`i64` equal `int` on the same number with `TyI8`/`TyI16`/`TyI32`/`TyI64`, and `isize` equals `int` with `TyIs(false)`. The stored pattern of a narrow value is its sign-extended pattern. |
| `LitBuilders.UintRoundTrip` | src/lit.rs:73-75 | `uint(v, ty)` stores v unchanged with tag `UnsignedIntLit(ty)` and no sign. It decodes back to `(v, ty)`. |
| `LitBuilders.SignedNeverUnsigned` | src/lit.rs:48-51 | A signed literal from `int` never equals an unsigned literal from `uint`, even when the stored bits are the same. |
| `LitBuilders.UnsignedWidths` | src/lit.rs:77-95 | `u8`/`u16`/`u32`/`u64` equal `uint` on the same number with the matching tag, and `usize` uses `TyUs(false)`. The stored number equals the input and is below 2^width. |
| `LitBuilders.LitFinishContinuation` | src/lit.rs:37-102 | The result of `bool`, `int`, `uint` and `str` on any builder is its continuation applied to exactly the literal that the stand-alone builder returns at the same span. |
| `LitBuilders.BoolAndStr` | src/lit.rs:44-46 | `bool(b)` gives `LitBool(b)` and `str(s)` gives `LitStr(intern(s), CookedStr)`, both at the builder's span. Two string literals are equal exactly when their interned strings are. |
| `StmtBuilders.SpanChain` | src/stmt.rs:36-39 | After any sequence of `span` calls, the span is the last one given and the callback is unchanged. |
| `StmtBuilders.FreshSpanChain` | src/stmt.rs:29-39 | A builder from `new_with_callback` has span `DUMMY_SP` and keeps its callback. After `span` calls, the last call wins. |
| `StmtBuilders.BuildStmtContinuation` | src/stmt.rs:41-43 | The result of `build_stmt(k)` is the continuation applied to exactly `respan(span, k)`, and nothing else reaches the caller. With `Identity`, that node is the result. |
| `StmtBuilders.FinishContinuation` | src/stmt.rs:41-92 | The result of every statement finaliser is the builder's continuation applied to exactly the node that the stand-alone builder returns at the same span. |
| `StmtBuilders.DecodeFinish` | src/stmt.rs:45-92 | Every finaliser's statement has the builder's span and decodes back to the pattern, type, initialiser, expression or item it was given. |
| `StmtBuilders.FinishDecode` | src/stmt.rs:45-92 | Conversely, every statement of the builder's shape is produced by the stand-alone builder at its span from its decoding. The decoding is one placeholder id, one span throughout and a `let` source. |
| `StmtBuilders.BuildLetLayout` | src/stmt.rs:45-61 | `build_let` gives `StmtDecl(DeclLocal(Local{pat, ty, init, DUMMY_NODE_ID, span, LocalLet}), DUMMY_NODE_ID)`. The builder's span is on the local, the declaration and the statement. |
| `StmtBuilders.LetStages` | src/stmt.rs:96-107 | Invoking the builder with a pattern gives a `StmtLetBuilder` holding that pattern and the unchanged builder. Invoking that with a type moves both, unchanged, into a `StmtLetTyBuilder`. |
| `StmtBuilders.LetFinishes` | src/stmt.rs:161-233 | `build()` gives no type and no initialiser. `build_expr(e)` and `invoke(e)` give no type and initialiser e. After the type stage, `build()` gives type t and no initialiser, and `invoke(e)` gives type t and initialiser e. |
| `StmtBuilders.LetIdSugar` | src/stmt.rs:67-72 | `let_id(id)` finished with e equals `let_().id(id).build_expr(e)` on the same builder. The result is the let with pattern `IdPat(id)`, no type and initialiser e. |
| `StmtBuilders.ExprSemiItemFinishes` | src/stmt.rs:74-92 | The `expr`, `semi` and `item` paths finish with the expression statement, the semicolon statement and the item statement of what they were given. |
| `StmtBuilders.ExprSemiDiffer` | src/stmt.rs:125-149 | `StmtExpr(e, DUMMY_NODE_ID)` and `StmtSemi(e, DUMMY_NODE_ID)` at the same span differ only in the variant. |
| `StmtBuilders.BuildItemLayout` | src/stmt.rs:238-248 | An item statement is `StmtDecl(respan(span, DeclItem(item)), DUMMY_NODE_ID)` at the builder's span. |

## Left out

- The internals of `syntax::ast` and `syntax::codemap` are external. `Span`, `NodeId`, `Pat`, `Ty`, `Expr`, `Item`, `Ident` and `InternedString` are opaque. `DUMMY_SP` and `DUMMY_NODE_ID` are unspecified fixed values.
- Only the payload variants the builders construct are modelled. `LitByteStr`, `LitByte`, `LitChar`, the float literals and `StmtMac` are not modelled.
- `PatBuilder`, `TyBuilder`, `ExprBuilder` and `ItemBuilder` are defined in other files, which are not part of this model. Each one keeps only its callback and its last step, which invokes the callback with a finished node. The identifier pattern that `PatBuilder::id` makes is the uninterpreted `IdPat`.
- `P<T>` boxing is a memory-representation detail. Nodes are plain values.
- String interning (`ToInternedString`) is the uninterpreted function `Intern`. `Str` takes a `string`, not any convertible type.
- `ToIdent`: `LetId` takes an `Ident` directly.
- `Sign::new` belongs to the external crate. `SignOf` defines it as `Minus` exactly for negative numbers.
- `isize` and `usize` are taken to be 64 bits wide, so their casts to `i64`/`u64` change nothing.
- Rust's move semantics and compile-time stage enforcement are not modelled. Each stage is a distinct datatype, and nothing stops a Dafny caller from reusing a builder value.
- Side effects of a continuation are not modelled. A continuation is a pure function.
- How many times a continuation is called is not observable here: a pure model sees only the result. In Rust, at most one call comes from `invoke` taking the continuation by value (src/lit.rs:38, src/stmt.rs:42); the model states only that the result is the continuation applied to exactly the finished node.
