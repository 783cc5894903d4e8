/** The parts of the syntax tree (`syntax::ast`, `syntax::codemap`) that the
    literal and statement builders construct. Node kinds the builders only pass
    through (patterns, types, expressions, items, identifiers, interned
    strings) and source positions are opaque; the sentinel values the builders
    stamp on new nodes are uninterpreted constants. Only the constructors the
    builders use are given. */
module Ast {
  import opened RustInts

  /** A source region; `DUMMY_SP` is the placeholder for "no position known". */
  type Span(0)
  const DUMMY_SP: Span

  /** Node identifiers; `DUMMY_NODE_ID` marks a node not yet numbered. */
  type NodeId(0)
  const DUMMY_NODE_ID: NodeId

  type Pat(0)
  type Ty
  type Expr
  type Item
  type Ident
  type InternedString(0)

  /** The pattern that binds identifier `id` by value (what the pattern
      builder's `id` finishes with). */
  const IdPat: Ident -> Pat

  /** The string-interning collaborator. */
  const Intern: string -> InternedString

  datatype Option<T> = None | Some(value: T)

  /** `Spanned<T>`: a node together with the region it covers. */
  datatype Spanned<T> = Spanned(node: T, span: Span)

  /** `respan(sp, t)`. */
  function Respan<T>(sp: Span, t: T): Spanned<T> {
    Spanned(t, sp)
  }

  // ---- literals ----

  /** The flag of `TyIs` / `TyUs` is the one `syntax::ast` carries; the
      builder always passes `false`. */
  datatype IntTy = TyIs(flag: bool) | TyI8 | TyI16 | TyI32 | TyI64
  datatype UintTy = TyUs(flag: bool) | TyU8 | TyU16 | TyU32 | TyU64
  datatype Sign = Minus | Plus

  /** `Sign::new`: the sign of a number. */
  function SignOf(n: int): Sign {
    if n < 0 then Minus else Plus
  }

  datatype LitIntType =
    | SignedIntLit(ity: IntTy, sign: Sign)
    | UnsignedIntLit(uty: UintTy)
    | UnsuffixedIntLit(usign: Sign)

  datatype StrStyle = CookedStr | RawStr(hashes: nat)

  /** `Lit_`: the payload of a literal. */
  datatype LitKind =
    | LitStr(str: InternedString, style: StrStyle)
    | LitInt(value: uint64, intType: LitIntType)
    | LitBool(b: bool)

  /** `ast::Lit`. */
  datatype Lit = Lit(span: Span, node: LitKind)

  // ---- statements ----

  datatype LocalSource = LocalLet | LocalFor

  /** `ast::Local`: a `let` binding. */
  datatype Local = Local(pat: Pat, ty: Option<Ty>, init: Option<Expr>, id: NodeId, span: Span, source: LocalSource)

  /** `Decl_`. */
  datatype DeclKind = DeclLocal(local: Local) | DeclItem(item: Item)
  type Decl = Spanned<DeclKind>

  /** `Stmt_`. */
  datatype StmtKind =
    | StmtDecl(decl: Decl, id: NodeId)
    | StmtExpr(expr: Expr, id: NodeId)
    | StmtSemi(expr: Expr, id: NodeId)
  type Stmt = Spanned<StmtKind>
}
