/** The statement builder of src/stmt.rs and its sub-builders. A `let`
    statement is collected in stages, each stage a builder of its own:
    `StmtBuilder` --pattern--> `StmtLetBuilder` --type--> `StmtLetTyBuilder`,
    with an optional initialiser at either of the last two. Every finaliser
    stamps the builder's span on the statement and hands it to the builder's
    continuation. */
module StmtBuilders {
  import opened Ast
  import opened Invoke

  /** `StmtBuilder<F>`. */
  datatype StmtBuilder<R> = StmtBuilder(callback: Stmt -> R, span: Span) {

    /** `span`: replace the span, keep the continuation. */
    function WithSpan(sp: Span): StmtBuilder<R> {
      this.(span := sp)
    }

    /** `build_stmt`. */
    function BuildStmt(kind: StmtKind): R {
      callback(Respan(span, kind))
    }

    /** `build_let`: the builder's span goes on the local, the declaration and
        the statement; both ids are placeholders. */
    function BuildLet(pat: Pat, ty: Option<Ty>, init: Option<Expr>): R {
      var local := Local(pat, ty, init, DUMMY_NODE_ID, span, LocalLet);
      var decl := Respan(span, DeclLocal(local));
      BuildStmt(StmtDecl(decl, DUMMY_NODE_ID))
    }

    /** `let_`: a pattern builder that continues with this builder. */
    function Let(): PatBuilder<StmtLetBuilder<R>> {
      PatBuilder(pat => InvokePat(pat))
    }

    /** `let_id`: an expression builder whose expression becomes the
        initialiser of `let id = expr`. */
    function LetId(id: Ident): ExprBuilder<R> {
      ExprBuilder(expr => StmtLetIdBuilder(this, id).Invoke(expr))
    }

    /** `build_expr`. */
    function BuildExpr(expr: Expr): R {
      BuildStmt(StmtExpr(expr, DUMMY_NODE_ID))
    }

    /** `expr`. */
    function ExprStmt(): ExprBuilder<R> {
      ExprBuilder(expr => StmtExprBuilder(this).Invoke(expr))
    }

    /** `semi`. */
    function Semi(): ExprBuilder<R> {
      ExprBuilder(expr => StmtSemiBuilder(this).Invoke(expr))
    }

    /** `build_item`. */
    function BuildItem(item: Item): R {
      var decl := Respan(span, DeclItem(item));
      BuildStmt(StmtDecl(decl, DUMMY_NODE_ID))
    }

    /** `item`. */
    function ItemStmt(): ItemBuilder<R> {
      ItemBuilder(item => StmtItemBuilder(this).Invoke(item))
    }

    /** `Invoke<P<Pat>>`: receiving the pattern moves this builder, as it is,
        into the next stage. */
    function InvokePat(pat: Pat): StmtLetBuilder<R> {
      StmtLetBuilder(this, pat)
    }
  }

  /** `StmtLetIdBuilder`. */
  datatype StmtLetIdBuilder<R> = StmtLetIdBuilder(builder: StmtBuilder<R>, id: Ident) {
    function Invoke(expr: Expr): R {
      builder.Let().Id(id).BuildExpr(expr)
    }
  }

  /** `StmtExprBuilder`. */
  datatype StmtExprBuilder<R> = StmtExprBuilder(builder: StmtBuilder<R>) {
    function Invoke(expr: Expr): R {
      builder.BuildExpr(expr)
    }
  }

  /** `StmtSemiBuilder`. */
  datatype StmtSemiBuilder<R> = StmtSemiBuilder(builder: StmtBuilder<R>) {
    function Invoke(expr: Expr): R {
      builder.BuildStmt(StmtSemi(expr, DUMMY_NODE_ID))
    }
  }

  /** `StmtLetBuilder`: a `let` whose pattern is known. */
  datatype StmtLetBuilder<R> = StmtLetBuilder(builder: StmtBuilder<R>, pat: Pat) {

    /** `build_ty`. */
    function BuildTy(ty: Ty): StmtLetTyBuilder<R> {
      StmtLetTyBuilder(builder, pat, ty)
    }

    /** `ty`. */
    function TyStage(): TyBuilder<StmtLetTyBuilder<R>> {
      TyBuilder(ty => InvokeTy(ty))
    }

    /** `build_expr`: no type, the given initialiser. */
    function BuildExpr(expr: Expr): R {
      builder.BuildLet(pat, None, Some(expr))
    }

    /** `expr`. */
    function ExprStage(): ExprBuilder<R> {
      ExprBuilder(expr => InvokeExpr(expr))
    }

    /** `build`: neither type nor initialiser. */
    function Build(): R {
      builder.BuildLet(pat, None, None)
    }

    /** `Invoke<P<Ty>>`. */
    function InvokeTy(ty: Ty): StmtLetTyBuilder<R> {
      BuildTy(ty)
    }

    /** `Invoke<P<Expr>>`. */
    function InvokeExpr(expr: Expr): R {
      BuildExpr(expr)
    }
  }

  /** `StmtLetTyBuilder`: a `let` whose pattern and type are known. */
  datatype StmtLetTyBuilder<R> = StmtLetTyBuilder(builder: StmtBuilder<R>, pat: Pat, ty: Ty) {

    /** `expr`. */
    function ExprStage(): ExprBuilder<R> {
      ExprBuilder(expr => InvokeExpr(expr))
    }

    /** `build`: the type, no initialiser. */
    function Build(): R {
      builder.BuildLet(pat, Some(ty), None)
    }

    /** `Invoke<P<Expr>>`: the type and the given initialiser. */
    function InvokeExpr(expr: Expr): R {
      builder.BuildLet(pat, Some(ty), Some(expr))
    }
  }

  /** `StmtItemBuilder`. */
  datatype StmtItemBuilder<R> = StmtItemBuilder(builder: StmtBuilder<R>) {
    function Invoke(item: Item): R {
      builder.BuildItem(item)
    }
  }

  /** `new_with_callback`: no position known yet. */
  function NewWithCallback<R>(callback: Stmt -> R): StmtBuilder<R> {
    StmtBuilder(callback, DUMMY_SP)
  }

  /** `StmtBuilder::new`: a stand-alone builder, whose finalisers return the
      statement itself. */
  function New(): StmtBuilder<Stmt> {
    NewWithCallback(Identity)
  }

  // ---- specification ----

  /** A chain of `span` calls, applied in order. */
  function WithSpans<R>(b: StmtBuilder<R>, spans: seq<Span>): StmtBuilder<R>
    decreases |spans|
  {
    if spans == [] then b else WithSpans(b.WithSpan(spans[0]), spans[1..])
  }

  /** What a finished statement says, whichever chain produced it. */
  datatype Built =
    | LetOf(pat: Pat, ty: Option<Ty>, init: Option<Expr>)
    | ExprOf(expr: Expr)
    | SemiOf(expr: Expr)
    | ItemOf(item: Item)

  /** Reads a statement back into what it says, provided it has the shape the
      builder gives every node: one span on the statement, on its declaration
      and on its local; placeholder ids; a `let` source. Anything else reads
      as `None`. */
  ghost function Decode(s: Stmt): Option<Built> {
    match s.node
    case StmtDecl(Spanned(DeclLocal(l), dsp), id) =>
      if id == DUMMY_NODE_ID && dsp == s.span && l.span == s.span && l.id == DUMMY_NODE_ID && l.source == LocalLet
      then Some(LetOf(l.pat, l.ty, l.init))
      else None
    case StmtDecl(Spanned(DeclItem(item), dsp), id) =>
      if id == DUMMY_NODE_ID && dsp == s.span then Some(ItemOf(item)) else None
    case StmtExpr(e, id) =>
      if id == DUMMY_NODE_ID then Some(ExprOf(e)) else None
    case StmtSemi(e, id) =>
      if id == DUMMY_NODE_ID then Some(SemiOf(e)) else None
  }

  /** The finaliser a builder uses for each thing a statement can say. */
  function Finish<R>(b: StmtBuilder<R>, x: Built): R {
    match x
    case LetOf(pat, ty, init) => b.BuildLet(pat, ty, init)
    case ExprOf(e) => b.BuildExpr(e)
    case SemiOf(e) => StmtSemiBuilder(b).Invoke(e)
    case ItemOf(item) => b.BuildItem(item)
  }

  // ---- properties ----

  /** After any chain of `span` calls the span is the last one given (or the
      old one if none was), and the continuation is untouched. */
  lemma {:induction false} SpanChain<R>(b: StmtBuilder<R>, spans: seq<Span>)
    ensures WithSpans(b, spans).span == (if spans == [] then b.span else spans[|spans| - 1])
    ensures WithSpans(b, spans).callback == b.callback
    decreases |spans|
  {
    if spans != [] {
      SpanChain(b.WithSpan(spans[0]), spans[1..]);
    }
  }

  /** A fresh builder has the placeholder span until `span` is called; then
      the last call wins. */
  lemma {:induction false} FreshSpanChain<R>(f: Stmt -> R, spans: seq<Span>)
    ensures WithSpans(NewWithCallback(f), spans).span == (if spans == [] then DUMMY_SP else spans[|spans| - 1])
    ensures WithSpans(NewWithCallback(f), spans).callback == f
  {
    SpanChain(NewWithCallback(f), spans);
  }

  /** The result of `build_stmt` is the continuation applied to exactly the
      statement the stand-alone builder returns: the payload at the current
      span. Nothing else reaches the caller. */
  lemma BuildStmtContinuation<R>(f: Stmt -> R, sp: Span, kind: StmtKind)
    ensures New().WithSpan(sp).BuildStmt(kind) == Spanned(kind, sp)
    ensures NewWithCallback(f).WithSpan(sp).BuildStmt(kind) == f(New().WithSpan(sp).BuildStmt(kind))
    ensures NewWithCallback(Record).WithSpan(sp).BuildStmt(kind) == [Spanned(kind, sp)]
  {
  }

  /** The result of every finaliser is the continuation applied to exactly
      the node the stand-alone builder at the same span returns; nothing else
      reaches the caller. */
  lemma FinishContinuation<R>(b: StmtBuilder<R>, x: Built)
    ensures Finish(b, x) == b.callback(Finish(New().WithSpan(b.span), x))
    ensures Finish(NewWithCallback(Record).WithSpan(b.span), x) == [Finish(New().WithSpan(b.span), x)]
  {
  }

  /** The stand-alone builder's statements read back as what was asked for,
      at the span asked for. */
  lemma DecodeFinish(sp: Span, x: Built)
    ensures Finish(New().WithSpan(sp), x).span == sp
    ensures Decode(Finish(New().WithSpan(sp), x)) == Some(x)
  {
  }

  /** Conversely, every statement of the builder's shape is what the
      stand-alone builder makes at its span from what it says. */
  lemma FinishDecode(s: Stmt)
    requires Decode(s).Some?
    ensures Finish(New().WithSpan(s.span), Decode(s).value) == s
  {
  }

  /** `build_let` places the pattern, type and initialiser on the local, and
      the builder's span on the local, the declaration and the statement. */
  lemma BuildLetLayout(sp: Span, pat: Pat, ty: Option<Ty>, init: Option<Expr>)
    ensures New().WithSpan(sp).BuildLet(pat, ty, init).span == sp
    ensures New().WithSpan(sp).BuildLet(pat, ty, init).node.decl.span == sp
    ensures New().WithSpan(sp).BuildLet(pat, ty, init).node.decl.node.local
         == Local(pat, ty, init, DUMMY_NODE_ID, sp, LocalLet)
    ensures New().WithSpan(sp).BuildLet(pat, ty, init).node.id == DUMMY_NODE_ID
  {
  }

  /** Supplying the pattern yields the next stage holding exactly that
      pattern and the builder as it was (same span, same continuation);
      supplying a type then moves both, unchanged, into the last stage. */
  lemma LetStages<R>(b: StmtBuilder<R>, pat: Pat, ty: Ty)
    ensures b.Let().Build(pat).builder == b
    ensures b.Let().Build(pat).pat == pat
    ensures b.Let().Build(pat).TyStage().Build(ty) == StmtLetTyBuilder(b, pat, ty)
    ensures b.Let().Build(pat).InvokeTy(ty) == b.Let().Build(pat).BuildTy(ty)
  {
  }

  /** Every way of finishing a `let` statement, and what it says: a type
      only after the type stage, an initialiser only when one is given. */
  lemma LetFinishes<R>(b: StmtBuilder<R>, pat: Pat, ty: Ty, e: Expr)
    ensures b.Let().Build(pat).Build() == Finish(b, LetOf(pat, None, None))
    ensures b.Let().Build(pat).BuildExpr(e) == Finish(b, LetOf(pat, None, Some(e)))
    ensures b.Let().Build(pat).InvokeExpr(e) == Finish(b, LetOf(pat, None, Some(e)))
    ensures b.Let().Build(pat).ExprStage().Build(e) == Finish(b, LetOf(pat, None, Some(e)))
    ensures b.Let().Build(pat).TyStage().Build(ty).Build() == Finish(b, LetOf(pat, Some(ty), None))
    ensures b.Let().Build(pat).TyStage().Build(ty).InvokeExpr(e) == Finish(b, LetOf(pat, Some(ty), Some(e)))
    ensures b.Let().Build(pat).TyStage().Build(ty).ExprStage().Build(e) == Finish(b, LetOf(pat, Some(ty), Some(e)))
  {
  }

  /** `let_id(id)` finished with `e` is `let_().id(id).build_expr(e)` on the
      same builder: the identifier pattern, no type, initialiser `e`. */
  lemma LetIdSugar<R>(b: StmtBuilder<R>, id: Ident, e: Expr)
    ensures b.LetId(id).Build(e) == b.Let().Id(id).BuildExpr(e)
    ensures b.LetId(id).Build(e) == Finish(b, LetOf(IdPat(id), None, Some(e)))
  {
  }

  /** The expression, semicolon and item paths finish with what they were
      given. */
  lemma ExprSemiItemFinishes<R>(b: StmtBuilder<R>, e: Expr, item: Item)
    ensures b.ExprStmt().Build(e) == Finish(b, ExprOf(e))
    ensures b.Semi().Build(e) == Finish(b, SemiOf(e))
    ensures b.ItemStmt().Build(item) == Finish(b, ItemOf(item))
  {
  }

  /** An expression statement and a semicolon statement of the same
      expression differ only in their variant. */
  lemma ExprSemiDiffer(sp: Span, e: Expr)
    ensures New().WithSpan(sp).ExprStmt().Build(e).node == StmtExpr(e, DUMMY_NODE_ID)
    ensures New().WithSpan(sp).Semi().Build(e).node == StmtSemi(e, DUMMY_NODE_ID)
    ensures New().WithSpan(sp).ExprStmt().Build(e).span == New().WithSpan(sp).Semi().Build(e).span == sp
  {
  }

  /** An item statement wraps the item in a declaration at the builder's
      span. */
  lemma BuildItemLayout(sp: Span, item: Item)
    ensures New().WithSpan(sp).BuildItem(item)
         == Spanned(StmtDecl(Spanned(DeclItem(item), sp), DUMMY_NODE_ID), sp)
  {
  }
}
