/** The continuation contract `Invoke<T>`: a one-shot consumer of a finished
    node. A continuation accepting `T` and producing `R` is a function
    `T -> R`; handing a node to it is applying the function. */
module Invoke {
  import opened Ast

  /** `Identity`: the continuation of a stand-alone builder chain. */
  function Identity<T>(x: T): T {
    x
  }

  /** A continuation that records what it is given: a chain finished with it
      returns `[n]` exactly when the node that reaches the caller is n. */
  function Record<T>(x: T): seq<T> {
    [x]
  }

  // The builders below belong to other files of the library. Whatever
  // configuration they take, each one finishes by handing the node it built
  // to its callback; `Build` is that last step.

  /** `PatBuilder<F>`. */
  datatype PatBuilder<R> = PatBuilder(callback: Pat -> R) {
    function Build(pat: Pat): R {
      callback(pat)
    }

    /** `PatBuilder::id`: the identifier pattern for `id`. */
    function Id(id: Ident): R {
      Build(IdPat(id))
    }
  }

  /** `TyBuilder<F>`. */
  datatype TyBuilder<R> = TyBuilder(callback: Ty -> R) {
    function Build(ty: Ty): R {
      callback(ty)
    }
  }

  /** `ExprBuilder<F>`. */
  datatype ExprBuilder<R> = ExprBuilder(callback: Expr -> R) {
    function Build(expr: Expr): R {
      callback(expr)
    }
  }

  /** `ItemBuilder<F>`. */
  datatype ItemBuilder<R> = ItemBuilder(callback: Item -> R) {
    function Build(item: Item): R {
      callback(item)
    }
  }
}
