/** The literal builder of src/lit.rs: a continuation and a span, and one
    finaliser per literal kind. Every finaliser assembles an `ast::Lit` with
    the builder's span and hands it to the continuation. */
module LitBuilders {
  import opened RustInts
  import opened Ast
  import opened Invoke

  /** `LitBuilder<F>`. */
  datatype LitBuilder<R> = LitBuilder(callback: Lit -> R, span: Span) {

    /** `span`: replace the span, keep the continuation. */
    function WithSpan(sp: Span): LitBuilder<R> {
      this.(span := sp)
    }

    /** `build_lit`: stamp the span on the payload and invoke the
        continuation with the literal. */
    function BuildLit(kind: LitKind): R {
      callback(Lit(span, kind))
    }

    function Bool(value: bool): R {
      BuildLit(LitBool(value))
    }

    /** `int`: the number is stored as its 64-bit pattern read as unsigned;
        the sign tag comes from the number alone. */
    function Int(value: int64, ty: IntTy): R {
      var sign := SignOf(value);
      BuildLit(LitInt(I64AsU64(value), SignedIntLit(ty, sign)))
    }

    /** `isize`: on a 64-bit target `value as i64` changes nothing. */
    function Isize(value: isize): R {
      Int(value, TyIs(false))
    }

    function I8(value: int8): R {
      Int(WidenSigned(value, W8), TyI8)
    }

    function I16(value: int16): R {
      Int(WidenSigned(value, W16), TyI16)
    }

    function I32(value: int32): R {
      Int(WidenSigned(value, W32), TyI32)
    }

    function I64(value: int64): R {
      Int(value, TyI64)
    }

    /** `uint`: the number is stored as it is, tagged unsigned, with no
        sign. */
    function Uint(value: uint64, ty: UintTy): R {
      BuildLit(LitInt(value, UnsignedIntLit(ty)))
    }

    /** `usize`: on a 64-bit target `value as u64` changes nothing. */
    function Usize(value: usize): R {
      Uint(value, TyUs(false))
    }

    function U8(value: uint8): R {
      Uint(WidenUnsigned(value, W8), TyU8)
    }

    function U16(value: uint16): R {
      Uint(WidenUnsigned(value, W16), TyU16)
    }

    function U32(value: uint32): R {
      Uint(WidenUnsigned(value, W32), TyU32)
    }

    function U64(value: uint64): R {
      Uint(value, TyU64)
    }

    /** `str`: intern the text and build a cooked (non-raw) string literal. */
    function Str(value: string): R {
      BuildLit(LitStr(Intern(value), CookedStr))
    }
  }

  /** `new_with_callback`: no position known yet. */
  function NewWithCallback<R>(callback: Lit -> R): LitBuilder<R> {
    LitBuilder(callback, DUMMY_SP)
  }

  /** `LitBuilder::builder`: a stand-alone builder, whose finalisers return
      the literal itself. */
  function Builder(): LitBuilder<Lit> {
    NewWithCallback(Identity)
  }

  // ---- specification ----

  /** A chain of `span` calls, applied in order. */
  function WithSpans<R>(b: LitBuilder<R>, spans: seq<Span>): LitBuilder<R>
    decreases |spans|
  {
    if spans == [] then b else WithSpans(b.WithSpan(spans[0]), spans[1..])
  }

  /** What an integer literal denotes: a number and its suffix type. */
  datatype IntValue = Signed(v: int64, ity: IntTy) | Unsigned(u: uint64, uty: UintTy)

  /** Reads an integer literal back: a signed literal's stored bits are read as
      `i64`, and its sign tag must agree with that number; an unsigned
      literal's bits are its number. Anything else reads as `None`. */
  function DecodeInt(k: LitKind): Option<IntValue> {
    match k
    case LitInt(bits, SignedIntLit(ty, sign)) =>
      var v := U64AsI64(bits);
      if sign == SignOf(v) then Some(Signed(v, ty)) else None
    case LitInt(bits, UnsignedIntLit(ty)) => Some(Unsigned(bits, ty))
    case _ => None
  }

  // ---- properties ----

  /** After any chain of `span` calls the span is the last one given (or the
      old one if none was), and the continuation is untouched. */
  lemma {:induction false} SpanChain<R>(b: LitBuilder<R>, spans: seq<Span>)
    ensures WithSpans(b, spans).span == (if spans == [] then b.span else spans[|spans| - 1])
    ensures WithSpans(b, spans).callback == b.callback
    decreases |spans|
  {
    if spans != [] {
      SpanChain(b.WithSpan(spans[0]), spans[1..]);
    }
  }

  /** A fresh builder has the placeholder span until `span` is called; then
      the last call wins. */
  lemma {:induction false} FreshSpanChain<R>(f: Lit -> R, spans: seq<Span>)
    ensures WithSpans(NewWithCallback(f), spans).span == (if spans == [] then DUMMY_SP else spans[|spans| - 1])
    ensures WithSpans(NewWithCallback(f), spans).callback == f
  {
    SpanChain(NewWithCallback(f), spans);
  }

  /** The result of `build_lit` is the continuation applied to exactly the
      literal the stand-alone builder returns, which carries the current span
      and the given payload; nothing else reaches the caller. */
  lemma BuildLitContinuation<R>(f: Lit -> R, sp: Span, kind: LitKind)
    ensures Builder().WithSpan(sp).BuildLit(kind) == Lit(sp, kind)
    ensures NewWithCallback(f).WithSpan(sp).BuildLit(kind) == f(Builder().WithSpan(sp).BuildLit(kind))
    ensures NewWithCallback(Record).WithSpan(sp).BuildLit(kind) == [Lit(sp, kind)]
  {
  }

  /** Every finaliser's result is the builder's continuation applied to
      exactly the literal the stand-alone builder at the same span returns. */
  lemma LitFinishContinuation<R>(b: LitBuilder<R>, x: bool, v: int64, ity: IntTy, u: uint64, uty: UintTy, s: string)
    ensures b.Bool(x) == b.callback(Builder().WithSpan(b.span).Bool(x))
    ensures b.Int(v, ity) == b.callback(Builder().WithSpan(b.span).Int(v, ity))
    ensures b.Uint(u, uty) == b.callback(Builder().WithSpan(b.span).Uint(u, uty))
    ensures b.Str(s) == b.callback(Builder().WithSpan(b.span).Str(s))
  {
  }

  /** `int` is lossless: the stored bits read back as `i64` give the number,
      the suffix is the one asked for, and the span is the builder's. */
  lemma IntRoundTrip(sp: Span, v: int64, ty: IntTy)
    ensures Builder().WithSpan(sp).Int(v, ty).span == sp
    ensures DecodeInt(Builder().WithSpan(sp).Int(v, ty).node) == Some(Signed(v, ty))
    ensures (Builder().Int(v, ty).node.value - v) % TWO_64 == 0
  {
  }

  /** The sign tag of `int` is `Minus` exactly for negative numbers, whatever
      the suffix type. */
  lemma IntSign(v: int64, ty1: IntTy, ty2: IntTy)
    ensures Builder().Int(v, ty1).node.intType.sign == Builder().Int(v, ty2).node.intType.sign
    ensures Builder().Int(v, ty1).node.intType.sign == Minus <==> v < 0
  {
  }

  /** Two `int` literals are equal exactly when number and suffix are. */
  lemma IntInjective(v1: int64, ty1: IntTy, v2: int64, ty2: IntTy)
    ensures Builder().Int(v1, ty1) == Builder().Int(v2, ty2) <==> v1 == v2 && ty1 == ty2
  {
  }

  /** The fixed-width signed finalisers are `int` on the widened number with
      the matching suffix; the widened number is the input, and its stored
      64-bit pattern is the input's own pattern sign-extended. */
  lemma SignedWidths<R>(b: LitBuilder<R>, v8: int8, v16: int16, v32: int32, v64: int64)
    ensures b.I8(v8) == b.Int(v8, TyI8)
    ensures b.I16(v16) == b.Int(v16, TyI16)
    ensures b.I32(v32) == b.Int(v32, TyI32)
    ensures b.I64(v64) == b.Int(v64, TyI64)
    ensures b.Isize(v64) == b.Int(v64, TyIs(false))
    ensures Builder().I8(v8).node.value == SignExtend(Bits(v8, W8), W8)
    ensures Builder().I16(v16).node.value == SignExtend(Bits(v16, W16), W16)
    ensures Builder().I32(v32).node.value == SignExtend(Bits(v32, W32), W32)
  {
  }

  /** `uint` stores the number as it is, tagged unsigned with the suffix asked
      for; there is no sign to disagree with. */
  lemma UintRoundTrip(sp: Span, v: uint64, ty: UintTy)
    ensures Builder().WithSpan(sp).Uint(v, ty) == Lit(sp, LitInt(v, UnsignedIntLit(ty)))
    ensures DecodeInt(Builder().WithSpan(sp).Uint(v, ty).node) == Some(Unsigned(v, ty))
  {
  }

  /** A signed and an unsigned literal are never the same node, even for the
      same bits. */
  lemma SignedNeverUnsigned(v: int64, ity: IntTy, u: uint64, uty: UintTy)
    ensures Builder().Int(v, ity) != Builder().Uint(u, uty)
  {
  }

  /** The fixed-width unsigned finalisers are `uint` on the zero-extended
      number with the matching suffix: the stored number is the input, below
      2^width. */
  lemma UnsignedWidths<R>(b: LitBuilder<R>, v8: uint8, v16: uint16, v32: uint32, v64: uint64)
    ensures b.U8(v8) == b.Uint(v8, TyU8)
    ensures b.U16(v16) == b.Uint(v16, TyU16)
    ensures b.U32(v32) == b.Uint(v32, TyU32)
    ensures b.U64(v64) == b.Uint(v64, TyU64)
    ensures b.Usize(v64) == b.Uint(v64, TyUs(false))
    ensures Builder().U8(v8).node.value == v8 && Builder().U8(v8).node.value < 0x100
    ensures Builder().U16(v16).node.value == v16 && Builder().U16(v16).node.value < 0x1_0000
    ensures Builder().U32(v32).node.value == v32 && Builder().U32(v32).node.value < 0x1_0000_0000
  {
  }

  /** `bool` and `str` build the boolean and the cooked, interned string
      literal; two string literals are equal exactly when their interned
      strings are. */
  lemma BoolAndStr(sp: Span, x: bool, s: string, t: string)
    ensures Builder().WithSpan(sp).Bool(x) == Lit(sp, LitBool(x))
    ensures Builder().WithSpan(sp).Str(s) == Lit(sp, LitStr(Intern(s), CookedStr))
    ensures Builder().Str(s) == Builder().Str(t) <==> Intern(s) == Intern(t)
  {
  }
}
