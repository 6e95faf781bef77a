/** Relocation of a syntax arena: every id and every visited span of a node is rewritten. */
module Relocation {
  import opened Wrappers
  import opened Ast

  // ----- rewriting the references and spans of a node ------------------------------------

  function MapAll<T, U>(xs: seq<T>, f: T -> U): (ys: seq<U>)
    ensures |ys| == |xs| && forall i :: 0 <= i < |xs| ==> ys[i] == f(xs[i])
  {
    seq(|xs|, i requires 0 <= i < |xs| => f(xs[i]))
  }

  function MapOption<T, U>(x: Option<T>, f: T -> U): Option<U> {
    match x
    case None => None
    case Some(v) => Some(f(v))
  }

  /** How references and spans are rewritten. */
  datatype Maps<!R, !X, !R2, !X2> = Maps(ref: R -> R2, span: X -> X2) {
    function Labelled(): Labelled<R, X> -> Labelled<R2, X2> {
      (a: Labelled<R, X>) => Ast.Labelled(MapOption(a.key, span), ref(a.value))
    }

    function Named(): Named<R, X> -> Named<R2, X2> {
      (a: Named<R, X>) => Ast.Named(span(a.name), ref(a.value))
    }

    function Arm(): Arm<R> -> Arm<R2> {
      (a: Arm<R>) => Ast.Arm(ref(a.pattern), ref(a.body))
    }

    function Annotation(): Annotation<R, X> -> Annotation<R2, X2> {
      (a: Annotation<R, X>) => Ast.Annotation(span(a.name), MapAll(a.args, Labelled()))
    }

    function GenericParam(): GenericParam<R, X> -> GenericParam<R2, X2> {
      (g: GenericParam<R, X>) => Ast.GenericParam(span(g.name), g.kind, MapAll(g.bounds, ref))
    }

    function Variant(): Variant<R, X> -> Variant<R2, X2> {
      (v: Variant<R, X>) => Ast.Variant(MapAll(v.annotations, Annotation()), span(v.name), MapAll(v.fields, ref))
    }

    function PatternField(): PatternField<R, X> -> PatternField<R2, X2> {
      (p: PatternField<R, X>) => Ast.PatternField(span(p.name), MapOption(p.pattern, ref))
    }

    function Marks(): Marks<X> -> Marks<X2> {
      (m: Marks<X>) => Ast.Marks(m.text, MapAll(m.spans, span))
    }

    function Head(h: Head<R, X>): Head<R2, X2> {
      Ast.Head(MapAll(h.annotations, Annotation()), h.visibility, h.flags)
    }

    function Expr(e: Expr<R, X>): Expr<R2, X2> {
      match e
      case Literal(token, text) => Literal(token, text)
      case Identifier(segments, genericArgs) => Identifier(MapAll(segments, span), MapAll(genericArgs, ref))
      case Binary(op, left, right) => Binary(op, ref(left), ref(right))
      case Unary(op, operand) => Unary(op, ref(operand))
      case Assign(op, lvalue, value) => Assign(op, ref(lvalue), ref(value))
      case Call(callee, genericArgs, args) => Call(ref(callee), MapAll(genericArgs, ref), MapAll(args, Labelled()))
      case MethodCall(receiver, methodName, genericArgs, args) =>
        MethodCall(ref(receiver), span(methodName), MapAll(genericArgs, ref), MapAll(args, Labelled()))
      case Index(base, index) => Index(ref(base), ref(index))
      case Member(receiver, member) => Member(ref(receiver), span(member))
      case TupleIndex(receiver, position) => TupleIndex(ref(receiver), position)
      case Cast(inner, targetType) => Cast(ref(inner), ref(targetType))
      case ArrayLiteral(elements) => ArrayLiteral(MapAll(elements, ref))
      case TupleLiteral(elements) => TupleLiteral(MapAll(elements, ref))
      case StructInit(path, genericArgs, inits) =>
        StructInit(MapAll(path, span), MapAll(genericArgs, ref), MapAll(inits, Named()))
      case Match(matchSpan, subject, arms) => Match(span(matchSpan), ref(subject), MapAll(arms, Arm()))
      case Lambda(params, returnType, body, isMove) =>
        Lambda(MapAll(params, ref), MapOption(returnType, ref), ref(body), isMove)
      case Try(inner, trySpan) => Try(ref(inner), trySpan)
      case Await(inner) => Await(ref(inner))
      case Sizeof(targetType) => Sizeof(ref(targetType))
      case Alignof(targetType) => Alignof(ref(targetType))
      case MacroCall(name, path, delimiter, tokens, s) =>
        MacroCall(span(name), MapAll(path, span), delimiter, tokens, span(s))
      case Comptime(body) => Comptime(ref(body))
    }

    function Stmt(s: Stmt<R, X>): Stmt<R2, X2> {
      match s
      case Block(items, tail) => Block(MapAll(items, ref), MapOption(tail, ref))
      case ExprStmt(expr, hasSemicolon) => ExprStmt(ref(expr), hasSemicolon)
      case If(condition, thenBranch, elseBranch) => If(ref(condition), ref(thenBranch), MapOption(elseBranch, ref))
      case While(name, condition, body) => While(MapOption(name, span), ref(condition), ref(body))
      case For(kind, name, pattern, iterable, init, cond, step, body) =>
        For(kind, MapOption(name, span), MapOption(pattern, ref), MapOption(iterable, ref),
            MapOption(init, ref), MapOption(cond, ref), MapOption(step, ref), ref(body))
      case Return(value) => Return(MapOption(value, ref))
      case Break(name) => Break(MapOption(name, span))
      case Continue(name) => Continue(MapOption(name, span))
      case Unsafe(body) => Unsafe(ref(body))
      case ComptimeBlock(body) => ComptimeBlock(ref(body))
    }

    function Decl(d: Decl<R, X>): Decl<R2, X2> {
      match d
      case Var(head, name, pattern, typeAnnot, initializer) =>
        Var(Head(head), span(name), MapOption(pattern, ref), MapOption(typeAnnot, ref), MapOption(initializer, ref))
      case Param(head, name, typeAnnot) => Param(Head(head), span(name), MapOption(typeAnnot, ref))
      case Function(head, name, generics, params, returnType, body, lifetimes) =>
        Function(Head(head), span(name), MapAll(generics, GenericParam()), MapAll(params, ref),
                 MapOption(returnType, ref), MapOption(body, ref), Marks()(lifetimes))
      case Struct(head, name, generics, fields, contract) =>
        Struct(Head(head), span(name), MapAll(generics, GenericParam()), MapAll(fields, Named()),
          MapOption(contract, Marks()))
      case Enum(head, name, generics, variants) =>
        Enum(Head(head), span(name), MapAll(generics, GenericParam()), MapAll(variants, Variant()))
      case Trait(head, name, generics, associated, methods, supertraits) =>
        Trait(Head(head), span(name), MapAll(generics, GenericParam()), MapAll(associated, ref),
              MapAll(methods, ref), MapAll(supertraits, ref))
      case Impl(head, generics, selfType, traitType, associated, methods) =>
        Impl(Head(head), MapAll(generics, GenericParam()), ref(selfType), MapOption(traitType, ref),
             MapAll(associated, ref), MapAll(methods, ref))
      case Import(head, name) => Import(Head(head), span(name))
      case Module(head, name, items) => Module(Head(head), span(name), MapAll(items, ref))
      case Using(path, alias, s) => Using(MapAll(path, span), span(alias), span(s))
      case Extern(head, func) => Extern(Head(head), ref(func))
      case TypeAlias(head, name, generics, bounds, aliased) =>
        TypeAlias(Head(head), span(name), MapAll(generics, GenericParam()), MapAll(bounds, ref),
          MapOption(aliased, ref))
      case Macro(head, name, rules) => Macro(Head(head), span(name), MapAll(rules, Marks()))
    }

    function Type(t: Type<R, X>): Type<R2, X2> {
      match t
      case Builtin(builtin) => Builtin(builtin)
      case Lifetime(s) => Lifetime(span(s))
      case NamedType(segments, genericArgs, bindings) =>
        NamedType(MapAll(segments, span), MapAll(genericArgs, ref), MapAll(bindings, Named()))
      case Reference(isMutable, lifetime, inner) => Reference(isMutable, MapOption(lifetime, ref), ref(inner))
      case Pointer(isMutable, inner) => Pointer(isMutable, ref(inner))
      case Array(elementType, size) => Array(ref(elementType), ref(size))
      case Slice(inner) => Slice(ref(inner))
      case Tuple(elements) => Tuple(MapAll(elements, ref))
      case FunctionType(params, returnType, isUnsafe) =>
        FunctionType(MapAll(params, ref), MapOption(returnType, ref), isUnsafe)
      case Never => Never
      case TraitObject(traitType) => TraitObject(ref(traitType))
      case Typeof(expr) => Typeof(ref(expr))
      case TypeMacroCall(name, path, delimiter, tokens, s) =>
        TypeMacroCall(name, MapAll(path, span), delimiter, tokens, span(s))
    }

    function Pattern(p: Pattern<R, X>): Pattern<R2, X2> {
      match p
      case Wildcard => Wildcard
      case LiteralPattern(token) => LiteralPattern(token)
      case IdentifierPattern(segments) => IdentifierPattern(MapAll(segments, span))
      case EnumPattern(path, elements) => EnumPattern(MapAll(path, span), MapAll(elements, ref))
      case TuplePattern(elements, hasRest) => TuplePattern(MapAll(elements, ref), hasRest)
      case StructPattern(path, fields, hasRest) => StructPattern(MapAll(path, span), MapAll(fields, PatternField()),
        hasRest)
    }

    function Node(n: Node<R, X>): Node<R2, X2> {
      match n
      case ExprNode(expr) => ExprNode(Expr(expr))
      case StmtNode(stmt) => StmtNode(Stmt(stmt))
      case DeclNode(decl) => DeclNode(Decl(decl))
      case TypeNode(ty) => TypeNode(Type(ty))
      case PatNode(pat) => PatNode(Pattern(pat))
    }
  }

  // ----- rewriting twice -----------------------------------------------------------------

  ghost predicate Follows<T(!new), U, V>(f: T -> U, g: U -> V, h: T -> V) {
    forall x :: g(f(x)) == h(x)
  }

  ghost predicate Composed<R(!new), X(!new), R1, X1, R2, X2>(
    m1: Maps<R, X, R1, X1>, m2: Maps<R1, X1, R2, X2>, m: Maps<R, X, R2, X2>) {
    Follows(m1.ref, m2.ref, m.ref) && Follows(m1.span, m2.span, m.span)
  }

  lemma AllFollow<T(!new), U, V>(f: T -> U, g: U -> V, h: T -> V)
    requires Follows(f, g, h)
    ensures forall xs: seq<T> :: MapAll(MapAll(xs, f), g) == MapAll(xs, h)
    ensures forall o: Option<T> :: MapOption(MapOption(o, f), g) == MapOption(o, h)
  {
    forall xs: seq<T> ensures MapAll(MapAll(xs, f), g) == MapAll(xs, h) {
      forall i | 0 <= i < |xs| ensures MapAll(MapAll(xs, f), g)[i] == MapAll(xs, h)[i] {
        assert g(f(xs[i])) == h(xs[i]);
      }
    }
    forall o: Option<T> ensures MapOption(MapOption(o, f), g) == MapOption(o, h) {
      if o.Some? { assert g(f(o.value)) == h(o.value); }
    }
  }

  lemma PartsCompose<R(!new), X(!new), R1, X1, R2, X2>(
    m1: Maps<R, X, R1, X1>, m2: Maps<R1, X1, R2, X2>, m: Maps<R, X, R2, X2>)
    requires Composed(m1, m2, m)
    ensures Follows(m1.Labelled(), m2.Labelled(), m.Labelled()) && Follows(m1.Named(), m2.Named(), m.Named())
    ensures Follows(m1.Arm(), m2.Arm(), m.Arm()) && Follows(m1.GenericParam(), m2.GenericParam(), m.GenericParam())
    ensures Follows(m1.PatternField(), m2.PatternField(), m.PatternField())
      && Follows(m1.Marks(), m2.Marks(), m.Marks())
  {
    AllFollow(m1.ref, m2.ref, m.ref);
    AllFollow(m1.span, m2.span, m.span);
    forall a ensures m2.Labelled()(m1.Labelled()(a)) == m.Labelled()(a) {
      assert m2.ref(m1.ref(a.value)) == m.ref(a.value);
    }
    forall a ensures m2.Named()(m1.Named()(a)) == m.Named()(a) {
      assert m2.ref(m1.ref(a.value)) == m.ref(a.value) && m2.span(m1.span(a.name)) == m.span(a.name);
    }
    forall a ensures m2.Arm()(m1.Arm()(a)) == m.Arm()(a) {
      assert m2.ref(m1.ref(a.pattern)) == m.ref(a.pattern) && m2.ref(m1.ref(a.body)) == m.ref(a.body);
    }
    forall g ensures m2.GenericParam()(m1.GenericParam()(g)) == m.GenericParam()(g) {
      assert m2.span(m1.span(g.name)) == m.span(g.name);
    }
    forall p ensures m2.PatternField()(m1.PatternField()(p)) == m.PatternField()(p) {
      assert m2.span(m1.span(p.name)) == m.span(p.name);
    }
    forall k ensures m2.Marks()(m1.Marks()(k)) == m.Marks()(k) {}
  }

  lemma AnnotationsCompose<R(!new), X(!new), R1, X1, R2, X2>(
    m1: Maps<R, X, R1, X1>, m2: Maps<R1, X1, R2, X2>, m: Maps<R, X, R2, X2>)
    requires Composed(m1, m2, m)
    ensures Follows(m1.Annotation(), m2.Annotation(), m.Annotation())
    ensures Follows(m1.Variant(), m2.Variant(), m.Variant())
    ensures forall h :: m2.Head(m1.Head(h)) == m.Head(h)
  {
    PartsCompose(m1, m2, m);
    AllFollow(m1.ref, m2.ref, m.ref);
    AllFollow(m1.Labelled(), m2.Labelled(), m.Labelled());
    forall a ensures m2.Annotation()(m1.Annotation()(a)) == m.Annotation()(a) {
      assert m2.span(m1.span(a.name)) == m.span(a.name);
    }
    AllFollow(m1.Annotation(), m2.Annotation(), m.Annotation());
    forall v ensures m2.Variant()(m1.Variant()(v)) == m.Variant()(v) {
      assert m2.span(m1.span(v.name)) == m.span(v.name);
    }
  }

  lemma ExprCompose<R(!new), X(!new), R1, X1, R2, X2>(
    m1: Maps<R, X, R1, X1>, m2: Maps<R1, X1, R2, X2>, m: Maps<R, X, R2, X2>, e: Expr<R, X>)
    requires Composed(m1, m2, m)
    ensures m2.Expr(m1.Expr(e)) == m.Expr(e)
  {
    hide MapAll, MapOption;
    PartsCompose(m1, m2, m);
    AllFollow(m1.ref, m2.ref, m.ref);
    AllFollow(m1.span, m2.span, m.span);
    AllFollow(m1.Labelled(), m2.Labelled(), m.Labelled());
    AllFollow(m1.Named(), m2.Named(), m.Named());
    AllFollow(m1.Arm(), m2.Arm(), m.Arm());
  }

  lemma StmtCompose<R(!new), X(!new), R1, X1, R2, X2>(
    m1: Maps<R, X, R1, X1>, m2: Maps<R1, X1, R2, X2>, m: Maps<R, X, R2, X2>, s: Stmt<R, X>)
    requires Composed(m1, m2, m)
    ensures m2.Stmt(m1.Stmt(s)) == m.Stmt(s)
  {
    hide MapAll, MapOption;
    AllFollow(m1.ref, m2.ref, m.ref);
    AllFollow(m1.span, m2.span, m.span);
  }

  lemma DeclCompose<R(!new), X(!new), R1, X1, R2, X2>(
    m1: Maps<R, X, R1, X1>, m2: Maps<R1, X1, R2, X2>, m: Maps<R, X, R2, X2>, d: Decl<R, X>)
    requires Composed(m1, m2, m)
    ensures m2.Decl(m1.Decl(d)) == m.Decl(d)
  {
    hide MapAll, MapOption;
    PartsCompose(m1, m2, m);
    AnnotationsCompose(m1, m2, m);
    AllFollow(m1.ref, m2.ref, m.ref);
    AllFollow(m1.span, m2.span, m.span);
    AllFollow(m1.Named(), m2.Named(), m.Named());
    AllFollow(m1.GenericParam(), m2.GenericParam(), m.GenericParam());
    AllFollow(m1.Variant(), m2.Variant(), m.Variant());
    AllFollow(m1.Marks(), m2.Marks(), m.Marks());
  }

  lemma TypeCompose<R(!new), X(!new), R1, X1, R2, X2>(
    m1: Maps<R, X, R1, X1>, m2: Maps<R1, X1, R2, X2>, m: Maps<R, X, R2, X2>, t: Type<R, X>)
    requires Composed(m1, m2, m)
    ensures m2.Type(m1.Type(t)) == m.Type(t)
  {
    hide MapAll, MapOption;
    PartsCompose(m1, m2, m);
    AllFollow(m1.ref, m2.ref, m.ref);
    AllFollow(m1.span, m2.span, m.span);
    AllFollow(m1.Named(), m2.Named(), m.Named());
  }

  lemma PatternCompose<R(!new), X(!new), R1, X1, R2, X2>(
    m1: Maps<R, X, R1, X1>, m2: Maps<R1, X1, R2, X2>, m: Maps<R, X, R2, X2>, p: Pattern<R, X>)
    requires Composed(m1, m2, m)
    ensures m2.Pattern(m1.Pattern(p)) == m.Pattern(p)
  {
    hide MapAll, MapOption;
    PartsCompose(m1, m2, m);
    AllFollow(m1.ref, m2.ref, m.ref);
    AllFollow(m1.span, m2.span, m.span);
    AllFollow(m1.PatternField(), m2.PatternField(), m.PatternField());
  }

  /** Rewriting a node twice is rewriting it once by the composed maps. */
  lemma NodeCompose<R(!new), X(!new), R1, X1, R2, X2>(
    m1: Maps<R, X, R1, X1>, m2: Maps<R1, X1, R2, X2>, m: Maps<R, X, R2, X2>, n: Node<R, X>)
    requires Composed(m1, m2, m)
    ensures m2.Node(m1.Node(n)) == m.Node(n)
  {
    hide Composed;
    match n
    case ExprNode(expr) => ExprCompose(m1, m2, m, expr);
    case StmtNode(stmt) => StmtCompose(m1, m2, m, stmt);
    case DeclNode(decl) => DeclCompose(m1, m2, m, decl);
    case TypeNode(ty) => TypeCompose(m1, m2, m, ty);
    case PatNode(pat) => PatternCompose(m1, m2, m, pat);
  }

  // ----- rewriting by nothing ------------------------------------------------------------

  ghost predicate Same<T(!new)>(f: T -> T) {
    forall x :: f(x) == x
  }

  ghost predicate Identity<R(!new), X(!new)>(m: Maps<R, X, R, X>) {
    Same(m.ref) && Same(m.span)
  }

  lemma AllSame<T(!new)>(f: T -> T)
    requires Same(f)
    ensures forall xs: seq<T> :: MapAll(xs, f) == xs
    ensures forall o: Option<T> :: MapOption(o, f) == o
  {
    forall xs: seq<T> ensures MapAll(xs, f) == xs {
      forall i | 0 <= i < |xs| ensures MapAll(xs, f)[i] == xs[i] {
        assert f(xs[i]) == xs[i];
      }
    }
    forall o: Option<T> ensures MapOption(o, f) == o {
      if o.Some? { assert f(o.value) == o.value; }
    }
  }

  lemma PartsSame<R(!new), X(!new)>(m: Maps<R, X, R, X>)
    requires Identity(m)
    ensures Same(m.Labelled()) && Same(m.Named()) && Same(m.Arm()) && Same(m.GenericParam())
    ensures Same(m.PatternField()) && Same(m.Marks())
  {
    hide MapAll, MapOption;
    AllSame(m.ref);
    AllSame(m.span);
    forall a ensures m.Labelled()(a) == a { assert m.ref(a.value) == a.value; }
    forall a ensures m.Named()(a) == a { assert m.ref(a.value) == a.value && m.span(a.name) == a.name; }
    forall a ensures m.Arm()(a) == a { assert m.ref(a.pattern) == a.pattern && m.ref(a.body) == a.body; }
    forall g ensures m.GenericParam()(g) == g { assert m.span(g.name) == g.name; }
    forall p ensures m.PatternField()(p) == p { assert m.span(p.name) == p.name; }
    forall k ensures m.Marks()(k) == k {}
  }

  lemma AnnotationsSame<R(!new), X(!new)>(m: Maps<R, X, R, X>)
    requires Identity(m)
    ensures Same(m.Annotation()) && Same(m.Variant()) && forall h :: m.Head(h) == h
  {
    hide MapAll, MapOption;
    PartsSame(m);
    AllSame(m.ref);
    AllSame(m.Labelled());
    forall a ensures m.Annotation()(a) == a { assert m.span(a.name) == a.name; }
    AllSame(m.Annotation());
    forall v ensures m.Variant()(v) == v { assert m.span(v.name) == v.name; }
  }

  lemma ExprSame<R(!new), X(!new)>(m: Maps<R, X, R, X>, e: Expr<R, X>)
    requires Identity(m)
    ensures m.Expr(e) == e
  {
    hide MapAll, MapOption;
    PartsSame(m);
    AllSame(m.ref);
    AllSame(m.span);
    AllSame(m.Labelled());
    AllSame(m.Named());
    AllSame(m.Arm());
  }

  lemma StmtSame<R(!new), X(!new)>(m: Maps<R, X, R, X>, s: Stmt<R, X>)
    requires Identity(m)
    ensures m.Stmt(s) == s
  {
    hide MapAll, MapOption;
    AllSame(m.ref);
    AllSame(m.span);
  }

  lemma DeclSame<R(!new), X(!new)>(m: Maps<R, X, R, X>, d: Decl<R, X>)
    requires Identity(m)
    ensures m.Decl(d) == d
  {
    hide MapAll, MapOption;
    PartsSame(m);
    AnnotationsSame(m);
    AllSame(m.ref);
    AllSame(m.span);
    AllSame(m.Named());
    AllSame(m.GenericParam());
    AllSame(m.Variant());
    AllSame(m.Marks());
  }

  lemma TypeSame<R(!new), X(!new)>(m: Maps<R, X, R, X>, t: Type<R, X>)
    requires Identity(m)
    ensures m.Type(t) == t
  {
    hide MapAll, MapOption;
    PartsSame(m);
    AllSame(m.ref);
    AllSame(m.span);
    AllSame(m.Named());
  }

  lemma PatternSame<R(!new), X(!new)>(m: Maps<R, X, R, X>, p: Pattern<R, X>)
    requires Identity(m)
    ensures m.Pattern(p) == p
  {
    hide MapAll, MapOption;
    PartsSame(m);
    AllSame(m.ref);
    AllSame(m.span);
    AllSame(m.PatternField());
  }

  /** Rewriting every reference and span to itself gives back the node: no part is dropped, repeated
      or moved, whatever the kind of node. */
  lemma NodeSame<R(!new), X(!new)>(m: Maps<R, X, R, X>, n: Node<R, X>)
    requires Identity(m)
    ensures m.Node(n) == n
  {
    hide Identity;
    match n
    case ExprNode(expr) => ExprSame(m, expr);
    case StmtNode(stmt) => StmtSame(m, stmt);
    case DeclNode(decl) => DeclSame(m, decl);
    case TypeNode(ty) => TypeSame(m, ty);
    case PatNode(pat) => PatternSame(m, pat);
  }
}
