/** The syntax tree's nodes.  A node holds references of type `R` to other nodes of the arena,
    and source spans of type `X`.  Spans of the fixed type `Span` are those that relocation does
    not visit. */
module Ast {
  import opened Wrappers

  datatype Span = Span(file: nat, start: nat, end: nat, ctxt: nat)

  datatype Kind = ExprKind | StmtKind | DeclKind | TypeKind | PatKind

  /** The id of a node: its number among the nodes of its kind. */
  datatype Ref = Ref(kind: Kind, id: nat)

  /** A call argument or an annotation's argument. */
  datatype Labelled<+R, +X> = Labelled(key: Option<X>, value: R)

  /** A field's initialiser, a field's type, or an associated type's binding. */
  datatype Named<+R, +X> = Named(name: X, value: R)

  datatype Arm<+R> = Arm(pattern: R, body: R)

  datatype Annotation<+R, +X> = Annotation(name: X, args: seq<Labelled<R, X>>)

  datatype GenericParam<+R, +X> = GenericParam(name: X, kind: string, bounds: seq<R>)

  datatype Variant<+R, +X> = Variant(annotations: seq<Annotation<R, X>>, name: X, fields: seq<R>)

  datatype PatternField<+R, +X> = PatternField(name: X, pattern: Option<R>)

  /** Parts that hold spans but no ids: lifetime signatures and contracts, and macro rules. */
  datatype Marks<+X> = Marks(text: string, spans: seq<X>)

  datatype Expr<+R, +X> =
    | Literal(token: Span, text: string)
    | Identifier(segments: seq<X>, genericArgs: seq<R>)
    | Binary(op: string, left: R, right: R)
    | Unary(op: string, operand: R)
    | Assign(op: string, lvalue: R, value: R)
    | Call(callee: R, genericArgs: seq<R>, args: seq<Labelled<R, X>>)
    | MethodCall(receiver: R, methodName: X, genericArgs: seq<R>, args: seq<Labelled<R, X>>)
    | Index(base: R, index: R)
    | Member(receiver: R, member: X)
    | TupleIndex(receiver: R, position: nat)
    | Cast(inner: R, targetType: R)
    | ArrayLiteral(elements: seq<R>)
    | TupleLiteral(elements: seq<R>)
    | StructInit(path: seq<X>, genericArgs: seq<R>, inits: seq<Named<R, X>>)
    | Match(matchSpan: X, subject: R, arms: seq<Arm<R>>)
    | Lambda(params: seq<R>, returnType: Option<R>, body: R, isMove: bool)
    | Try(inner: R, trySpan: Span)
    | Await(inner: R)
    | Sizeof(targetType: R)
    | Alignof(targetType: R)
    | MacroCall(name: X, path: seq<X>, delimiter: string, tokens: seq<Span>, span: X)
    | Comptime(body: R)

  datatype Stmt<+R, +X> =
    | Block(items: seq<R>, tail: Option<R>)
    | ExprStmt(expr: R, hasSemicolon: bool)
    | If(condition: R, thenBranch: R, elseBranch: Option<R>)
    | While(name: Option<X>, condition: R, body: R)
    | For(kind: string, name: Option<X>, pattern: Option<R>, iterable: Option<R>,
          init: Option<R>, cond: Option<R>, step: Option<R>, body: R)
    | Return(value: Option<R>)
    | Break(name: Option<X>)
    | Continue(name: Option<X>)
    | Unsafe(body: R)
    | ComptimeBlock(body: R)

  /** What all declarations but aliases of namespaces start with. */
  datatype Head<+R, +X> = Head(annotations: seq<Annotation<R, X>>, visibility: string, flags: seq<bool>)

  datatype Decl<+R, +X> =
    | Var(head: Head<R, X>, name: X, pattern: Option<R>, typeAnnot: Option<R>, initializer: Option<R>)
    | Param(head: Head<R, X>, name: X, typeAnnot: Option<R>)
    | Function(head: Head<R, X>, name: X, generics: seq<GenericParam<R, X>>, params: seq<R>,
               returnType: Option<R>, body: Option<R>, lifetimes: Marks<X>)
    | Struct(head: Head<R, X>, name: X, generics: seq<GenericParam<R, X>>, fields: seq<Named<R, X>>,
             contract: Option<Marks<X>>)
    | Enum(head: Head<R, X>, name: X, generics: seq<GenericParam<R, X>>, variants: seq<Variant<R, X>>)
    | Trait(head: Head<R, X>, name: X, generics: seq<GenericParam<R, X>>, associated: seq<R>,
            methods: seq<R>, supertraits: seq<R>)
    | Impl(head: Head<R, X>, generics: seq<GenericParam<R, X>>, selfType: R, traitType: Option<R>,
           associated: seq<R>, methods: seq<R>)
    | Import(head: Head<R, X>, name: X)
    | Module(head: Head<R, X>, name: X, items: seq<R>)
    | Using(path: seq<X>, alias: X, span: X)
    | Extern(head: Head<R, X>, func: R)
    | TypeAlias(head: Head<R, X>, name: X, generics: seq<GenericParam<R, X>>, bounds: seq<R>, aliased: Option<R>)
    | Macro(head: Head<R, X>, name: X, rules: seq<Marks<X>>)

  datatype Type<+R, +X> =
    | Builtin(builtin: string)
    | Lifetime(span: X)
    | NamedType(segments: seq<X>, genericArgs: seq<R>, bindings: seq<Named<R, X>>)
    | Reference(isMutable: bool, lifetime: Option<R>, inner: R)
    | Pointer(isMutable: bool, inner: R)
    | Array(elementType: R, size: R)
    | Slice(inner: R)
    | Tuple(elements: seq<R>)
    | FunctionType(params: seq<R>, returnType: Option<R>, isUnsafe: bool)
    | Never
    | TraitObject(traitType: R)
    | Typeof(expr: R)
    | TypeMacroCall(name: Span, path: seq<X>, delimiter: string, tokens: seq<Span>, span: X)

  datatype Pattern<+R, +X> =
    | Wildcard
    | LiteralPattern(token: Span)
    | IdentifierPattern(segments: seq<X>)
    | EnumPattern(path: seq<X>, elements: seq<R>)
    | TuplePattern(elements: seq<R>, hasRest: bool)
    | StructPattern(path: seq<X>, fields: seq<PatternField<R, X>>, hasRest: bool)

  datatype Node<+R, +X> =
    | ExprNode(expr: Expr<R, X>)
    | StmtNode(stmt: Stmt<R, X>)
    | DeclNode(decl: Decl<R, X>)
    | TypeNode(ty: Type<R, X>)
    | PatNode(pat: Pattern<R, X>)
}
