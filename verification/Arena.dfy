/** The arena of a syntax tree, its relocation, and its appending to another arena. */
module Arena {
  import opened Wrappers
  import opened Ast
  import opened Relocation

  datatype Contents = Contents(
    exprs: seq<Expr<Ref, Span>>, stmts: seq<Stmt<Ref, Span>>, decls: seq<Decl<Ref, Span>>,
    types: seq<Type<Ref, Span>>, pats: seq<Pattern<Ref, Span>>)

  function Size(a: Contents, kind: Kind): nat {
    match kind
    case ExprKind => |a.exprs|
    case StmtKind => |a.stmts|
    case DeclKind => |a.decls|
    case TypeKind => |a.types|
    case PatKind => |a.pats|
  }

  predicate InArena(a: Contents, ref: Ref) {
    ref.id < Size(a, ref.kind)
  }

  function NodeAt(a: Contents, ref: Ref): Node<Ref, Span>
    requires InArena(a, ref)
  {
    match ref.kind
    case ExprKind => ExprNode(a.exprs[ref.id])
    case StmtKind => StmtNode(a.stmts[ref.id])
    case DeclKind => DeclNode(a.decls[ref.id])
    case TypeKind => TypeNode(a.types[ref.id])
    case PatKind => PatNode(a.pats[ref.id])
  }

  /** One offset for each kind of id, and the file of the new spans. */
  datatype Relocator = Relocator(exprs: nat, stmts: nat, decls: nat, types: nat, pats: nat, file: nat) {
    function Offset(kind: Kind): nat {
      match kind
      case ExprKind => exprs
      case StmtKind => stmts
      case DeclKind => decls
      case TypeKind => types
      case PatKind => pats
    }

    function Shift(ref: Ref): Ref {
      ref.(id := ref.id + Offset(ref.kind))
    }

    function Move(span: Span): Span {
      span.(file := file)
    }

    function All(): Maps<Ref, Span, Ref, Span> {
      Maps((ref: Ref) => Shift(ref), (span: Span) => Move(span))
    }
  }

  function Relocated(a: Contents, r: Relocator): Contents {
    var m := r.All();
    Contents(seq(|a.exprs|, i requires 0 <= i < |a.exprs| => m.Expr(a.exprs[i])),
             seq(|a.stmts|, i requires 0 <= i < |a.stmts| => m.Stmt(a.stmts[i])),
             seq(|a.decls|, i requires 0 <= i < |a.decls| => m.Decl(a.decls[i])),
             seq(|a.types|, i requires 0 <= i < |a.types| => m.Type(a.types[i])),
             seq(|a.pats|, i requires 0 <= i < |a.pats| => m.Pattern(a.pats[i])))
  }

  function Appended(a: Contents, b: Contents): Contents {
    Contents(a.exprs + b.exprs, a.stmts + b.stmts, a.decls + b.decls, a.types + b.types, a.pats + b.pats)
  }

  /** The relocator that moves nodes behind those of `a`. */
  function Behind(a: Contents, file: nat): Relocator {
    Relocator(|a.exprs|, |a.stmts|, |a.decls|, |a.types|, |a.pats|, file)
  }

  /** Arena `a` with the nodes of `b`, relocated, behind its own. */
  function Combined(a: Contents, b: Contents, file: nat): Contents {
    Appended(a, Relocated(b, Behind(a, file)))
  }

  // ----- the arena as an object ----------------------------------------------------------

  class AstArena {
    var exprs: seq<Expr<Ref, Span>>
    var stmts: seq<Stmt<Ref, Span>>
    var decls: seq<Decl<Ref, Span>>
    var types: seq<Type<Ref, Span>>
    var pats: seq<Pattern<Ref, Span>>

    constructor ()
      ensures Value() == Contents([], [], [], [], [])
    {
      exprs, stmts, decls, types, pats := [], [], [], [], [];
    }

    function Value(): Contents reads this {
      Contents(exprs, stmts, decls, types, pats)
    }

    /** Rewrites every node in place. */
    method Relocate(r: Relocator)
      modifies this
      ensures Value() == Relocated(old(Value()), r)
    {
      var m := r.All();
      for i := 0 to |exprs|
        invariant |exprs| == |old(exprs)| && stmts == old(stmts) && decls == old(decls) && types == old(types)
          && pats == old(pats)
        invariant forall k :: 0 <= k < |exprs| ==> exprs[k] == if k < i then m.Expr(old(exprs)[k]) else old(exprs)[k]
      {
        exprs := exprs[i := m.Expr(exprs[i])];
      }
      assert exprs == Relocated(old(Value()), r).exprs;
      for i := 0 to |stmts|
        invariant exprs == Relocated(old(Value()), r).exprs && decls == old(decls) && types == old(types)
          && pats == old(pats)
        invariant |stmts| == |old(stmts)|
        invariant forall k :: 0 <= k < |stmts| ==> stmts[k] == if k < i then m.Stmt(old(stmts)[k]) else old(stmts)[k]
      {
        stmts := stmts[i := m.Stmt(stmts[i])];
      }
      assert stmts == Relocated(old(Value()), r).stmts;
      RelocateRest(r);
    }

    /** The declarations, types and patterns. */
    method RelocateRest(r: Relocator)
      modifies this
      ensures exprs == old(exprs) && stmts == old(stmts)
      ensures var moved := Relocated(old(Value()), r);
              decls == moved.decls && types == moved.types && pats == moved.pats
    {
      var m := r.All();
      for i := 0 to |decls|
        invariant |decls| == |old(decls)| && exprs == old(exprs) && stmts == old(stmts) && types == old(types)
          && pats == old(pats)
        invariant forall k :: 0 <= k < |decls| ==> decls[k] == if k < i then m.Decl(old(decls)[k]) else old(decls)[k]
      {
        decls := decls[i := m.Decl(decls[i])];
      }
      assert decls == Relocated(old(Value()), r).decls;
      for i := 0 to |types|
        invariant |types| == |old(types)| && exprs == old(exprs) && stmts == old(stmts) && pats == old(pats)
        invariant decls == Relocated(old(Value()), r).decls
        invariant forall k :: 0 <= k < |types| ==> types[k] == if k < i then m.Type(old(types)[k]) else old(types)[k]
      {
        types := types[i := m.Type(types[i])];
      }
      assert types == Relocated(old(Value()), r).types;
      for i := 0 to |pats|
        invariant |pats| == |old(pats)| && exprs == old(exprs) && stmts == old(stmts)
        invariant decls == Relocated(old(Value()), r).decls && types == Relocated(old(Value()), r).types
        invariant forall k :: 0 <= k < |pats| ==> pats[k] == if k < i then m.Pattern(old(pats)[k]) else old(pats)[k]
      {
        pats := pats[i := m.Pattern(pats[i])];
      }
      assert pats == Relocated(old(Value()), r).pats;
    }

    /** Takes all nodes of `other` over, behind the arena's own. */
    method Append(other: AstArena)
      requires other != this
      modifies this, other
      ensures Value() == Appended(old(Value()), old(other.Value()))
      ensures other.Value() == Contents([], [], [], [], [])
    {
      exprs, stmts, decls, types, pats :=
        exprs + other.exprs, stmts + other.stmts, decls + other.decls, types + other.types, pats + other.pats;
      other.exprs, other.stmts, other.decls, other.types, other.pats := [], [], [], [], [];
    }
  }

  /** An item of a program is a declaration or a statement. */
  predicate IsItem(ref: Ref) {
    ref.kind.DeclKind? || ref.kind.StmtKind?
  }

  /** What becomes of an item: declarations are shifted, statements keep their ids. */
  function MovedItem(r: Relocator, item: Ref): Ref {
    if item.kind.DeclKind? then r.Shift(item) else item
  }

  /** A provider's nodes get the provider's file, then places behind the global nodes.  Of its items
      only the declarations are shifted with them. */
  method MoveInto(global: AstArena, provider: AstArena, items: seq<Ref>, file: nat) returns (moved: seq<Ref>)
    requires global != provider && forall k :: 0 <= k < |items| ==> IsItem(items[k])
    modifies global, provider
    ensures global.Value() == Combined(old(global.Value()), old(provider.Value()), file)
    ensures provider.Value() == Contents([], [], [], [], [])
    ensures |moved| == |items|
    ensures forall k :: 0 <= k < |items| ==> moved[k] == MovedItem(Behind(old(global.Value()), file), items[k])
  {
    provider.Relocate(Relocator(0, 0, 0, 0, 0, file));
    var r := Behind(global.Value(), file);
    provider.Relocate(r);
    RelocatedTwice(old(provider.Value()), Relocator(0, 0, 0, 0, 0, file), r);
    moved := items;
    for i := 0 to |moved|
      invariant |moved| == |items|
      invariant forall k :: 0 <= k < |items| ==> moved[k] == if k < i then MovedItem(r, items[k]) else items[k]
    {
      if moved[i].kind.DeclKind? { moved := moved[i := r.Shift(moved[i])]; }
    }
    global.Append(provider);
  }

  // ----- relocating twice ----------------------------------------------------------------

  function Sum(r1: Relocator, r2: Relocator): Relocator {
    Relocator(r1.exprs + r2.exprs, r1.stmts + r2.stmts, r1.decls + r2.decls,
              r1.types + r2.types, r1.pats + r2.pats, r2.file)
  }

  lemma SumComposes(r1: Relocator, r2: Relocator)
    ensures Composed(r1.All(), r2.All(), Sum(r1, r2).All())
  {}

  /** Relocating twice is relocating once, by the sums of the offsets, to the last file. */
  lemma RelocatedTwice(a: Contents, r1: Relocator, r2: Relocator)
    ensures Relocated(Relocated(a, r1), r2) == Relocated(a, Sum(r1, r2))
  {
    var m1, m2, m := r1.All(), r2.All(), Sum(r1, r2).All();
    hide Relocator.All, Composed, Sum;
    SumComposes(r1, r2);
    forall i | 0 <= i < |a.exprs| ensures m2.Expr(m1.Expr(a.exprs[i])) == m.Expr(a.exprs[i]) {
      ExprCompose(m1, m2, m, a.exprs[i]);
    }
    forall i | 0 <= i < |a.stmts| ensures m2.Stmt(m1.Stmt(a.stmts[i])) == m.Stmt(a.stmts[i]) {
      StmtCompose(m1, m2, m, a.stmts[i]);
    }
    forall i | 0 <= i < |a.decls| ensures m2.Decl(m1.Decl(a.decls[i])) == m.Decl(a.decls[i]) {
      DeclCompose(m1, m2, m, a.decls[i]);
    }
    forall i | 0 <= i < |a.types| ensures m2.Type(m1.Type(a.types[i])) == m.Type(a.types[i]) {
      TypeCompose(m1, m2, m, a.types[i]);
    }
    forall i | 0 <= i < |a.pats| ensures m2.Pattern(m1.Pattern(a.pats[i])) == m.Pattern(a.pats[i]) {
      PatternCompose(m1, m2, m, a.pats[i]);
    }
  }

  // ----- unfolding -----------------------------------------------------------------------

  /** What a reference stands for, to a given depth: the node with its references unfolded.
      Visited spans keep their place but not their file. */
  datatype Tree = Cut | Dangling | Grown(node: Node<Tree, Span>)

  function Unfold(a: Contents, ref: Ref, depth: nat): Tree
    decreases depth, 0
  {
    if depth == 0 then Cut
    else if !InArena(a, ref) then Dangling
    else Grown(Unfolding(a, depth - 1).Node(NodeAt(a, ref)))
  }

  function Unfolding(a: Contents, depth: nat): Maps<Ref, Span, Tree, Span>
    decreases depth, 1
  {
    Maps((ref: Ref) => Unfold(a, ref, depth), (span: Span) => span.(file := 0))
  }

  lemma NodeMoved(a: Contents, b: Contents, file: nat, ref: Ref)
    ensures var c := Combined(a, b, file); var r := Behind(a, file);
            && (InArena(c, r.Shift(ref)) <==> InArena(b, ref))
            && (InArena(b, ref) ==> NodeAt(c, r.Shift(ref)) == r.All().Node(NodeAt(b, ref)))
  {
    hide Maps.Expr, Maps.Stmt, Maps.Decl, Maps.Type, Maps.Pattern, Relocator.All;
  }

  /** A provider's node stands, at its shifted id, for what it stood for. */
  lemma {:induction false} UnfoldMoved(a: Contents, b: Contents, file: nat, ref: Ref, depth: nat)
    ensures Unfold(Combined(a, b, file), Behind(a, file).Shift(ref), depth) == Unfold(b, ref, depth)
    decreases depth
  {
    hide Combined, Behind, InArena, NodeAt, Maps.Node;
    var c, r := Combined(a, b, file), Behind(a, file);
    NodeMoved(a, b, file, ref);
    if depth > 0 && InArena(b, ref) {
      forall k: Ref ensures Unfold(c, r.Shift(k), depth - 1) == Unfold(b, k, depth - 1) {
        UnfoldMoved(a, b, file, k, depth - 1);
      }
      NodeCompose(r.All(), Unfolding(c, depth - 1), Unfolding(b, depth - 1), NodeAt(b, ref));
    }
  }

  // ----- items ---------------------------------------------------------------------------

  /** The items all go where their nodes go if and only if no item is a statement or there were no
      global statements. */
  lemma ItemsFollowIff(a: Contents, file: nat, items: seq<Ref>)
    requires forall k :: 0 <= k < |items| ==> IsItem(items[k])
    ensures (forall k :: 0 <= k < |items| ==> MovedItem(Behind(a, file), items[k]) == Behind(a, file).Shift(items[k]))
      <==> a.stmts == [] || forall k :: 0 <= k < |items| ==> !items[k].kind.StmtKind?
  {
    if a.stmts != [] {
      forall k | 0 <= k < |items| && items[k].kind.StmtKind?
        ensures MovedItem(Behind(a, file), items[k]) != Behind(a, file).Shift(items[k]) {}
    }
  }

  /** What an item stands for when it has been moved: a declaration for what it stood for, but a
      statement for the global statement of the same number or, past the last of those, for the
      provider's statement that many places earlier. */
  lemma ItemStandsFor(a: Contents, b: Contents, file: nat, item: Ref, depth: nat)
    requires IsItem(item) && Closed(a)
    ensures Unfold(Combined(a, b, file), MovedItem(Behind(a, file), item), depth)
      == if item.kind.DeclKind? then Unfold(b, item, depth)
         else if item.id < |a.stmts| then Unfold(a, item, depth)
         else Unfold(b, Ref(StmtKind, item.id - |a.stmts|), depth)
  {
    var r := Behind(a, file);
    if item.kind.DeclKind? {
      UnfoldMoved(a, b, file, item, depth);
    } else if item.id < |a.stmts| {
      UnfoldKept(a, Relocated(b, r), item, depth);
    } else {
      UnfoldMoved(a, b, file, Ref(StmtKind, item.id - |a.stmts|), depth);
    }
  }

  /** With a global `break` the provider's top-level `continue` is taken for it. */
  lemma StatementMistaken(file: nat)
    ensures var a := Contents([], [Break(None)], [], [], []);
            var b := Contents([], [Continue(None)], [], [], []);
            var item := Ref(StmtKind, 0);
            Unfold(Combined(a, b, file), MovedItem(Behind(a, file), item), 1) != Unfold(b, item, 1)
  {
    var a := Contents([], [Break(None)], [], [], []);
    var b := Contents([], [Continue(None)], [], [], []);
    var item := Ref(StmtKind, 0);
    assert NodeAt(Combined(a, b, file), item) == StmtNode(Break(None));
    assert Unfold(Combined(a, b, file), item, 1) == Grown(StmtNode(Break(None)));
    assert Unfold(b, item, 1) == Grown(StmtNode(Continue(None)));
  }

  // ----- references in bounds ------------------------------------------------------------

  /** Marks the references that lead out of the arena. */
  function Marking(a: Contents): Maps<Ref, Span, Option<Ref>, Span> {
    Maps((ref: Ref) => if InArena(a, ref) then Some(ref) else None, (span: Span) => span)
  }

  function Unmarked(): Maps<Ref, Span, Option<Ref>, Span> {
    Maps((ref: Ref) => Some(ref), (span: Span) => span)
  }

  /** No reference of the node leads out of the arena. */
  ghost predicate Within(a: Contents, n: Node<Ref, Span>) {
    Marking(a).Node(n) == Unmarked().Node(n)
  }

  ghost predicate Closed(a: Contents) {
    forall ref | InArena(a, ref) :: Within(a, NodeAt(a, ref))
  }

  /** Two ways to rewrite a node agree when they agree on the references within the arena. */
  lemma AgreeWithin<T>(
      a: Contents, n: Node<Ref, Span>, m1: Maps<Ref, Span, T, Span>, m2: Maps<Ref, Span, T, Span>, other: T)
    requires Within(a, n)
    requires forall ref | InArena(a, ref) :: m1.ref(ref) == m2.ref(ref)
    requires forall span :: m1.span(span) == m2.span(span)
    ensures m1.Node(n) == m2.Node(n)
  {
    hide InArena, Maps.Node;
    var f1 := Maps((o: Option<Ref>) => if o.Some? then m1.ref(o.value) else other, m1.span);
    var f2 := Maps((o: Option<Ref>) => if o.Some? then m2.ref(o.value) else other, m2.span);
    var both := Maps((ref: Ref) => if InArena(a, ref) then m1.ref(ref) else other, m1.span);
    NodeCompose(Unmarked(), f1, m1, n);
    NodeCompose(Marking(a), f1, both, n);
    NodeCompose(Marking(a), f2, both, n);
    NodeCompose(Unmarked(), f2, m2, n);
  }

  /** Appending leaves a closed arena's own nodes standing for what they stood for. */
  lemma {:induction false} UnfoldKept(a: Contents, b: Contents, ref: Ref, depth: nat)
    requires Closed(a) && InArena(a, ref)
    ensures Unfold(Appended(a, b), ref, depth) == Unfold(a, ref, depth)
    decreases depth
  {
    hide Maps.Node, Within;
    if depth > 0 {
      var c := Appended(a, b);
      forall k | InArena(a, k) ensures Unfold(c, k, depth - 1) == Unfold(a, k, depth - 1) {
        UnfoldKept(a, b, k, depth - 1);
      }
      AgreeWithin(a, NodeAt(a, ref), Unfolding(c, depth - 1), Unfolding(a, depth - 1), Cut);
    }
  }

  /** A node of a closed arena, moved or kept, has all its references in the combined arena. */
  lemma WithinMoved(a: Contents, b: Contents, file: nat, n: Node<Ref, Span>)
    requires Within(b, n)
    ensures Within(Combined(a, b, file), Behind(a, file).All().Node(n))
  {
    hide Maps.Node, Combined, InArena;
    var c, r := Combined(a, b, file), Behind(a, file);
    var m1 := Maps((ref: Ref) => Marking(c).ref(r.Shift(ref)), (span: Span) => r.Move(span));
    var m2 := Maps((ref: Ref) => Unmarked().ref(r.Shift(ref)), (span: Span) => r.Move(span));
    forall ref | InArena(b, ref) ensures m1.ref(ref) == m2.ref(ref) {
      NodeMoved(a, b, file, ref);
      assert InArena(c, r.Shift(ref));
      assert m1.ref(ref) == Marking(c).ref(r.Shift(ref)) == Some(r.Shift(ref));
    }
    AgreeWithin(b, n, m1, m2, None);
    NodeCompose(r.All(), Marking(c), m1, n);
    NodeCompose(r.All(), Unmarked(), m2, n);
  }

  lemma WithinKept(a: Contents, b: Contents, n: Node<Ref, Span>)
    requires Within(a, n)
    ensures Within(Appended(a, b), n)
  {
    hide Maps.Node;
    AgreeWithin(a, n, Marking(Appended(a, b)), Unmarked(), None);
  }

  /** Every reference of the combined arena stays in bounds. */
  lemma ClosedCombined(a: Contents, b: Contents, file: nat)
    requires Closed(a) && Closed(b)
    ensures Closed(Combined(a, b, file))
  {
    hide Maps.Node, Within;
    var c, r := Combined(a, b, file), Behind(a, file);
    forall ref | InArena(c, ref) ensures Within(c, NodeAt(c, ref)) {
      if InArena(a, ref) {
        WithinKept(a, Relocated(b, r), NodeAt(a, ref));
      } else {
        var own := ref.(id := ref.id - r.Offset(ref.kind));
        NodeMoved(a, b, file, own);
        WithinMoved(a, b, file, NodeAt(b, own));
      }
    }
  }

  // ----- spans ---------------------------------------------------------------------------

  /** The spans that relocation does not visit. */
  function Overlooked<R, X>(n: Node<R, X>): seq<Span> {
    match n
    case ExprNode(Literal(token, _)) => [token]
    case ExprNode(Try(_, trySpan)) => [trySpan]
    case ExprNode(MacroCall(_, _, _, tokens, _)) => tokens
    case TypeNode(TypeMacroCall(name, _, _, tokens, _)) => [name] + tokens
    case PatNode(LiteralPattern(token)) => [token]
    case _ => []
  }

  ghost predicate AllIn(spans: seq<Span>, file: nat) {
    forall i :: 0 <= i < |spans| ==> spans[i].file == file
  }

  function Checking(file: nat): Maps<Ref, Span, Ref, bool> {
    Maps((ref: Ref) => ref, (span: Span) => span.file == file)
  }

  function AllTrue(): Maps<Ref, Span, Ref, bool> {
    Maps((ref: Ref) => ref, (span: Span) => true)
  }

  /** All spans of the node, visited or overlooked, lie in `file`. */
  ghost predicate WhollyIn(n: Node<Ref, Span>, file: nat) {
    Checking(file).Node(n) == AllTrue().Node(n) && AllIn(Overlooked(n), file)
  }

  /** Relocation moves a node wholly to the new file exactly when the spans it overlooks, those
      of literals, of `?`, of macro arguments and of a macro type's name, lie there already. */
  lemma WhollyMovedIff(n: Node<Ref, Span>, r: Relocator)
    ensures WhollyIn(r.All().Node(n), r.file) <==> AllIn(Overlooked(n), r.file)
  {
    var both := Maps((ref: Ref) => r.Shift(ref), (span: Span) => true);
    NodeCompose(r.All(), Checking(r.file), both, n);
    NodeCompose(r.All(), AllTrue(), both, n);
    OverlookedStay(n, r);
  }

  lemma OverlookedStay(n: Node<Ref, Span>, r: Relocator)
    ensures Overlooked(r.All().Node(n)) == Overlooked(n)
  {}
}
