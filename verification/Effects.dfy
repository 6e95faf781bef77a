/** What a call may do to its arguments and where its result may come from: the effect
    lattices, their orders and their merges. */
module Effects {
  import opened Wrappers

  datatype Ordering = Less | Equal | Greater

  datatype AccessKind = NoAccess | Read | Write | ReadWrite | UnknownAccess
  datatype OwnershipKind = Copy | BorrowShared | BorrowMut | Consume | UnknownOwnership
  datatype EscapeKind = NoEscape | CallOnly | MayEscape | UnknownEscape

  /** Argument positions, as lists. */
  datatype ReturnEffect =
    | Independent
    | BorrowsFrom(indices: seq<nat>)
    | BorrowsCarried(indices: seq<nat>)
    | UnknownReturn

  datatype ArgEffect = ArgEffect(access: AccessKind, ownership: OwnershipKind, escape: EscapeKind)
  datatype Summary = Summary(args: seq<ArgEffect>, ret: ReturnEffect, isOpaque: bool)

  // ----- orders --------------------------------------------------------------------------

  function AccessCmp(a: AccessKind, b: AccessKind): Option<Ordering> {
    if a == b then Some(Equal)
    else match (a, b)
      case (NoAccess, _) => Some(Less)
      case (_, UnknownAccess) => Some(Less)
      case (UnknownAccess, _) => Some(Greater)
      case (_, NoAccess) => Some(Greater)
      case (Read, ReadWrite) => Some(Less)
      case (Write, ReadWrite) => Some(Less)
      case (ReadWrite, Read) => Some(Greater)
      case (ReadWrite, Write) => Some(Greater)
      case _ => None
  }

  function OwnershipRank(o: OwnershipKind): nat {
    match o
    case Copy => 0
    case BorrowShared => 1
    case BorrowMut => 2
    case Consume => 3
    case UnknownOwnership => 4
  }

  function EscapeRank(e: EscapeKind): nat {
    match e
    case NoEscape => 0
    case CallOnly => 1
    case MayEscape => 2
    case UnknownEscape => 3
  }

  function NatCmp(a: nat, b: nat): Ordering {
    if a < b then Less else if a == b then Equal else Greater
  }

  predicate Within(a: seq<nat>, b: seq<nat>) {
    forall x :: x in a ==> x in b
  }

  function SubsetCmp(a: seq<nat>, b: seq<nat>): Option<Ordering> {
    if Within(a, b) && Within(b, a) then Some(Equal)
    else if Within(a, b) then Some(Less)
    else if Within(b, a) then Some(Greater)
    else None
  }

  function ReturnCmp(a: ReturnEffect, b: ReturnEffect): Option<Ordering> {
    if a == b then Some(Equal)
    else match (a, b)
      case (Independent, _) => Some(Less)
      case (_, Independent) => Some(Greater)
      case (UnknownReturn, _) => Some(Greater)
      case (_, UnknownReturn) => Some(Less)
      case (BorrowsFrom(x), BorrowsFrom(y)) => SubsetCmp(x, y)
      case (BorrowsCarried(x), BorrowsCarried(y)) => SubsetCmp(x, y)
      case _ => None
  }

  /** The verdict of a field-by-field comparison. */
  function Verdict(hasLess: bool, hasGreater: bool): Option<Ordering> {
    if hasLess && hasGreater then None
    else if hasLess then Some(Less)
    else if hasGreater then Some(Greater)
    else Some(Equal)
  }

  function ArgCmp(a: ArgEffect, b: ArgEffect): Option<Ordering> {
    var access := AccessCmp(a.access, b.access);
    var ownership := NatCmp(OwnershipRank(a.ownership), OwnershipRank(b.ownership));
    var escape := NatCmp(EscapeRank(a.escape), EscapeRank(b.escape));
    if access.None? then None
    else Verdict(access.value.Less? || ownership.Less? || escape.Less?,
                 access.value.Greater? || ownership.Greater? || escape.Greater?)
  }

  /** Below or equal in a comparison. */
  predicate Below(c: Option<Ordering>) {
    c == Some(Less) || c == Some(Equal)
  }

  predicate Above(c: Option<Ordering>) {
    c == Some(Greater) || c == Some(Equal)
  }

  predicate ArgLeq(a: ArgEffect, b: ArgEffect) {
    Below(ArgCmp(a, b))
  }

  predicate ReturnLeq(a: ReturnEffect, b: ReturnEffect) {
    Below(ReturnCmp(a, b))
  }

  /** The order on summaries, position by position. */
  ghost predicate Leq(a: Summary, b: Summary) {
    && |a.args| == |b.args|
    && (forall i :: 0 <= i < |a.args| ==> ArgLeq(a.args[i], b.args[i]))
    && ReturnLeq(a.ret, b.ret)
  }

  /** The comparison of argument effects is a partial order. */
  lemma ArgOrder(a: ArgEffect, b: ArgEffect, c: ArgEffect)
    ensures ArgLeq(a, a)
    ensures ArgLeq(a, b) && ArgLeq(b, c) ==> ArgLeq(a, c)
    ensures ArgLeq(a, b) && ArgLeq(b, a) ==> a == b
    ensures Above(ArgCmp(a, b)) <==> ArgLeq(b, a)
  {}

  /** The order itself: reads and writes below both together, borrows below giving away, and what is
      not known above everything. */
  lemma ArgOrderIs(a: ArgEffect, b: ArgEffect)
    ensures ArgLeq(a, b) <==>
      && (a.access == b.access || a.access == NoAccess || b.access == UnknownAccess
          || (a.access in {Read, Write} && b.access == ReadWrite))
      && (a.ownership == b.ownership || a.ownership == Copy || b.ownership == UnknownOwnership
          || (a.ownership == BorrowShared && b.ownership in {BorrowMut, Consume})
          || (a.ownership == BorrowMut && b.ownership == Consume))
      && (a.escape == b.escape || a.escape == NoEscape || b.escape == UnknownEscape
          || (a.escape == CallOnly && b.escape == MayEscape))
  {}

  lemma ReturnOrder(a: ReturnEffect, b: ReturnEffect, c: ReturnEffect)
    ensures ReturnLeq(a, a)
    ensures ReturnLeq(a, b) && ReturnLeq(b, c) ==> ReturnLeq(a, c)
    ensures Above(ReturnCmp(a, b)) <==> ReturnLeq(b, a)
  {}

  lemma ReturnOrderIs(a: ReturnEffect, b: ReturnEffect)
    ensures ReturnLeq(a, b) <==>
      || a == b || a == Independent || b == UnknownReturn
      || (a.BorrowsFrom? && b.BorrowsFrom? && forall x :: x in a.indices ==> x in b.indices)
      || (a.BorrowsCarried? && b.BorrowsCarried? && forall x :: x in a.indices ==> x in b.indices)
  {}

  lemma LeqReflexive(a: Summary)
    ensures Leq(a, a)
  {
    forall i | 0 <= i < |a.args| ensures ArgLeq(a.args[i], a.args[i]) {
      ArgOrder(a.args[i], a.args[i], a.args[i]);
    }
  }

  lemma LeqTransitive(a: Summary, b: Summary, c: Summary)
    requires Leq(a, b) && Leq(b, c)
    ensures Leq(a, c)
  {
    forall i | 0 <= i < |a.args| ensures ArgLeq(a.args[i], c.args[i]) {
      ArgOrder(a.args[i], b.args[i], c.args[i]);
    }
    ReturnOrder(a.ret, b.ret, c.ret);
  }

  /** The comparison loop decides the order in both directions; it answers nothing exactly when
      the two are incomparable. */
  method SummaryCmp(a: Summary, b: Summary) returns (r: Option<Ordering>)
    ensures Below(r) <==> Leq(a, b)
    ensures Above(r) <==> Leq(b, a)
  {
    if |a.args| != |b.args| { return None; }
    var hasLess, hasGreater := false, false;
    var i := 0;
    while i < |a.args|
      invariant 0 <= i <= |a.args|
      invariant !hasGreater <==> forall j :: 0 <= j < i ==> ArgLeq(a.args[j], b.args[j])
      invariant !hasLess <==> forall j :: 0 <= j < i ==> ArgLeq(b.args[j], a.args[j])
    {
      ArgOrder(a.args[i], b.args[i], a.args[i]);
      match ArgCmp(a.args[i], b.args[i]) {
        case Some(Less) => hasLess := true;
        case Some(Greater) => hasGreater := true;
        case None => return None;
        case Some(Equal) =>
      }
      i := i + 1;
    }
    ReturnOrder(a.ret, b.ret, a.ret);
    match ReturnCmp(a.ret, b.ret) {
      case Some(Less) => hasLess := true;
      case Some(Greater) => hasGreater := true;
      case None => return None;
      case Some(Equal) =>
    }
    return Verdict(hasLess, hasGreater);
  }

  // ----- merges --------------------------------------------------------------------------

  function AccessMerge(a: AccessKind, b: AccessKind): AccessKind {
    match (a, b)
    case (UnknownAccess, _) => UnknownAccess
    case (_, UnknownAccess) => UnknownAccess
    case (ReadWrite, _) => ReadWrite
    case (_, ReadWrite) => ReadWrite
    case (Read, Write) => ReadWrite
    case (Write, Read) => ReadWrite
    case (Read, _) => Read
    case (_, Read) => Read
    case (Write, _) => Write
    case (_, Write) => Write
    case (NoAccess, NoAccess) => NoAccess
  }

  function OwnershipMerge(a: OwnershipKind, b: OwnershipKind): OwnershipKind {
    if OwnershipRank(a) > OwnershipRank(b) then a else b
  }

  function EscapeMerge(a: EscapeKind, b: EscapeKind): EscapeKind {
    if EscapeRank(a) > EscapeRank(b) then a else b
  }

  function ArgMerge(a: ArgEffect, b: ArgEffect): ArgEffect {
    ArgEffect(AccessMerge(a.access, b.access), OwnershipMerge(a.ownership, b.ownership),
      EscapeMerge(a.escape, b.escape))
  }

  /** The argument merge is the least upper bound. */
  lemma ArgMergeIsJoin(a: ArgEffect, b: ArgEffect, c: ArgEffect)
    ensures ArgLeq(a, ArgMerge(a, b)) && ArgLeq(b, ArgMerge(a, b))
    ensures ArgLeq(a, c) && ArgLeq(b, c) ==> ArgLeq(ArgMerge(a, b), c)
  {}

  function PushMissing(a: seq<nat>, b: seq<nat>): seq<nat>
    decreases |b|
  {
    if b == [] then a
    else if b[0] in a then PushMissing(a, b[1..])
    else PushMissing(a + [b[0]], b[1..])
  }

  function Insert(x: nat, s: seq<nat>): seq<nat> {
    if s == [] then [x] else if x <= s[0] then [x] + s else [s[0]] + Insert(x, s[1..])
  }

  function SortIndices(s: seq<nat>): seq<nat> {
    if s == [] then [] else Insert(s[0], SortIndices(s[1..]))
  }

  function MergeIndices(a: seq<nat>, b: seq<nat>): seq<nat> {
    SortIndices(PushMissing(a, b))
  }

  function ReturnMerge(a: ReturnEffect, b: ReturnEffect): ReturnEffect {
    match (a, b)
    case (UnknownReturn, _) => UnknownReturn
    case (_, UnknownReturn) => UnknownReturn
    case (BorrowsFrom(x), BorrowsFrom(y)) => BorrowsFrom(MergeIndices(x, y))
    case (BorrowsCarried(x), BorrowsCarried(y)) => BorrowsCarried(MergeIndices(x, y))
    case (BorrowsFrom(_), BorrowsCarried(_)) => a
    case (BorrowsCarried(_), BorrowsFrom(_)) => b
    case (_, Independent) => a
    case (Independent, _) => b
  }

  ghost predicate Strict(s: seq<nat>) {
    forall i, j :: 0 <= i < j < |s| ==> s[i] < s[j]
  }

  lemma {:induction false} PushMissingHas(a: seq<nat>, b: seq<nat>, x: nat)
    ensures x in PushMissing(a, b) <==> x in a || x in b
    decreases |b|
  {
    if b != [] {
      assert b == [b[0]] + b[1..];
      PushMissingHas(if b[0] in a then a else a + [b[0]], b[1..], x);
    }
  }

  ghost predicate NoRepeats(s: seq<nat>) {
    forall i, j :: 0 <= i < j < |s| ==> s[i] != s[j]
  }

  lemma {:induction false} PushMissingNoRepeats(a: seq<nat>, b: seq<nat>)
    requires NoRepeats(a)
    ensures NoRepeats(PushMissing(a, b))
    decreases |b|
  {
    if b != [] {
      PushMissingNoRepeats(if b[0] in a then a else a + [b[0]], b[1..]);
    }
  }

  lemma {:induction false} InsertHas(x: nat, s: seq<nat>, y: nat)
    ensures y in Insert(x, s) <==> y == x || y in s
  {
    if s != [] && x > s[0] {
      InsertHas(x, s[1..], y);
      assert s == [s[0]] + s[1..];
    }
  }

  lemma {:induction false} InsertStrict(x: nat, s: seq<nat>)
    requires Strict(s) && x !in s
    ensures Strict(Insert(x, s))
  {
    if s != [] && x > s[0] {
      InsertStrict(x, s[1..]);
      var r := Insert(x, s[1..]);
      forall j | 0 <= j < |r| ensures s[0] < r[j] {
        InsertHas(x, s[1..], r[j]);
        if r[j] != x {
          var i :| 0 <= i < |s[1..]| && s[1..][i] == r[j];
          assert s[i + 1] == r[j];
        }
      }
    }
  }

  lemma {:induction false} SortHas(s: seq<nat>, y: nat)
    ensures y in SortIndices(s) <==> y in s
  {
    if s != [] {
      SortHas(s[1..], y);
      InsertHas(s[0], SortIndices(s[1..]), y);
      assert s == [s[0]] + s[1..];
    }
  }

  lemma {:induction false} SortStrict(s: seq<nat>)
    requires NoRepeats(s)
    ensures Strict(SortIndices(s))
  {
    if s != [] {
      assert forall i, j :: 0 <= i < j < |s[1..]| ==> s[1..][i] == s[i + 1] && s[1..][j] == s[j + 1];
      SortStrict(s[1..]);
      SortHas(s[1..], s[0]);
      InsertStrict(s[0], SortIndices(s[1..]));
    }
  }

  /** Merging index lists unites them, and keeps sorted repeat-free lists so. */
  lemma MergeIndicesUnites(a: seq<nat>, b: seq<nat>)
    ensures forall x :: x in MergeIndices(a, b) <==> x in a || x in b
    ensures Strict(a) ==> Strict(MergeIndices(a, b))
  {
    forall x ensures x in MergeIndices(a, b) <==> x in a || x in b {
      SortHas(PushMissing(a, b), x);
      PushMissingHas(a, b, x);
    }
    if Strict(a) {
      PushMissingNoRepeats(a, b);
      SortStrict(PushMissing(a, b));
    }
  }

  /** One result borrows an argument and the other what an argument carries. */
  predicate Mixed(a: ReturnEffect, b: ReturnEffect) {
    (a.BorrowsFrom? && b.BorrowsCarried?) || (a.BorrowsCarried? && b.BorrowsFrom?)
  }

  /** The merge of two return effects is above both exactly when they do not mix a borrow of an
      argument with a borrow of what it carries; it is then the least such effect. */
  lemma ReturnMergeIsJoinUnlessMixed(a: ReturnEffect, b: ReturnEffect, c: ReturnEffect)
    ensures ReturnLeq(a, ReturnMerge(a, b)) && ReturnLeq(b, ReturnMerge(a, b)) <==> !Mixed(a, b)
    ensures !Mixed(a, b) && ReturnLeq(a, c) && ReturnLeq(b, c) ==> ReturnLeq(ReturnMerge(a, b), c)
    ensures Mixed(a, b) ==> ReturnMerge(a, b) == if a.BorrowsFrom? then a else b
  {
    if (a.BorrowsFrom? && b.BorrowsFrom?) || (a.BorrowsCarried? && b.BorrowsCarried?) {
      MergeIndicesUnites(a.indices, b.indices);
    }
  }

  /** The merge is not monotone: raising one operand from independent to a borrow of argument 0
      loses the borrow of what argument 1 carries. */
  lemma ReturnMergeNotMonotone()
    ensures var low, high, other := Independent, BorrowsFrom([0]), BorrowsCarried([1]);
            ReturnLeq(low, high) && !ReturnLeq(ReturnMerge(low, other), ReturnMerge(high, other))
  {}

  // ----- height --------------------------------------------------------------------------

  function AccessHeight(a: AccessKind): nat {
    match a
    case NoAccess => 0
    case Read => 1
    case Write => 1
    case ReadWrite => 2
    case UnknownAccess => 3
  }

  function ArgHeight(a: ArgEffect): (h: nat)
    ensures h <= 10
  {
    AccessHeight(a.access) + OwnershipRank(a.ownership) + EscapeRank(a.escape)
  }

  function ReturnHeight(r: ReturnEffect, n: nat): nat {
    match r
    case Independent => 0
    case BorrowsFrom(indices) => 1 + |indices|
    case BorrowsCarried(indices) => 1 + |indices|
    case UnknownReturn => n + 2
  }

  ghost predicate ReturnShaped(r: ReturnEffect, n: nat) {
    (r.BorrowsFrom? || r.BorrowsCarried?) ==>
      Strict(r.indices) && forall i :: 0 <= i < |r.indices| ==> r.indices[i] < n
  }

  /** Summaries as inference builds them for a function of `n` arguments. */
  ghost predicate Shaped(s: Summary, n: nat) {
    |s.args| == n && !s.isOpaque && ReturnShaped(s.ret, n)
  }

  lemma {:induction false} StrictCount(a: seq<nat>, b: seq<nat>)
    requires Strict(a) && Strict(b) && Within(a, b)
    ensures |a| <= |b| && (|a| == |b| ==> a == b)
    decreases |b|
  {
    if a != [] {
      assert a[0] in b;
      var k :| 0 <= k < |b| && b[k] == a[0];
      var rest := b[1..];
      assert b == [b[0]] + rest;
      if k == 0 {
        forall x | x in a[1..] ensures x in rest {
          var i :| 0 <= i < |a[1..]| && a[1..][i] == x;
          assert a[i + 1] == x && x in b && x != b[0];
        }
        StrictCount(a[1..], rest);
        assert a == [a[0]] + a[1..];
      } else {
        forall x | x in a ensures x in rest {
          var i :| 0 <= i < |a| && a[i] == x;
          assert b[0] < a[0] <= x && x in b;
        }
        StrictCount(a, rest);
      }
    }
  }

  lemma {:induction false} StrictBounded(a: seq<nat>, n: nat)
    requires Strict(a) && forall i :: 0 <= i < |a| ==> a[i] < n
    ensures |a| <= n
  {
    if a != [] {
      StrictBounded(a[..|a| - 1], a[|a| - 1]);
    }
  }

  function ArgsHeight(args: seq<ArgEffect>): (h: nat)
    ensures h <= 10 * |args|
  {
    if args == [] then 0 else ArgHeight(args[0]) + ArgsHeight(args[1..])
  }

  function Height(s: Summary, n: nat): nat {
    ArgsHeight(s.args) + ReturnHeight(s.ret, n)
  }

  lemma ArgHeightRises(a: ArgEffect, b: ArgEffect)
    requires ArgLeq(a, b)
    ensures ArgHeight(a) <= ArgHeight(b) && (ArgHeight(a) == ArgHeight(b) ==> a == b)
  {}

  lemma {:induction false} ArgsHeightRises(a: seq<ArgEffect>, b: seq<ArgEffect>)
    requires |a| == |b| && forall i :: 0 <= i < |a| ==> ArgLeq(a[i], b[i])
    ensures ArgsHeight(a) <= ArgsHeight(b)
    ensures ArgsHeight(a) == ArgsHeight(b) ==> a == b
  {
    hide ArgLeq;
    if a != [] {
      ArgsHeightRises(a[1..], b[1..]);
      ArgHeightRises(a[0], b[0]);
      assert a == [a[0]] + a[1..] && b == [b[0]] + b[1..];
    }
  }

  lemma ReturnHeightRises(a: ReturnEffect, b: ReturnEffect, n: nat)
    requires ReturnShaped(a, n) && ReturnShaped(b, n) && ReturnLeq(a, b)
    ensures ReturnHeight(a, n) <= ReturnHeight(b, n) <= n + 2
    ensures ReturnHeight(a, n) == ReturnHeight(b, n) ==> a == b
  {
    if b.BorrowsFrom? || b.BorrowsCarried? {
      StrictBounded(b.indices, n);
    }
    if a.BorrowsFrom? || a.BorrowsCarried? {
      StrictBounded(a.indices, n);
      if b.BorrowsFrom? || b.BorrowsCarried? {
        StrictCount(a.indices, b.indices);
      }
    }
  }

  /** Between shaped summaries, going up raises the height, which is bounded. */
  lemma HeightRises(a: Summary, b: Summary, n: nat)
    requires Shaped(a, n) && Shaped(b, n) && Leq(a, b)
    ensures Height(a, n) <= Height(b, n) <= 11 * n + 2
    ensures Height(a, n) == Height(b, n) ==> a == b
  {
    ArgsHeightRises(a.args, b.args);
    ReturnHeightRises(a.ret, b.ret, n);
  }

  function DefaultArg(): ArgEffect {
    ArgEffect(NoAccess, Copy, CallOnly)
  }

  function DefaultFor(n: nat): Summary {
    Summary(seq(n, i => DefaultArg()), Independent, false)
  }
}
