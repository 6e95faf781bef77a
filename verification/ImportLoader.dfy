/** Import resolution: load-once, on a stack of what is being loaded, over files whose contents
    and whose fate in each compiler phase are given. */
module ImportLoader {
  import opened Wrappers
  import opened Names
  import Sets

  type Dir = string

  datatype ImportKind = ExternalImport | LocalImport
  datatype Import = Import(name: Name, kind: ImportKind)

  /** `Library` is a `.llib` file and `LegacyLibrary` a `.mlib` one. */
  datatype Format = Source | Library | LegacyLibrary
  datatype AstSection = Present | Missing | Corrupt

  datatype Component = Component(dir: Dir, format: Format, ast: AstSection, imports: seq<Import>)

  datatype Phase =
    | Open | Validate | ReadText | Parse | Annotate | ResolveNames | Typecheck | Revalidate | Metadata

  type Providers = map<Name, nat>

  /** `external` is what discovery finds, `local` what lies beside an importing file; `passes`
      says whether a component gets through a phase, given the providers registered by then. */
  datatype World = World(
    external: map<Name, Component>,
    internalNames: set<Name>,
    local: map<(Dir, Name), Component>,
    passes: (Component, Phase, Providers) -> bool)

  datatype Context = UserImport | SysrootDependency | Bootstrap | SysrootBuild

  predicate CanAccessInternal(context: Context) {
    context != UserImport
  }

  datatype Problem =
    | Cyclic(name: Name)
    | NotFound(name: Name)
    | Unresolved(name: Name)
    | Failed(name: Name, phase: Phase)
    | CorruptAst(name: Name)
    | MissingAst(name: Name)

  datatype LoadResult = Loaded(id: nat) | Rejected(problems: seq<Problem>)

  // ----- the import graph ----------------------------------------------------------------

  /** The component an import names, seen from the directory of the importing file. */
  function Target(w: World, dir: Dir, im: Import): Option<Component> {
    if im.kind == ExternalImport then
      if im.name in w.external then Some(w.external[im.name]) else None
    else
      if (dir, im.name) in w.local then Some(w.local[(dir, im.name)]) else None
  }

  predicate Mentions(c: Component, n: Name) {
    exists k :: 0 <= k < |c.imports| && c.imports[k].name == n
  }

  predicate ImportsAs(w: World, c: Component, n: Name, d: Component) {
    exists k :: 0 <= k < |c.imports| && c.imports[k].name == n && Target(w, c.dir, c.imports[k]) == Some(d)
  }

  /** What an import of the name may stand for, in some directory or by discovery. */
  ghost predicate IsCandidate(w: World, n: Name, c: Component) {
    (n in w.external && w.external[n] == c) || exists d :: (d, n) in w.local && w.local[(d, n)] == c
  }

  ghost predicate AllCandidates(w: World, made: map<Name, Component>) {
    forall n :: n in made ==> IsCandidate(w, n, made[n])
  }

  ghost predicate StackOfCandidates(w: World, names: seq<Name>, chain: seq<Component>) {
    |names| == |chain| && forall i :: 0 <= i < |names| ==> IsCandidate(w, names[i], chain[i])
  }

  lemma TargetIsCandidate(w: World, dir: Dir, im: Import, c: Component)
    requires Target(w, dir, im) == Some(c)
    ensures IsCandidate(w, im.name, c)
  {}

  lemma CandidateKnown(w: World, n: Name, c: Component)
    requires IsCandidate(w, n, c)
    ensures n in Universe(w)
  {
    if d :| (d, n) in w.local && w.local[(d, n)] == c { assert (d, n) in w.local.Keys; }
  }

  /** Components under their names, each importing the next. */
  ghost predicate ImportChain(w: World, names: seq<Name>, chain: seq<Component>) {
    && |names| == |chain|
    && forall i {:trigger Link(w, names, chain, i)} :: 0 <= i < |chain| - 1 ==> Link(w, names, chain, i)
  }

  ghost predicate Link(w: World, names: seq<Name>, chain: seq<Component>, i: int)
    requires |names| == |chain| && 0 <= i < |chain| - 1
  {
    ImportsAs(w, chain[i], names[i + 1], chain[i + 1])
  }

  lemma PushLink(w: World, names: seq<Name>, chain: seq<Component>, n: Name, c: Component)
    requires ImportChain(w, names, chain)
    requires chain != [] ==> ImportsAs(w, chain[|chain| - 1], n, c)
    ensures ImportChain(w, names + [n], chain + [c])
  {
    var names', chain' := names + [n], chain + [c];
    forall i | 0 <= i < |chain'| - 1 ensures Link(w, names', chain', i) {
      if i < |chain| - 1 { assert Link(w, names, chain, i); }
    }
  }

  lemma PopLink(w: World, names: seq<Name>, chain: seq<Component>)
    requires ImportChain(w, names, chain) && names != []
    ensures ImportChain(w, names[..|names| - 1], chain[..|chain| - 1])
  {
    var names', chain' := names[..|names| - 1], chain[..|chain| - 1];
    forall i | 0 <= i < |chain'| - 1 ensures Link(w, names', chain', i) {
      assert Link(w, names, chain, i);
    }
  }

  /** Some chain of imports starts at a component called `n` and ends at one that imports `n`. */
  ghost predicate OnCycle(w: World, n: Name) {
    exists names, chain :: CycleThrough(w, n, names, chain)
  }

  ghost predicate CycleThrough(w: World, n: Name, names: seq<Name>, chain: seq<Component>) {
    |names| > 0 && names[0] == n && ImportChain(w, names, chain) && Mentions(chain[|chain| - 1], n)
  }

  ghost predicate CyclesReal(w: World, problems: seq<Problem>) {
    forall i :: 0 <= i < |problems| && problems[i].Cyclic? ==> OnCycle(w, problems[i].name)
  }

  /** Names under which something can be loaded. */
  function Universe(w: World): set<Name> {
    w.external.Keys + (set k | k in w.local.Keys :: k.1)
  }

  /** The imports the loader resolves before it registers `c`: a legacy library without the AST
      section is decoded from its metadata, imports unread. */
  function ResolvedImports(c: Component): seq<Import> {
    if c.format == LegacyLibrary && c.ast == Missing then [] else c.imports
  }

  /** Each import of `c` is registered, with an id below `id`. */
  ghost predicate ImportsBelow(providers: Providers, c: Component, id: nat) {
    forall k :: 0 <= k < |ResolvedImports(c)| ==>
      ResolvedImports(c)[k].name in providers && providers[ResolvedImports(c)[k].name] < id
  }

  ghost predicate MadeInOrder(providers: Providers, made: map<Name, Component>) {
    made.Keys == providers.Keys && forall n :: n in made ==> ImportsBelow(providers, made[n], providers[n])
  }

  lemma MadeOneMore(providers: Providers, made: map<Name, Component>, name: Name, id: nat, c: Component)
    requires MadeInOrder(providers, made) && name !in providers && ImportsBelow(providers, c, id)
    ensures MadeInOrder(providers[name := id], made[name := c])
  {
    hide ResolvedImports;
    var providers', made' := providers[name := id], made[name := c];
    forall n | n in made' ensures ImportsBelow(providers', made'[n], providers'[n]) {
      assert ImportsBelow(providers, made'[n], providers'[n]);
    }
  }

  lemma AllBelow(providers: Providers, c: Component, id: nat)
    requires AllRegistered(providers, c.imports) && forall n :: n in providers ==> providers[n] < id
    ensures ImportsBelow(providers, c, id)
  {}

  ghost predicate AllRegistered(providers: Providers, imports: seq<Import>) {
    forall k :: 0 <= k < |imports| ==> imports[k].name in providers
  }

  class ModuleRegistry {
    var providers: Providers
    var localProviders: set<Name>
    var externalProviders: set<Name>
    var interfaces: map<nat, Name>
    var nextId: nat
    var loadingStack: seq<Name>
    /** The components on the loading stack, and the one each provider was made from. */
    ghost var loading: seq<Component>
    ghost var made: map<Name, Component>

    constructor ()
      ensures providers == map[] && localProviders == {} && externalProviders == {} && interfaces == map[]
      ensures nextId == 1 && loadingStack == [] && loading == [] && made == map[]
    {
      providers, localProviders, externalProviders, interfaces := map[], {}, {}, map[];
      nextId, loadingStack, loading, made := 1, [], [], map[];
    }

    ghost predicate IdsValid()
      reads this
    {
      && 1 <= nextId
      && (forall n :: n in providers ==> 1 <= providers[n] < nextId)
      && (forall n, m :: n in providers && m in providers && providers[n] == providers[m] ==> n == m)
      && (forall n :: n in providers ==> providers[n] in interfaces && interfaces[providers[n]] == n)
      && (forall i :: i in interfaces ==> i < nextId)
      && localProviders <= providers.Keys && externalProviders <= providers.Keys
    }

    ghost predicate StackValid(w: World)
      reads this
    {
      && NoRepeats(loadingStack) && Elements(loadingStack) <= Universe(w)
      && Elements(loadingStack) !! providers.Keys
      && ImportChain(w, loadingStack, loading) && StackOfCandidates(w, loadingStack, loading)
    }

    /** The state once the top of the stack has been registered. */
    ghost predicate TopRegistered(w: World)
      reads this
    {
      && IdsValid() && GraphValid() && AllCandidates(w, made)
      && loadingStack != [] && NoRepeats(loadingStack) && Elements(loadingStack) <= Universe(w)
      && Elements(loadingStack[..|loadingStack| - 1]) !! providers.Keys
      && ImportChain(w, loadingStack, loading) && StackOfCandidates(w, loadingStack, loading)
    }

    /** Every provider was made after all it imports. */
    ghost predicate GraphValid()
      reads this
    {
      MadeInOrder(providers, made)
    }

    ghost predicate Valid(w: World)
      reads this
    {
      IdsValid() && StackValid(w) && GraphValid() && AllCandidates(w, made)
    }

    /** `name`, standing for `c`, is something the component on top of the stack imports. */
    ghost predicate Wanted(w: World, name: Name, c: Component)
      reads this
    {
      loading != [] ==> ImportsAs(w, loading[|loading| - 1], name, c)
    }

    predicate IsLoading(name: Name)
      reads this
    {
      name in loadingStack
    }

    method StartLoading(name: Name, ghost c: Component, ghost w: World)
      requires Valid(w) && IsCandidate(w, name, c) && !IsLoading(name) && name !in providers
      requires Wanted(w, name, c)
      modifies this`loadingStack, this`loading
      ensures Valid(w) && loadingStack == old(loadingStack) + [name] && loading == old(loading) + [c]
    {
      hide IsCandidate, Universe;
      CandidateKnown(w, name, c);
      PushLink(w, loadingStack, loading, name, c);
      loadingStack := loadingStack + [name];
      loading := loading + [c];
      assert Elements(loadingStack) == Elements(old(loadingStack)) + {name};
    }

    method FinishLoading(ghost w: World)
      requires loadingStack != [] && (Valid(w) || TopRegistered(w))
      modifies this`loadingStack, this`loading
      ensures Valid(w)
      ensures loadingStack == old(loadingStack)[..|old(loadingStack)| - 1]
        && loading == old(loading)[..|old(loading)| - 1]
    {
      assert |loading| == |loadingStack|;
      hide ImportChain, MadeInOrder, IsCandidate;
      PopLink(w, loadingStack, loading);
      assert Elements(loadingStack[..|loadingStack| - 1]) <= Elements(loadingStack);
      loadingStack := loadingStack[..|loadingStack| - 1];
      loading := loading[..|loading| - 1];
      assert Elements(loadingStack) <= Elements(old(loadingStack));
      assert Elements(loadingStack) !! providers.Keys;
    }

    lemma Fits(w: World)
      requires Valid(w)
      ensures |loadingStack| <= |Universe(w)| && |loading| == |loadingStack|
    {
      StackFits(w, loadingStack);
    }

    lemma TopIsCandidate(w: World)
      requires Valid(w) && loadingStack != []
      ensures |loading| == |loadingStack| && IsCandidate(w, loadingStack[|loadingStack| - 1], loading[|loading| - 1])
    {}

    lemma LocalsAreProviders(w: World)
      requires Valid(w)
      ensures localProviders <= providers.Keys
    {}

    lemma LoadingNotRegistered(w: World, n: Name)
      requires Valid(w) && n in loadingStack
      ensures n !in providers && |loading| == |loadingStack| && made.Keys == providers.Keys
    {
      assert n in Elements(loadingStack);
    }

    lemma MadeAll(w: World)
      requires Valid(w)
      ensures made.Keys == providers.Keys
    {}

    /** A name being loaded that the component on top imports closes a cycle. */
    lemma ClosesCycle(w: World, im: Import)
      requires Valid(w) && im.name in loadingStack
      requires loading != [] ==> im in loading[|loading| - 1].imports
      ensures OnCycle(w, im.name)
    {
      CycleFromStack(w, loadingStack, loading, im.name, im);
    }

    lemma ClosesCycleAs(w: World, n: Name, c: Component)
      requires Valid(w) && n in loadingStack && Wanted(w, n, c)
      ensures OnCycle(w, n)
    {
      CycleWanted(w, loadingStack, loading, n, c);
    }

    lemma Imported(w: World, dir: Dir, im: Import, c: Component)
      requires Target(w, dir, im) == Some(c)
      requires loading != [] ==> im in loading[|loading| - 1].imports && loading[|loading| - 1].dir == dir
      ensures Wanted(w, im.name, c) && IsCandidate(w, im.name, c)
    {
      TargetIsCandidate(w, dir, im, c);
      if loading != [] {
        var top := loading[|loading| - 1];
        var k :| 0 <= k < |top.imports| && top.imports[k] == im;
        assert top.imports[k].name == im.name;
      }
    }

    method AllocateId(ghost w: World) returns (id: nat)
      requires Valid(w)
      modifies this`nextId
      ensures Valid(w) && id == old(nextId) && nextId == id + 1 && id !in interfaces && 1 <= id
      ensures forall n :: n in providers ==> providers[n] < id
    {
      id := nextId;
      nextId := nextId + 1;
    }

    /** Registers under the id allocated last. */
    method Register(name: Name, id: nat, ghost c: Component)
      requires IdsValid() && GraphValid() && name !in providers && id + 1 == nextId && 1 <= id
      requires id !in interfaces && ImportsBelow(providers, c, id)
      modifies this`providers, this`interfaces, this`made
      ensures IdsValid() && GraphValid()
      ensures providers == old(providers)[name := id] && interfaces == old(interfaces)[id := name]
        && made == old(made)[name := c]
    {
      hide ImportsBelow, MadeInOrder;
      MadeOneMore(providers, made, name, id, c);
      providers := providers[name := id];
      interfaces := interfaces[id := name];
      made := made[name := c];
    }

    method RegisterExternal(name: Name, id: nat, ghost c: Component, ghost w: World)
      requires Valid(w) && loadingStack != [] && loadingStack[|loadingStack| - 1] == name
      requires IsCandidate(w, name, c)
      requires id + 1 == nextId && 1 <= id && id !in interfaces && ImportsBelow(providers, c, id)
      modifies this`providers, this`interfaces, this`made, this`externalProviders
      ensures TopRegistered(w)
      ensures providers == old(providers)[name := id] && made == old(made)[name := c]
    {
      hide ImportChain, MadeInOrder, ImportsBelow, IsCandidate;
      TopLeaves(loadingStack);
      Register(name, id, c);
      externalProviders := externalProviders + {name};
    }

    /** A library whose imports are not looked at. */
    method RegisterLegacy(name: Name, id: nat, ghost c: Component, ghost w: World)
      requires Valid(w) && name !in providers && name !in loadingStack && IsCandidate(w, name, c)
      requires id + 1 == nextId && 1 <= id && id !in interfaces && ResolvedImports(c) == []
      modifies this`providers, this`interfaces, this`made
      ensures Valid(w)
      ensures providers == old(providers)[name := id] && made == old(made)[name := c]
    {
      hide ImportChain, IsCandidate;
      Register(name, id, c);
    }

    method AddLocal(name: Name, ghost w: World)
      requires Valid(w) && name in providers
      modifies this`localProviders
      ensures Valid(w) && localProviders == old(localProviders) + {name}
    {
      hide ImportChain, MadeInOrder, AllCandidates, StackOfCandidates, Universe;
      localProviders := localProviders + {name};
    }
  }

  /** Providers keep their ids and what they were made from, new ones get new ids, and the
      loading stack is as it was. */
  twostate predicate Grew(registry: ModuleRegistry)
    reads registry
  {
    registry.loadingStack == old(registry.loadingStack) && registry.loading == old(registry.loading)
      && GrewProviders(registry)
  }

  twostate predicate GrewProviders(registry: ModuleRegistry)
    reads registry
  {
    && old(registry.nextId) <= registry.nextId
    && old(registry.localProviders) <= registry.localProviders
    && (forall n :: n in old(registry.providers) ==>
          n in registry.providers && registry.providers[n] == old(registry.providers)[n])
    && (forall n :: n in old(registry.made) ==> n in registry.made && registry.made[n] == old(registry.made)[n])
    && (forall n :: n in registry.providers && n !in old(registry.providers) ==>
          old(registry.nextId) <= registry.providers[n])
  }

  /** As `Grew`, except that the top of the loading stack is gone. */
  twostate predicate Popped(registry: ModuleRegistry)
    reads registry
  {
    && old(registry.loadingStack) != [] && |old(registry.loading)| == |old(registry.loadingStack)|
    && registry.loadingStack == old(registry.loadingStack)[..|old(registry.loadingStack)| - 1]
    && registry.loading == old(registry.loading)[..|old(registry.loading)| - 1]
    && GrewProviders(registry)
  }

  /** A name on the stack that the top component imports closes a cycle. */
  lemma TopLeaves(names: seq<Name>)
    requires names != [] && NoRepeats(names)
    ensures names[|names| - 1] in Elements(names)
    ensures Elements(names[..|names| - 1]) <= Elements(names) - {names[|names| - 1]}
  {}

  lemma CycleFromStack(w: World, names: seq<Name>, chain: seq<Component>, n: Name, im: Import)
    requires ImportChain(w, names, chain) && n in names
    requires im in chain[|chain| - 1].imports && im.name == n
    ensures OnCycle(w, n)
  {
    var i :| 0 <= i < |names| && names[i] == n;
    var names', chain' := names[i..], chain[i..];
    forall k | 0 <= k < |chain'| - 1 ensures Link(w, names', chain', k) {
      assert Link(w, names, chain, i + k);
    }
    assert CycleThrough(w, n, names', chain');
  }

  lemma CycleWanted(w: World, names: seq<Name>, chain: seq<Component>, n: Name, d: Component)
    requires ImportChain(w, names, chain) && n in names
    requires ImportsAs(w, chain[|chain| - 1], n, d)
    ensures OnCycle(w, n)
  {
    var imports := chain[|chain| - 1].imports;
    var k :| 0 <= k < |imports| && imports[k].name == n;
    CycleFromStack(w, names, chain, n, imports[k]);
  }

  lemma StackFits(w: World, names: seq<Name>)
    requires NoRepeats(names) && Elements(names) <= Universe(w)
    ensures |names| <= |Universe(w)|
  {
    ElementCount(names);
    Sets.SubsetSize(Elements(names), Universe(w));
  }

  class DriverSession {
    const w: World
    const registry: ModuleRegistry

    constructor (w: World)
      ensures this.w == w && fresh(registry) && registry.Valid(w)
      ensures registry.loadingStack == [] && registry.providers == map[]
    {
      this.w := w;
      registry := new ModuleRegistry();
      new;
      assert Elements(registry.loadingStack) == {};
    }

    /** Loading a legacy library does not look at the loading stack: its callers have. */
    ghost predicate Loadable(name: Name, c: Component)
      reads registry
    {
      c.format == LegacyLibrary && c.ast == Missing ==> !registry.IsLoading(name)
    }

    ghost function Room(): int
      reads registry
    {
      |Universe(w)| - |registry.loadingStack|
    }

    ghost predicate Outcome(name: Name, r: LoadResult)
      reads registry
    {
      match r
      case Loaded(id) => name in registry.providers && registry.providers[name] == id
      case Rejected(problems) => problems != [] && CyclesReal(w, problems)
    }

    /** A name that is loaded only now is made from the component given. */
    twostate predicate MadeFrom(name: Name, c: Component, r: LoadResult)
      reads registry
    {
      r.Loaded? && name !in old(registry.providers) ==> name in registry.made && registry.made[name] == c
    }

    ghost predicate MadeIs(name: Name, c: Component, r: LoadResult)
      reads registry
    {
      r.Loaded? ==> name in registry.made && registry.made[name] == c
    }

    method LoadPackage(name: Name, context: Context) returns (r: LoadResult)
      requires registry.Valid(w)
      requires name in w.external ==> registry.Wanted(w, name, w.external[name]) && Loadable(name, w.external[name])
      modifies registry
      ensures registry.Valid(w) && Grew(registry) && Outcome(name, r)
      ensures r.Loaded? && name !in old(registry.providers) ==>
        name in w.external && MadeFrom(name, w.external[name], r)
      decreases Room(), 3
    {
      hide ModuleRegistry.Valid, ImportsAs, OnCycle;
      if name in w.internalNames && !CanAccessInternal(context) {
        return Rejected([NotFound(name)]);
      }
      if name in registry.providers {
        return Loaded(registry.providers[name]);
      }
      if name !in w.external {
        return Rejected([NotFound(name)]);
      }
      r := LoadComponent(name, w.external[name]);
    }

    method LoadComponent(name: Name, c: Component) returns (r: LoadResult)
      requires registry.Valid(w) && IsCandidate(w, name, c) && registry.Wanted(w, name, c) && Loadable(name, c)
      modifies registry
      ensures registry.Valid(w) && Grew(registry) && Outcome(name, r) && MadeFrom(name, c, r)
      decreases Room(), 2
    {
      hide ModuleRegistry.Valid, ModuleRegistry.Wanted, OnCycle, Universe;
      if name in registry.providers {
        return Loaded(registry.providers[name]);
      }
      if c.format != Source {
        r := LoadBinaryComponent(name, c);
        return;
      }
      if registry.IsLoading(name) {
        registry.ClosesCycleAs(w, name, c);
        return Rejected([Cyclic(name)]);
      }
      registry.StartLoading(name, c, w);
      registry.Fits(w);
      r := LoadSource(name, c);
    }

    /** Reads and parses a file on top of the loading stack and loads what it imports. */
    method LoadSource(name: Name, c: Component) returns (r: LoadResult)
      requires registry.Valid(w) && OnTop(name, c)
      modifies registry
      ensures registry.Valid(w) && Popped(registry) && Outcome(name, r) && MadeIs(name, c, r)
      decreases Room(), 6
    {
      hide ModuleRegistry.Valid, OnCycle, Universe;
      if !w.passes(c, ReadText, registry.providers) {
        r := GiveUp([Failed(name, ReadText)]);
        return;
      }
      if !w.passes(c, Parse, registry.providers) {
        r := GiveUp([Failed(name, Parse)]);
        return;
      }
      var problems := ResolveCollectedImports(c.imports, c.dir, SysrootDependency);
      if problems != [] {
        r := GiveUp(problems);
        return;
      }
      if !w.passes(c, Annotate, registry.providers) {
        r := GiveUp([Failed(name, Annotate)]);
        return;
      }
      r := Analyse(name, c);
    }

    /** Loads what a library on top of the loading stack imports. */
    method LoadLibrary(name: Name, c: Component) returns (r: LoadResult)
      requires registry.Valid(w) && OnTop(name, c)
      modifies registry
      ensures registry.Valid(w) && Popped(registry) && Outcome(name, r) && MadeIs(name, c, r)
      decreases Room(), 6
    {
      hide ModuleRegistry.Valid, OnCycle, Universe;
      var problems := ResolveCollectedImports(c.imports, c.dir, SysrootDependency);
      if problems != [] {
        r := GiveUp(problems);
        return;
      }
      if !w.passes(c, Revalidate, registry.providers) {
        r := GiveUp([Failed(name, Revalidate)]);
        return;
      }
      r := Analyse(name, c);
    }

    ghost predicate OnTop(name: Name, c: Component)
      reads registry
    {
      && registry.loadingStack != [] && registry.loadingStack[|registry.loadingStack| - 1] == name
      && |registry.loading| == |registry.loadingStack| && registry.loading[|registry.loading| - 1] == c
    }

    /** Leaves the loading stack with a failure. */
    method GiveUp(problems: seq<Problem>) returns (r: LoadResult)
      requires registry.Valid(w) && registry.loadingStack != [] && |registry.loading| == |registry.loadingStack|
      requires problems != [] && CyclesReal(w, problems)
      modifies registry
      ensures registry.Valid(w) && Popped(registry) && r == Rejected(problems)
    {
      hide ModuleRegistry.Valid;
      registry.FinishLoading(w);
      return Rejected(problems);
    }

    /** The end of a load: names and types are checked, the provider is registered. */
    method Analyse(name: Name, c: Component) returns (r: LoadResult)
      requires registry.Valid(w) && OnTop(name, c)
      requires AllRegistered(registry.providers, c.imports)
      modifies registry
      ensures registry.Valid(w) && Popped(registry) && Outcome(name, r) && MadeIs(name, c, r)
    {
      hide ModuleRegistry.Valid, OnCycle, ImportsBelow, AllRegistered;
      registry.LoadingNotRegistered(w, name);
      registry.TopIsCandidate(w);
      var id := registry.AllocateId(w);
      if !w.passes(c, ResolveNames, registry.providers) {
        r := GiveUp([Failed(name, ResolveNames)]);
        return;
      }
      if !w.passes(c, Typecheck, registry.providers) {
        r := GiveUp([Failed(name, Typecheck)]);
        return;
      }
      AllBelow(registry.providers, c, id);
      r := Complete(name, id, c);
    }

    method Complete(name: Name, id: nat, c: Component) returns (r: LoadResult)
      requires registry.Valid(w) && OnTop(name, c) && name !in registry.providers && IsCandidate(w, name, c)
      requires id + 1 == registry.nextId && 1 <= id && id !in registry.interfaces
      requires ImportsBelow(registry.providers, c, id)
      modifies registry
      ensures registry.Valid(w) && name in registry.providers && r == Loaded(registry.providers[name])
      ensures registry.providers == old(registry.providers)[name := id] && registry.nextId == old(registry.nextId)
      ensures registry.made.Keys == old(registry.made.Keys) + {name} && registry.made == old(registry.made)[name := c]
      ensures registry.localProviders == old(registry.localProviders)
      ensures registry.loadingStack == old(registry.loadingStack)[..|old(registry.loadingStack)| - 1]
      ensures registry.loading == old(registry.loading)[..|old(registry.loading)| - 1]
    {
      hide ModuleRegistry.Valid, ModuleRegistry.TopRegistered, ImportsBelow;
      registry.RegisterExternal(name, id, c, w);
      registry.FinishLoading(w);
      return Loaded(id);
    }

    method LoadBinaryComponent(name: Name, c: Component) returns (r: LoadResult)
      requires registry.Valid(w) && IsCandidate(w, name, c) && registry.Wanted(w, name, c) && Loadable(name, c)
      requires name !in registry.providers && c.format != Source
      modifies registry
      ensures registry.Valid(w) && Grew(registry) && Outcome(name, r) && MadeFrom(name, c, r)
      decreases Room(), 1
    {
      hide ModuleRegistry.Valid, ModuleRegistry.Wanted, OnCycle, Universe;
      if !w.passes(c, Open, registry.providers) {
        return Rejected([Failed(name, Open)]);
      }
      if !w.passes(c, Validate, registry.providers) {
        return Rejected([Failed(name, Validate)]);
      }
      if c.ast == Corrupt {
        return Rejected([CorruptAst(name)]);
      }
      if c.ast == Present {
        if registry.IsLoading(name) {
          registry.ClosesCycleAs(w, name, c);
          return Rejected([Cyclic(name)]);
        }
        registry.StartLoading(name, c, w);
        registry.Fits(w);
        r := LoadLibrary(name, c);
        return;
      }
      if c.format != LegacyLibrary {
        return Rejected([MissingAst(name)]);
      }
      r := LoadLegacy(name, c);
    }

    method LoadLegacy(name: Name, c: Component) returns (r: LoadResult)
      requires registry.Valid(w) && c.format == LegacyLibrary && c.ast == Missing
      requires name !in registry.providers && !registry.IsLoading(name) && IsCandidate(w, name, c)
      modifies registry
      ensures registry.Valid(w) && Grew(registry) && Outcome(name, r) && MadeFrom(name, c, r)
    {
      hide ModuleRegistry.Valid, OnCycle;
      if !w.passes(c, Metadata, registry.providers) {
        return Rejected([Failed(name, Metadata)]);
      }
      registry.MadeAll(w);
      var id := registry.AllocateId(w);
      registry.RegisterLegacy(name, id, c, w);
      return Loaded(id);
    }

    /** Resolves the imports of a file in `dir`. When no problem is reported every import has been
        registered; a reported cycle is one of the import graph. */
    method ResolveCollectedImports(imports: seq<Import>, dir: Dir, context: Context) returns (problems: seq<Problem>)
      requires registry.Valid(w)
      requires registry.loading != [] ==>
        registry.loading[|registry.loading| - 1].imports == imports
          && registry.loading[|registry.loading| - 1].dir == dir
      modifies registry
      ensures registry.Valid(w) && Grew(registry)
      ensures problems == [] ==> AllRegistered(registry.providers, imports)
      ensures CyclesReal(w, problems)
      decreases Room(), 5
    {
      hide ModuleRegistry.Valid, ImportsAs, OnCycle, Universe;
      problems := [];
      for i := 0 to |imports|
        invariant registry.Valid(w) && Grew(registry)
        invariant problems == [] ==> AllRegistered(registry.providers, imports[..i])
        invariant CyclesReal(w, problems)
      {
        var more := ResolveImport(imports[i], dir, context);
        problems := problems + more;
      }
    }

    method ResolveImport(im: Import, dir: Dir, context: Context) returns (problems: seq<Problem>)
      requires registry.Valid(w)
      requires registry.loading != [] ==>
        im in registry.loading[|registry.loading| - 1].imports && registry.loading[|registry.loading| - 1].dir == dir
      modifies registry
      ensures registry.Valid(w) && Grew(registry)
      ensures problems == [] ==> im.name in registry.providers
      ensures problems == [] && im.name !in old(registry.providers) ==>
        im.name in registry.made && Target(w, dir, im) == Some(registry.made[im.name])
      ensures im.kind.LocalImport? && im.name in old(registry.localProviders) ==> problems == []
      ensures im.kind.LocalImport? && problems == [] ==> im.name in registry.localProviders
      ensures CyclesReal(w, problems)
      decreases Room(), 4
    {
      hide ModuleRegistry.Valid, ImportsAs, OnCycle, Universe;
      if im.kind == ExternalImport {
        if registry.IsLoading(im.name) {
          registry.ClosesCycle(w, im);
          return [Cyclic(im.name)];
        }
        if im.name in w.external { registry.Imported(w, dir, im, w.external[im.name]); }
        var r := LoadPackage(im.name, context);
        return if r.Loaded? then [] else r.problems;
      }
      if im.name in registry.localProviders {
        registry.LocalsAreProviders(w);
        return [];
      }
      if registry.IsLoading(im.name) {
        registry.ClosesCycle(w, im);
        return [Cyclic(im.name)];
      }
      if (dir, im.name) !in w.local {
        return [Unresolved(im.name)];
      }
      registry.Imported(w, dir, im, w.local[(dir, im.name)]);
      var r := LoadComponent(im.name, w.local[(dir, im.name)]);
      if r.Rejected? {
        return r.problems;
      }
      registry.AddLocal(im.name, w);
      return [];
    }
  }

  // ----- which file a name stands for ----------------------------------------------------

  /** No name has two files that an import of it may mean. */
  ghost predicate NamesUnique(w: World) {
    forall n, c, d :: IsCandidate(w, n, c) && IsCandidate(w, n, d) ==> c == d
  }

  /** Whatever has been loaded, an import of a registered name finds what was made from the file that
      it means. */
  ghost predicate FindsOwn(w: World) {
    forall made, dir, im, c :: AllCandidates(w, made) && Target(w, dir, im) == Some(c) && im.name in made ==>
      made[im.name] == c
  }

  /** Loading once by name is loading once by file if and only if names are unique. */
  lemma FindsOwnIffUnique(w: World)
    ensures FindsOwn(w) <==> NamesUnique(w)
  {
    if FindsOwn(w) {
      forall n, c, d | IsCandidate(w, n, c) && IsCandidate(w, n, d) ensures c == d {
        var made := map[n := c];
        assert AllCandidates(w, made);
        if n in w.external && w.external[n] == d {
          assert Target(w, "", Import(n, ExternalImport)) == Some(d);
        } else {
          var dir :| (dir, n) in w.local && w.local[(dir, n)] == d;
          assert Target(w, dir, Import(n, LocalImport)) == Some(d);
        }
      }
    }
    if NamesUnique(w) {
      forall made, dir, im, c | AllCandidates(w, made) && Target(w, dir, im) == Some(c) && im.name in made
        ensures made[im.name] == c
      {
        TargetIsCandidate(w, dir, im, c);
      }
    }
  }

  /** Two local modules of one name, imported from two directories: when the first import is resolved
      so is the second, and both stand for the first directory's file. */
  method ResolveBoth(session: DriverSession, n: Name, first: Dir, second: Dir, context: Context)
    returns (problems: seq<Problem>, more: seq<Problem>)
    requires session.registry.Valid(session.w) && session.registry.loading == [] && n !in session.registry.providers
    requires (first, n) in session.w.local && (second, n) in session.w.local
    modifies session.registry
    ensures problems == [] ==>
      more == [] && n in session.registry.made && session.registry.made[n] == session.w.local[(first, n)]
  {
    hide ModuleRegistry.Valid;
    problems := session.ResolveImport(Import(n, LocalImport), first, context);
    more := session.ResolveImport(Import(n, LocalImport), second, context);
  }

  // ----- what a registry without problems means ------------------------------------------

  predicate Needs(made: map<Name, Component>, n: Name, m: Name) {
    n in made && exists k :: 0 <= k < |ResolvedImports(made[n])| && ResolvedImports(made[n])[k].name == m
  }

  /** A walk along the imports of the components that providers were made from. */
  ghost predicate ImportWalk(made: map<Name, Component>, names: seq<Name>) {
    |names| > 0 && forall i :: 0 <= i < |names| - 1 ==> Needs(made, names[i], names[i + 1])
  }

  /** Along the imports of a registered provider every name is registered, with ever smaller
      ids: what it reaches is all loaded, and no walk of imports can go on for long. */
  lemma {:induction false} WalkDescends(providers: Providers, made: map<Name, Component>, names: seq<Name>, i: nat)
    requires MadeInOrder(providers, made) && ImportWalk(made, names)
    requires names[0] in providers && i < |names|
    ensures names[i] in providers && providers[names[i]] + i <= providers[names[0]]
  {
    if i > 0 {
      WalkDescends(providers, made, names, i - 1);
      var n := names[i - 1];
      assert Needs(made, n, names[i]);
      assert ImportsBelow(providers, made[n], providers[n]);
    }
  }

  /** The imports that were resolved without a problem reach registered providers only, and
      nothing they reach imports itself, directly or through others. */
  lemma LoadedIsAcyclic(
      providers: Providers, made: map<Name, Component>, imports: seq<Import>, k: nat, names: seq<Name>, i: nat, j: nat)
    requires MadeInOrder(providers, made) && AllRegistered(providers, imports) && k < |imports|
    requires ImportWalk(made, names) && names[0] == imports[k].name && i < j < |names|
    ensures names[j] in providers && names[i] != names[j]
  {
    var rest := names[i..];
    WalkDescends(providers, made, names, i);
    WalkDescends(providers, made, names, j);
    assert ImportWalk(made, rest) by {
      forall l | 0 <= l < |rest| - 1 ensures Needs(made, rest[l], rest[l + 1]) {
        assert Needs(made, names[i + l], names[i + l + 1]);
      }
    }
    WalkDescends(providers, made, rest, j - i);
  }
}
