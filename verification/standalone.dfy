/** The standalone mixin of a component: the request lifecycle run when a
    request enters a component, the authorize-only access check, render
    finalization, and the `standalone` DSL that accumulates configurations. */
module Standalone {
  import opened Common
  import opened ConfigTree

  /** A leaf of a standalone configuration: a block or a scalar such as a
      layout name or a path. */
  datatype Value = BlockValue(block: Block) | Text(text: string)

  /** A standalone configuration: nested Symbol/`nil`-keyed hashes. */
  type Conf = Tree<Key, Value>

  /** `@standalone_configs`: one configuration per standalone name. */
  type Configs = map<Key, Conf>

  type CompId = nat

  /** The component instance a request is dispatched to. */
  datatype Component = Component(id: CompId, parent: Option<CompId>)

  /** The blocks of one verb as the lifecycle reads them. */
  datatype VerbConfig = VerbConfig(
    loadData: Option<Block>,
    assignAttributes: Option<Block>,
    authorize: Option<Block>,
    storeData: Option<Block>,
    respondBlocks: map<Key, Block>)

  /** `global_after_load_data_block` and `global_after_assign_attributes_block`. */
  datatype GlobalHooks = GlobalHooks(afterLoadData: Option<Block>, afterAssignAttributes: Option<Block>)

  /** What the controller contributes: the request format's symbol (`nil`
      for an unknown format) and the value the authorize block evaluates to. */
  datatype Request = Request(format: Key, authorized: bool)

  datatype Phase =
    | LoadData | AfterLoadData | AssignAttributes | AfterAssignAttributes
    | Authorize | StoreData | Respond

  /** One evaluation of a block in the request context; `backfire` tells
      `evaluate_with_backfire` from `evaluate`. */
  datatype Evaluation = Evaluation(phase: Phase, block: Block, backfire: bool)

  datatype Error =
    | RootConflict(attempted: CompId, existing: CompId)
    | AccessDenied(component: CompId)
    | NilBlock(phase: Phase)
    | MissingStandaloneConfig(reported: Option<Name>)
    | MissingVerb(verb: string)

  /** The outcome of a dispatch: the evaluations performed, the root marker
      afterwards, and the respond block evaluated last or the error raised. */
  datatype Dispatched = Dispatched(trace: seq<Evaluation>, root: Option<CompId>, outcome: Result<Block, Error>)

  /** The outcome of an access check: the evaluations performed and the
      authorize result or the error raised. */
  datatype AccessCheck = AccessCheck(trace: seq<Evaluation>, result: Result<bool, Error>)

  /** A `status:` argument: an Integer or a Symbol such as `:unprocessable_entity`. */
  datatype Status = Code(code: nat) | Named(sym: string)

  /** One `controller.render(html:, layout:, status:)` call. */
  datatype Emission = Emission(html: string, layout: Option<Conf>, status: Option<Status>)

  // ---------------------------------------------------------------------
  // Reading a verb configuration out of a configuration tree
  // ---------------------------------------------------------------------

  /** The block stored under `field`, if that entry is a block. */
  function BlockAt(t: Conf, field: string): Option<Block>
  {
    var entry := Lookup(t, [SymKey(field)]);
    if entry.Some? && entry.value.Leaf? && entry.value.value.BlockValue? then Some(entry.value.value.block)
    else None
  }

  /** The respond blocks keyed by format symbol (or `nil`). */
  function RespondBlocksOf(t: Conf): (m: map<Key, Block>)
    ensures forall k :: k in m ==> Lookup(t, [SymKey("respond_blocks"), k]) == Some(Leaf(BlockValue(m[k])))
    ensures forall k, b :: Lookup(t, [SymKey("respond_blocks"), k]) == Some(Leaf(BlockValue(b))) ==> k in m
  {
    var entry := Lookup(t, [SymKey("respond_blocks")]);
    forall k ensures Lookup(t, [SymKey("respond_blocks"), k]) ==
      (if entry.Some? && entry.value.Node? && k in entry.value.children then Some(entry.value.children[k]) else None)
    {
      LookupTwo(t, SymKey("respond_blocks"), k);
      if entry.Some? { LookupOne(entry.value, k); }
    }
    if entry.Some? && entry.value.Node? then
      var rb := entry.value.children;
      map k | k in rb && rb[k].Leaf? && rb[k].value.BlockValue? :: rb[k].value.block
    else map[]
  }

  /** The verb configuration a verb's configuration hash describes. */
  function VerbConfigOf(t: Conf): VerbConfig
  {
    VerbConfig(BlockAt(t, "load_data_block"), BlockAt(t, "assign_attributes_block"),
               BlockAt(t, "authorize_block"), BlockAt(t, "store_data_block"), RespondBlocksOf(t))
  }

  /** `standalone_config.verbs[verb]`. */
  function VerbTree(conf: Conf, verb: string): Option<Conf>
  {
    Lookup(conf, [SymKey("verbs"), SymKey(verb)])
  }

  // ---------------------------------------------------------------------
  // Root registration
  // ---------------------------------------------------------------------

  /** The root guard: a component without a parent becomes the root unless
      one is registered already; a component with a parent leaves the root
      marker alone. */
  function RegisterRoot(c: Component, root: Option<CompId>): (r: Result<Option<CompId>, Error>)
    ensures r.Fail? <==> c.parent.None? && root.Some?
    ensures r.Fail? ==> r.error == RootConflict(c.id, root.value)
    ensures r.Ok? && c.parent.None? ==> r.value == Some(c.id)
    ensures c.parent.Some? ==> r == Ok(root)
  {
    if c.parent.None? then
      if root.Some? then Fail(RootConflict(c.id, root.value)) else Ok(Some(c.id))
    else Ok(root)
  }

  // ---------------------------------------------------------------------
  // The lifecycle
  // ---------------------------------------------------------------------

  /** The fixed position of each phase in the lifecycle. */
  function Rank(p: Phase): nat
  {
    match p
    case LoadData => 0
    case AfterLoadData => 1
    case AssignAttributes => 2
    case AfterAssignAttributes => 3
    case Authorize => 4
    case StoreData => 5
    case Respond => 6
  }

  /** The phases whose effects on the component must stay visible to the
      phases after them run with backfire; authorize and respond do not. */
  predicate Backfires(p: Phase)
  {
    p != Authorize && p != Respond
  }

  /** Some evaluation of the trace belongs to phase `p`. */
  predicate Ran(trace: seq<Evaluation>, p: Phase)
  {
    exists e :: e in trace && e.phase == p
  }

  /** Evaluations appear in lifecycle order, hence each phase at most once. */
  predicate InLifecycleOrder(trace: seq<Evaluation>)
  {
    forall i, j :: 0 <= i < j < |trace| ==> Rank(trace[i].phase) < Rank(trace[j].phase)
  }

  /** `verb_config.respond_blocks[format] || verb_config.respond_blocks[nil]`. */
  function SelectRespond(blocks: map<Key, Block>, format: Key): (r: Option<Block>)
    ensures r.Some? <==> format in blocks || NilKey in blocks
    ensures format in blocks ==> r == Some(blocks[format])
    ensures format !in blocks && r.Some? ==> r == Some(blocks[NilKey])
  {
    if format in blocks then Some(blocks[format])
    else if NilKey in blocks then Some(blocks[NilKey])
    else None
  }

  /** The block each phase takes from the verb configuration or the hooks. */
  predicate FromConfig(e: Evaluation, cfg: VerbConfig, hooks: GlobalHooks, format: Key)
  {
    match e.phase
    case LoadData => cfg.loadData == Some(e.block)
    case AfterLoadData => hooks.afterLoadData == Some(e.block)
    case AssignAttributes => cfg.assignAttributes == Some(e.block)
    case AfterAssignAttributes => hooks.afterAssignAttributes == Some(e.block)
    case Authorize => cfg.authorize == Some(e.block)
    case StoreData => cfg.storeData == Some(e.block)
    case Respond => SelectRespond(cfg.respondBlocks, format) == Some(e.block)
  }

  /** The evaluation of phase `p` when its block is present. */
  function Slot(p: Phase, b: Option<Block>): Option<Evaluation>
  {
    if b.Some? then Some(Evaluation(p, b.value, Backfires(p))) else None
  }

  /** Keeps the evaluations that happen, in slot order. */
  function Compact(s: seq<Option<Evaluation>>): seq<Evaluation>
  {
    if |s| == 0 then []
    else Compact(s[..|s| - 1]) + (if s[|s| - 1].Some? then [s[|s| - 1].value] else [])
  }

  /** Slots indexed by rank, each holding only an evaluation of its own phase. */
  predicate RankIndexed(s: seq<Option<Evaluation>>)
  {
    forall i :: 0 <= i < |s| && s[i].Some? ==> Rank(s[i].value.phase) == i
  }

  /** Two traces in order whose phases come one after the other form a
      trace in order. */
  lemma AppendInOrder(a: seq<Evaluation>, b: seq<Evaluation>)
    requires InLifecycleOrder(a) && InLifecycleOrder(b)
    requires forall x, y :: x in a && y in b ==> Rank(x.phase) < Rank(y.phase)
    ensures InLifecycleOrder(a + b)
  {
    forall i, j | 0 <= i < j < |a + b|
      ensures Rank((a + b)[i].phase) < Rank((a + b)[j].phase)
    {
      if j < |a| {
      } else if i >= |a| {
        assert (a + b)[i] == b[i - |a|] && (a + b)[j] == b[j - |a|];
      } else {
        assert (a + b)[i] in a && (a + b)[j] in b;
      }
    }
  }

  lemma RankIndexedPrefix(s: seq<Option<Evaluation>>)
    requires |s| > 0 && RankIndexed(s)
    ensures RankIndexed(s[..|s| - 1])
  {
    var init := s[..|s| - 1];
    forall i | 0 <= i < |init| && init[i].Some?
      ensures Rank(init[i].value.phase) == i
    {
      assert init[i] == s[i];
    }
  }

  /** Compacting rank-indexed slots holds only evaluations of filled
      slots, each at the slot of its own rank. */
  lemma {:induction false} CompactMembers(s: seq<Option<Evaluation>>)
    requires RankIndexed(s)
    ensures forall e :: e in Compact(s) ==> Rank(e.phase) < |s| && s[Rank(e.phase)] == Some(e)
  {
    if |s| > 0 {
      var init := s[..|s| - 1];
      RankIndexedPrefix(s);
      CompactMembers(init);
      forall e | e in Compact(s)
        ensures Rank(e.phase) < |s| && s[Rank(e.phase)] == Some(e)
      {
        if e in Compact(init) {
          assert s[Rank(e.phase)] == init[Rank(e.phase)];
        }
      }
    }
  }

  /** Compacting rank-indexed slots yields a trace in lifecycle order. */
  lemma {:induction false} CompactInOrder(s: seq<Option<Evaluation>>)
    requires RankIndexed(s)
    ensures InLifecycleOrder(Compact(s))
  {
    if |s| > 0 {
      var init := s[..|s| - 1];
      var last := if s[|s| - 1].Some? then [s[|s| - 1].value] else [];
      RankIndexedPrefix(s);
      CompactInOrder(init);
      CompactMembers(init);
      AppendInOrder(Compact(init), last);
    }
  }

  /** Every filled slot's evaluation is in the compacted trace. */
  lemma {:induction false} CompactFilled(s: seq<Option<Evaluation>>, i: nat)
    requires i < |s| && s[i].Some?
    ensures s[i].value in Compact(s)
  {
    if i < |s| - 1 {
      CompactFilled(s[..|s| - 1], i);
    }
  }

  /** A phase ran exactly when its slot is filled. */
  lemma CompactRan(s: seq<Option<Evaluation>>, p: Phase)
    requires RankIndexed(s) && Rank(p) < |s|
    ensures Ran(Compact(s), p) <==> s[Rank(p)].Some?
  {
    CompactMembers(s);
    if s[Rank(p)].Some? {
      CompactFilled(s, Rank(p));
    }
  }

  /** Which phases run, by rank: the load and assign stages as configured
      (each global hook only after its own phase), authorize when its block
      exists, and store data and respond only after a truthy authorization. */
  function LifecycleSlots(cfg: VerbConfig, hooks: GlobalHooks, req: Request): (s: seq<Option<Evaluation>>)
    ensures |s| == 7 && RankIndexed(s)
  {
    var granted := cfg.authorize.Some? && req.authorized;
    [ Slot(LoadData, cfg.loadData),
      if cfg.loadData.Some? then Slot(AfterLoadData, hooks.afterLoadData) else None,
      Slot(AssignAttributes, cfg.assignAttributes),
      if cfg.assignAttributes.Some? then Slot(AfterAssignAttributes, hooks.afterAssignAttributes) else None,
      Slot(Authorize, cfg.authorize),
      if granted then Slot(StoreData, cfg.storeData) else None,
      if granted then Slot(Respond, SelectRespond(cfg.respondBlocks, req.format)) else None ]
  }

  /** Every filled slot evaluates its own phase's block, with backfire
      exactly for the phases whose effects must persist. */
  lemma SlotsFromConfig(cfg: VerbConfig, hooks: GlobalHooks, req: Request)
    ensures forall i :: 0 <= i < |LifecycleSlots(cfg, hooks, req)| && LifecycleSlots(cfg, hooks, req)[i].Some? ==>
      FromConfig(LifecycleSlots(cfg, hooks, req)[i].value, cfg, hooks, req.format) &&
      LifecycleSlots(cfg, hooks, req)[i].value.backfire == Backfires(LifecycleSlots(cfg, hooks, req)[i].value.phase)
  {
  }

  /** The lifecycle once the root guard has passed: the evaluations run
      and the respond block evaluated or the error raised. */
  datatype Lifecycle = Lifecycle(trace: seq<Evaluation>, outcome: Result<Block, Error>)

  /** Load data (then the after-load hook), assign attributes (then the
      after-assign hook), authorize, raising access-denied on a falsy result,
      store data, and respond with the block for the format, else for `nil`. */
  function RunLifecycle(id: CompId, cfg: VerbConfig, hooks: GlobalHooks, req: Request): (l: Lifecycle)
    ensures InLifecycleOrder(l.trace)
    ensures forall e :: e in l.trace ==> FromConfig(e, cfg, hooks, req.format) && e.backfire == Backfires(e.phase)
    ensures Ran(l.trace, LoadData) <==> cfg.loadData.Some?
    ensures Ran(l.trace, AfterLoadData) <==> cfg.loadData.Some? && hooks.afterLoadData.Some?
    ensures Ran(l.trace, AssignAttributes) <==> cfg.assignAttributes.Some?
    ensures Ran(l.trace, AfterAssignAttributes) <==> cfg.assignAttributes.Some? && hooks.afterAssignAttributes.Some?
    ensures Ran(l.trace, Authorize) <==> cfg.authorize.Some?
    ensures Ran(l.trace, StoreData) <==> cfg.authorize.Some? && req.authorized && cfg.storeData.Some?
    ensures Ran(l.trace, Respond) <==> l.outcome.Ok?
    ensures l.outcome == Fail(AccessDenied(id)) <==> cfg.authorize.Some? && !req.authorized
    ensures l.outcome.Ok? <==>
      cfg.authorize.Some? && req.authorized && (req.format in cfg.respondBlocks || NilKey in cfg.respondBlocks)
    ensures l.outcome.Ok? ==>
      |l.trace| > 0 && l.trace[|l.trace| - 1] == Evaluation(Respond, l.outcome.value, false) &&
      l.outcome.value == (if req.format in cfg.respondBlocks then cfg.respondBlocks[req.format]
                          else cfg.respondBlocks[NilKey])
  {
    var s := LifecycleSlots(cfg, hooks, req);
    var trace := Compact(s);
    CompactInOrder(s);
    CompactMembers(s);
    SlotsFromConfig(cfg, hooks, req);
    CompactRan(s, LoadData);
    CompactRan(s, AfterLoadData);
    CompactRan(s, AssignAttributes);
    CompactRan(s, AfterAssignAttributes);
    CompactRan(s, Authorize);
    CompactRan(s, StoreData);
    CompactRan(s, Respond);
    var outcome :=
      if cfg.authorize.None? then Fail(NilBlock(Authorize))
      else if !req.authorized then Fail(AccessDenied(id))
      else match SelectRespond(cfg.respondBlocks, req.format)
        case None => Fail(NilBlock(Respond))
        case Some(b) => Ok(b);
    assert outcome.Ok? ==> trace == Compact(s[..6]) + [s[6].value];
    Lifecycle(trace, outcome)
  }

  /** `on_standalone_access`: the root guard, then the lifecycle. A root
      conflict stops the request before any block is evaluated; otherwise
      the root marker keeps what the guard registered, whatever the
      lifecycle raises afterwards. */
  function Dispatch(c: Component, cfg: VerbConfig, hooks: GlobalHooks, req: Request, root: Option<CompId>): (d: Dispatched)
    ensures RegisterRoot(c, root).Fail? ==> d == Dispatched([], root, Fail(RegisterRoot(c, root).error))
    ensures RegisterRoot(c, root).Ok? ==>
      d.root == RegisterRoot(c, root).value &&
      Lifecycle(d.trace, d.outcome) == RunLifecycle(c.id, cfg, hooks, req)
  {
    match RegisterRoot(c, root)
    case Fail(e) => Dispatched([], root, Fail(e))
    case Ok(root') =>
      var l := RunLifecycle(c.id, cfg, hooks, req);
      Dispatched(l.trace, root', l.outcome)
  }

  // ---------------------------------------------------------------------
  // The authorize-only access check
  // ---------------------------------------------------------------------

  /** `standalone_access_permitted_for?`: symbolizes the name and the verb,
      fails on a missing configuration or verb, and otherwise evaluates only
      the authorize block and returns its result. */
  function AccessPermitted(configs: Configs, name: Option<Name>, verb: Name, authorized: bool): (r: AccessCheck)
    ensures Symbolize(name) !in configs ==> r.result == Fail(MissingStandaloneConfig(name))
    ensures Symbolize(name) in configs && VerbTree(configs[Symbolize(name)], ToSym(verb)).None? ==>
      r.result == Fail(MissingVerb(ToSym(verb)))
    ensures r.result.Ok? <==>
      Symbolize(name) in configs && VerbTree(configs[Symbolize(name)], ToSym(verb)).Some? &&
      VerbConfigOf(VerbTree(configs[Symbolize(name)], ToSym(verb)).value).authorize.Some?
    ensures r.result.Ok? ==>
      r.result.value == authorized &&
      r.trace == [Evaluation(Authorize, VerbConfigOf(VerbTree(configs[Symbolize(name)], ToSym(verb)).value).authorize.value, false)]
    ensures forall e :: e in r.trace ==> e.phase == Authorize
  {
    var key := Symbolize(name);
    if key !in configs then AccessCheck([], Fail(MissingStandaloneConfig(name)))
    else
      match VerbTree(configs[key], ToSym(verb))
      case None => AccessCheck([], Fail(MissingVerb(ToSym(verb))))
      case Some(vt) =>
        var cfg := VerbConfigOf(vt);
        if cfg.authorize.None? then AccessCheck([], Fail(NilBlock(Authorize)))
        else AccessCheck([Evaluation(Authorize, cfg.authorize.value, false)], Ok(authorized))
  }

  /** The access check as written: its missing-configuration message
      interpolates the local variable its own line is assigning, which is
      still `nil` while the right-hand side raises, so the error reports
      `nil` whatever name was missing. On every other input it is the
      access check. */
  function AccessPermittedAsWritten(configs: Configs, name: Option<Name>, verb: Name, authorized: bool): (r: AccessCheck)
    ensures Symbolize(name) !in configs ==> r == AccessCheck([], Fail(MissingStandaloneConfig(None)))
    ensures Symbolize(name) in configs ==> r == AccessPermitted(configs, name, verb, authorized)
  {
    if Symbolize(name) !in configs then AccessCheck([], Fail(MissingStandaloneConfig(None)))
    else AccessPermitted(configs, name, verb, authorized)
  }

  /** The default query: the main entry point (name `nil`) and verb `:get`. */
  function AccessPermittedByDefault(configs: Configs, authorized: bool): (r: AccessCheck)
    ensures NilKey !in configs ==> r.result == Fail(MissingStandaloneConfig(None))
    ensures r.result.Ok? <==>
      NilKey in configs && VerbTree(configs[NilKey], "get").Some? &&
      VerbConfigOf(VerbTree(configs[NilKey], "get").value).authorize.Some?
    ensures r.result.Ok? ==>
      r.result.value == authorized &&
      r.trace == [Evaluation(Authorize, VerbConfigOf(VerbTree(configs[NilKey], "get").value).authorize.value, false)]
  {
    AccessPermitted(configs, None, Sym("get"), authorized)
  }

  // ---------------------------------------------------------------------
  // Render finalization
  // ---------------------------------------------------------------------

  /** `status.present?`: every Integer is present, a Symbol unless empty. */
  predicate StatusPresent(s: Option<Status>)
  {
    s.Some? && (s.value.Named? ==> |s.value.sym| > 0)
  }

  /** `render_standalone`: given what `render` returned, emits nothing when
      that is blank (a response was produced already) and otherwise exactly
      one HTML render with the named configuration's layout, passing the
      status only when it is present. The name is used as given. */
  function RenderStandalone(configs: Configs, rendered: Option<string>, status: Option<Status>, name: Option<Name>): (r: Result<Option<Emission>, Error>)
    ensures BlankText(rendered) <==> r == Ok(None)
    ensures !BlankText(rendered) && RawKey(name).Some? && RawKey(name).value in configs ==>
      r.Ok? && r.value.Some? &&
      r.value.value.html == rendered.value &&
      r.value.value.layout == Lookup(configs[RawKey(name).value], [SymKey("layout")]) &&
      (r.value.value.status.Some? <==> StatusPresent(status)) &&
      (r.value.value.status.Some? ==> r.value.value.status == status)
    ensures r.Fail? <==> !BlankText(rendered) && (RawKey(name).None? || RawKey(name).value !in configs)
  {
    if BlankText(rendered) then Ok(None)
    else
      match RawKey(name)
      case None => Fail(MissingStandaloneConfig(name))
      case Some(key) =>
        if key !in configs then Fail(MissingStandaloneConfig(name))
        else
          var layout := Lookup(configs[key], [SymKey("layout")]);
          Ok(Some(Emission(rendered.value, layout, if StatusPresent(status) then status else None)))
  }

  /** Render finalization looking the name up the way the access check
      and the DSL do, after `&.to_sym`: a String name finds the configuration
      its declaration created. */
  function RenderStandaloneSymbolized(configs: Configs, rendered: Option<string>, status: Option<Status>, name: Option<Name>): (r: Result<Option<Emission>, Error>)
    ensures BlankText(rendered) <==> r == Ok(None)
    ensures r.Fail? <==> !BlankText(rendered) && Symbolize(name) !in configs
    ensures r.Ok? && r.value.Some? ==>
      r.value.value.html == rendered.value &&
      r.value.value.layout == Lookup(configs[Symbolize(name)], [SymKey("layout")]) &&
      (r.value.value.status.Some? <==> StatusPresent(status)) &&
      (r.value.value.status.Some? ==> r.value.value.status == status)
  {
    if BlankText(rendered) then Ok(None)
    else
      var key := Symbolize(name);
      if key !in configs then Fail(MissingStandaloneConfig(name))
      else
        var layout := Lookup(configs[key], [SymKey("layout")]);
        Ok(Some(Emission(rendered.value, layout, if StatusPresent(status) then status else None)))
  }

  // ---------------------------------------------------------------------
  // The `standalone` DSL
  // ---------------------------------------------------------------------

  /** `init_standalone`: no standalone configuration yet. */
  function InitStandalone(): (configs: Configs)
    ensures forall k :: k !in configs
  {
    map[]
  }

  /** The extra positional and keyword arguments of a declaration (such as
      `path:`), handed to the DSL untouched; only their identity matters. */
  datatype Args = Args(id: nat)

  /** One `standalone name, *args, **nargs do ... end` declaration. */
  datatype Declaration = Declaration(name: Option<Name>, args: Args, block: Option<Block>)

  /** `StandaloneDsl.new(self, name, *args, **nargs).to_conf(&block)`: the
      configuration a declaration's DSL block produces from its symbolized
      name, its extra arguments and its block. */
  type ToConf = (Key, Args, Block) -> Conf

  /** The block a declaration is evaluated with: `proc {}` when none was given. */
  function BlockOf(d: Declaration): (b: Block)
    ensures d.block.None? ==> b == EmptyBlock
    ensures d.block.Some? ==> b == d.block.value
  {
    match d.block
    case None => EmptyBlock
    case Some(b) => b
  }

  /** `standalone`: symbolizes the name, starts that name's configuration
      from an empty hash if it has none, and deep-merges the configuration
      the DSL block produces (`toConf`) into it. */
  function Declare(configs: Configs, d: Declaration, toConf: ToConf): (r: Configs)
    ensures r.Keys == configs.Keys + {Symbolize(d.name)}
    ensures forall k :: k in configs && k != Symbolize(d.name) ==> r[k] == configs[k]
    ensures Symbolize(d.name) in configs ==>
      r[Symbolize(d.name)] == DeepMerge(configs[Symbolize(d.name)], toConf(Symbolize(d.name), d.args, BlockOf(d)))
    ensures Symbolize(d.name) !in configs ==>
      r[Symbolize(d.name)] == DeepMerge(Empty(), toConf(Symbolize(d.name), d.args, BlockOf(d)))
  {
    var key := Symbolize(d.name);
    var current := if key in configs then configs[key] else Empty();
    configs[key := DeepMerge(current, toConf(key, d.args, BlockOf(d)))]
  }

  /** Runs declarations in order (setup blocks run from the oldest ancestor
      to the component's own class). */
  function DeclareAll(configs: Configs, ds: seq<Declaration>, toConf: ToConf): Configs
  {
    if |ds| == 0 then configs
    else Declare(DeclareAll(configs, ds[..|ds| - 1], toConf), ds[|ds| - 1], toConf)
  }

  /** The configurations contributed for `key`, in declaration order. */
  function ConfsFor(ds: seq<Declaration>, key: Key, toConf: ToConf): seq<Conf>
  {
    if |ds| == 0 then []
    else
      var rest := ConfsFor(ds[..|ds| - 1], key, toConf);
      var d := ds[|ds| - 1];
      if Symbolize(d.name) == key then rest + [toConf(key, d.args, BlockOf(d))] else rest
  }

  /** Deep-merges configurations into an empty hash, in order. */
  function MergeAll(confs: seq<Conf>): Conf
  {
    if |confs| == 0 then Empty()
    else DeepMerge(MergeAll(confs[..|confs| - 1]), confs[|confs| - 1])
  }
}
