/** Properties relating several operations of the standalone mixin: how
    repeated `standalone` declarations resolve, what an override of an
    unrelated verb leaves in place, how two roots collide, and how the
    access check agrees with dispatch. */
module StandaloneFacts {
  import opened Common
  import opened ConfigTree
  import opened Standalone

  /** Running declarations from no configuration leaves, for every name,
      the deep merge of exactly the configurations declared for that name,
      in declaration order; a name never declared has no configuration. */
  lemma {:induction false} DeclareAllResolves(ds: seq<Declaration>, key: Key, toConf: ToConf)
    ensures key in DeclareAll(InitStandalone(), ds, toConf) <==> |ConfsFor(ds, key, toConf)| > 0
    ensures key in DeclareAll(InitStandalone(), ds, toConf) ==>
      DeclareAll(InitStandalone(), ds, toConf)[key] == MergeAll(ConfsFor(ds, key, toConf))
  {
    if |ds| > 0 {
      var init := ds[..|ds| - 1];
      var d := ds[|ds| - 1];
      DeclareAllResolves(init, key, toConf);
      if Symbolize(d.name) == key {
        var rest := ConfsFor(init, key, toConf);
        var confs := rest + [toConf(key, d.args, BlockOf(d))];
        assert ConfsFor(ds, key, toConf) == confs;
        assert confs[..|confs| - 1] == rest;
      }
    }
  }

  /** Whatever a declaration's arguments and block put at a path (a `path:`
      option, a layout, a block) is what its name's configuration holds
      there afterwards, whatever earlier declarations put there. */
  lemma LaterDeclarationWins(configs: Configs, d: Declaration, toConf: ToConf, path: seq<Key>, v: Value)
    requires Lookup(toConf(Symbolize(d.name), d.args, BlockOf(d)), path) == Some(Leaf(v))
    ensures Lookup(Declare(configs, d, toConf)[Symbolize(d.name)], path) == Some(Leaf(v))
  {
    var key := Symbolize(d.name);
    var current := if key in configs then configs[key] else Empty();
    LaterLeafWins(current, toConf(key, d.args, BlockOf(d)), path, v);
  }

  /** The path to the respond block of `verb` for `format`. */
  function RespondPath(verb: string, format: Key): seq<Key>
  {
    [SymKey("verbs"), SymKey(verb), SymKey("respond_blocks"), format]
  }

  /** Reading the respond blocks of a verb follows the respond path. */
  lemma RespondBlockAtPath(conf: Conf, verb: string, format: Key, b: Block)
    requires Lookup(conf, RespondPath(verb, format)) == Some(Leaf(BlockValue(b)))
    ensures VerbTree(conf, verb).Some?
    ensures format in VerbConfigOf(VerbTree(conf, verb).value).respondBlocks
    ensures VerbConfigOf(VerbTree(conf, verb).value).respondBlocks[format] == b
  {
    var vpath := [SymKey("verbs"), SymKey(verb)];
    var rpath := [SymKey("respond_blocks"), format];
    assert RespondPath(verb, format) == vpath + rpath;
    LookupAppend(conf, vpath, rpath);
    var m := RespondBlocksOf(VerbTree(conf, verb).value);
    assert Lookup(VerbTree(conf, verb).value, rpath) == Some(Leaf(BlockValue(b)));
  }

  /** An inherited respond block survives a later declaration that leaves
      its path alone (for instance one that only configures another verb),
      and dispatching that verb in that format still evaluates it. */
  lemma InheritedRespondSurvives(base: Conf, override: Conf, verb: string, format: Key, b: Block,
                                 c: Component, hooks: GlobalHooks)
    requires Lookup(base, RespondPath(verb, format)) == Some(Leaf(BlockValue(b)))
    requires Untouched(override, RespondPath(verb, format))
    ensures VerbTree(DeepMerge(base, override), verb).Some?
    ensures var cfg := VerbConfigOf(VerbTree(DeepMerge(base, override), verb).value);
      cfg.authorize.Some? ==>
      RunLifecycle(c.id, cfg, hooks, Request(format, true)).outcome == Ok(b)
  {
    EarlierSurvives(base, override, RespondPath(verb, format), Leaf(BlockValue(b)));
    RespondBlockAtPath(DeepMerge(base, override), verb, format, b);
  }

  /** A later declaration's respond block replaces the inherited one for
      the same verb and format. */
  lemma OverridingRespondWins(base: Conf, override: Conf, verb: string, format: Key, b: Block)
    requires Lookup(override, RespondPath(verb, format)) == Some(Leaf(BlockValue(b)))
    ensures VerbTree(DeepMerge(base, override), verb).Some?
    ensures format in VerbConfigOf(VerbTree(DeepMerge(base, override), verb).value).respondBlocks
    ensures VerbConfigOf(VerbTree(DeepMerge(base, override), verb).value).respondBlocks[format] == b
  {
    LaterLeafWins(base, override, RespondPath(verb, format), BlockValue(b));
    RespondBlockAtPath(DeepMerge(base, override), verb, format, b);
  }

  /** Two parentless components in one request: whatever the first
      dispatch's outcome, the second fails on the root guard, names both
      components, and evaluates no block. */
  lemma SecondRootFails(c1: Component, c2: Component, cfg1: VerbConfig, cfg2: VerbConfig,
                        hooks: GlobalHooks, req1: Request, req2: Request)
    requires c1.parent.None? && c2.parent.None?
    ensures var d1 := Dispatch(c1, cfg1, hooks, req1, None);
      var d2 := Dispatch(c2, cfg2, hooks, req2, d1.root);
      d1.root == Some(c1.id) && d2.outcome == Fail(RootConflict(c2.id, c1.id)) &&
      d2.trace == [] && d2.root == d1.root
  {
  }

  /** A component with a parent dispatches under any root marker and
      leaves it as it found it. */
  lemma ChildLeavesRoot(c: Component, cfg: VerbConfig, hooks: GlobalHooks, req: Request, root: Option<CompId>)
    requires c.parent.Some?
    ensures Dispatch(c, cfg, hooks, req, root).root == root
    ensures Dispatch(c, cfg, hooks, req, root).outcome == RunLifecycle(c.id, cfg, hooks, req).outcome
  {
  }

  /** The access check evaluates the authorize block a dispatch of the same
      configuration and verb evaluates. The two evaluations run in different
      states: the check runs no load-data or assign-attributes phase, so the
      caller must have loaded whatever the block reads beforehand. When the
      block then answers the same in both, a dispatch is denied exactly when
      the check answers false. */
  lemma AccessAgreesWithDispatch(configs: Configs, name: Option<Name>, verb: Name,
                                 checkAnswer: bool, dispatchAnswer: bool,
                                 c: Component, hooks: GlobalHooks, format: Key)
    requires AccessPermitted(configs, name, verb, checkAnswer).result.Ok?
    requires checkAnswer == dispatchAnswer
    ensures var cfg := VerbConfigOf(VerbTree(configs[Symbolize(name)], ToSym(verb)).value);
      var l := RunLifecycle(c.id, cfg, hooks, Request(format, dispatchAnswer));
      AccessPermitted(configs, name, verb, checkAnswer).trace == [Evaluation(Authorize, cfg.authorize.value, false)] &&
      ((l.outcome == Fail(AccessDenied(c.id))) <==> !AccessPermitted(configs, name, verb, checkAnswer).result.value)
  {
  }

  /** Without that caller duty the two may disagree: a check whose block
      answers true before the data is loaded permits a verb whose dispatch,
      answering false after loading, is denied. */
  lemma AccessCanDisagreeWithDispatch(configs: Configs, name: Option<Name>, verb: Name,
                                      c: Component, hooks: GlobalHooks, format: Key)
    requires AccessPermitted(configs, name, verb, true).result.Ok?
    ensures AccessPermitted(configs, name, verb, true).result == Ok(true)
    ensures var cfg := VerbConfigOf(VerbTree(configs[Symbolize(name)], ToSym(verb)).value);
      RunLifecycle(c.id, cfg, hooks, Request(format, false)).outcome == Fail(AccessDenied(c.id))
  {
  }

  /** As written, the access check raises the same error whichever name was
      missing; the corrected check reports the name, so two different
      missing names give different errors. */
  lemma MissingConfigMessageIgnoresName(configs: Configs, n1: Name, n2: Name, verb: Name, authorized: bool)
    requires ToSym(n1) != ToSym(n2)
    requires SymKey(ToSym(n1)) !in configs && SymKey(ToSym(n2)) !in configs
    ensures AccessPermittedAsWritten(configs, Some(n1), verb, authorized) ==
            AccessPermittedAsWritten(configs, Some(n2), verb, authorized)
    ensures AccessPermitted(configs, Some(n1), verb, authorized).result == Fail(MissingStandaloneConfig(Some(n1)))
    ensures AccessPermitted(configs, Some(n1), verb, authorized).result !=
            AccessPermitted(configs, Some(n2), verb, authorized).result
  {
  }

  /** The access check symbolizes both arguments: a String and a Symbol
      with the same text evaluate the same block and give the same answer. */
  lemma AccessSymbolizes(configs: Configs, s: string, v: string, authorized: bool)
    ensures var byStr := AccessPermitted(configs, Some(Str(s)), Str(v), authorized);
      var bySym := AccessPermitted(configs, Some(Sym(s)), Sym(v), authorized);
      byStr.trace == bySym.trace && (byStr.result.Ok? <==> bySym.result.Ok?) &&
      (byStr.result.Ok? ==> byStr.result.value == bySym.result.value)
  {
  }

  /** The render step as written: a String standalone name misses the
      configuration declared under that name, so a non-blank render raises
      where the access check and the DSL find the configuration. */
  lemma RenderMissesStringName(configs: Configs, rendered: Option<string>, status: Option<Status>, s: string)
    requires !BlankText(rendered)
    requires SymKey(s) in configs
    ensures RenderStandalone(configs, rendered, status, Some(Str(s))).Fail?
    ensures RenderStandaloneSymbolized(configs, rendered, status, Some(Str(s))).Ok?
    ensures RenderStandalone(configs, rendered, status, Some(Sym(s))) ==
            RenderStandaloneSymbolized(configs, rendered, status, Some(Str(s)))
  {
  }

  /** A layout given by the latest `standalone` declaration for a name is
      the layout the page for that name is rendered with, when the name is
      looked up symbolized. The lookup as written agrees for a Symbol name
      and for the unnamed entry point. */
  lemma RenderUsesDeclaredLayout(configs: Configs, d: Declaration, toConf: ToConf,
                                 layout: Value, html: string, status: Option<Status>)
    requires Lookup(toConf(Symbolize(d.name), d.args, BlockOf(d)), [SymKey("layout")]) == Some(Leaf(layout))
    requires !BlankString(html)
    ensures var r := RenderStandaloneSymbolized(Declare(configs, d, toConf), Some(html), status, d.name);
      r.Ok? && r.value.Some? && r.value.value.layout == Some(Leaf(layout)) && r.value.value.html == html
    ensures d.name.None? || d.name.value.Sym? ==>
      RenderStandalone(Declare(configs, d, toConf), Some(html), status, d.name) ==
      RenderStandaloneSymbolized(Declare(configs, d, toConf), Some(html), status, d.name)
  {
    var key := Symbolize(d.name);
    var current := if key in configs then configs[key] else Empty();
    LaterLeafWins(current, toConf(key, d.args, BlockOf(d)), [SymKey("layout")], layout);
  }

  /** A respond block keyed by one format does not change what another
      format selects; the `nil` block answers every format that has none. */
  lemma RespondSelectionIsPerFormat(blocks: map<Key, Block>, format: Key, other: Key, b: Block)
    requires other != format && other != NilKey
    ensures SelectRespond(blocks[other := b], format) == SelectRespond(blocks, format)
    ensures format !in blocks && NilKey in blocks ==> SelectRespond(blocks, format) == Some(blocks[NilKey])
  {
  }
}
