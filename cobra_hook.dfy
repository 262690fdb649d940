/** cobrax/viper.go: binding viper to a command's flags as the first step of
    its persistent pre-run hook. */
module CobraHook {
  import opened Wrappers
  import opened Pflag
  import opened ViperBinding

  /** A func(*cobra.Command, []string) error as it appears in a hook chain. */
  datatype HookFunc =
      /** A func of the program's own. Calling it is recorded by its id; its
          error depends on the flags and the arguments. */
    | User(id: nat, run: (seq<FlagState>, seq<string>) -> Option<string>)
      /** The PersistentPreRunE that Execute makes out of a PersistentPreRun
          (recorded by the id of that PersistentPreRun): it calls it and
          returns nil. */
    | FromPreRun(id: nat)
      /** What HookViper(v, chain...) returns; nil entries of the chain are None. */
    | ViperHook(v: ViperBinding.Viper, iter: MapIteration, chain: seq<Option<HookFunc>>)

  /** What a hook can observe and change: the flags and the record of calls
      made so far. */
  datatype Effects = Effects(states: seq<FlagState>, trace: seq<nat>)

  /** The outcome of calling h. */
  function RunHook(h: HookFunc, args: seq<string>, e: Effects): (Effects, Option<string>)
    decreases h, 1
  {
    match h
    case User(id, run) => (e.(trace := e.trace + [id]), run(e.states, args))
    case FromPreRun(id) => (e.(trace := e.trace + [id]), None)
    case ViperHook(v, iter, chain) =>
      var bound := Bind(e.states, v, iter);
      if bound.1.Some? then (e.(states := bound.0), bound.1)
      else RunChain(h, 0, args, e.(states := bound.0))
  }

  /** The outcome of the chain of a hook from position i on: nil entries are
      skipped, the first error is returned. */
  function RunChain(h: HookFunc, i: nat, args: seq<string>, e: Effects): (Effects, Option<string>)
    requires h.ViperHook? && i <= |h.chain|
    decreases h, 0, |h.chain| - i
  {
    if i == |h.chain| then (e, None)
    else match h.chain[i]
      case None => RunChain(h, i + 1, args, e)
      case Some(f) =>
        var r := RunHook(f, args, e);
        if r.1.Some? then r else RunChain(h, i + 1, args, r.0)
  }

  /** The command a hook runs on: its flags, its two persistent pre-run
      fields and the record of the funcs called. */
  class Command {
    const flags: FlagSet
    var persistentPreRun: Option<nat>
    var persistentPreRunE: Option<HookFunc>
    var trace: seq<nat>

    constructor (flags: FlagSet, persistentPreRun: Option<nat>, persistentPreRunE: Option<HookFunc>)
      ensures this.flags == flags && this.persistentPreRun == persistentPreRun
      ensures this.persistentPreRunE == persistentPreRunE && trace == []
    {
      this.flags := flags;
      this.persistentPreRun := persistentPreRun;
      this.persistentPreRunE := persistentPreRunE;
      this.trace := [];
    }

    function Observed(): Effects
      reads this, flags, flags.flags
    {
      Effects(flags.States(), trace)
    }
  }

  /** Calling a hook func on cmd. For a HookViper func this is the closure
      it returns: bind, and only then call the chain. */
  method Call(cmd: Command, h: HookFunc, args: seq<string>) returns (err: Option<string>)
    requires cmd.flags.Valid()
    modifies cmd.flags.flags, cmd`trace
    ensures cmd.flags.Valid()
    ensures (cmd.Observed(), err) == RunHook(h, args, old(cmd.Observed()))
    decreases h, 1
  {
    match h
    case User(id, run) =>
      err := run(cmd.flags.States(), args);
      cmd.trace := cmd.trace + [id];
    case FromPreRun(id) =>
      cmd.trace := cmd.trace + [id];
      err := None;
    case ViperHook(v, iter, chain) =>
      err := BindViper(cmd.flags, v, iter);
      if err.None? {
        err := CallChain(cmd, h, args);
      }
  }

  /** The loop of the HookViper closure over its chain: nil entries are
      skipped, the first error is returned at once. */
  method CallChain(cmd: Command, h: HookFunc, args: seq<string>) returns (err: Option<string>)
    requires h.ViperHook? && cmd.flags.Valid()
    modifies cmd.flags.flags, cmd`trace
    ensures cmd.flags.Valid()
    ensures (cmd.Observed(), err) == RunChain(h, 0, args, old(cmd.Observed()))
    decreases h, 0
  {
    ghost var start := cmd.Observed();
    for i := 0 to |h.chain|
      invariant cmd.flags.Valid()
      invariant RunChain(h, 0, args, start) == RunChain(h, i, args, cmd.Observed())
    {
      var f := h.chain[i];
      if f.Some? {
        err := Call(cmd, f.value, args);
        if err.Some? {
          return;
        }
      }
    }
    err := None;
  }

  /** The ids of the funcs present in a chain, in order; nil entries are
      skipped, so a chain without nil or nested hook entries lists one id per
      entry. */
  function Ids(chain: seq<Option<HookFunc>>): (r: seq<nat>)
    ensures |r| <= |chain|
    ensures (forall i :: 0 <= i < |chain| ==> chain[i].Some? && !chain[i].value.ViperHook?) ==> |r| == |chain|
  {
    if chain == [] then []
    else match chain[0]
      case None => Ids(chain[1..])
      case Some(f) => (if f.ViperHook? then [] else [f.id]) + Ids(chain[1..])
  }

  /** No entry of the chain is itself a HookViper func. */
  ghost predicate Flat(chain: seq<Option<HookFunc>>)
  {
    forall i :: 0 <= i < |chain| && chain[i].Some? ==> !chain[i].value.ViperHook?
  }

  /** The chained func returns an error on these flags and arguments. */
  predicate Fails(f: Option<HookFunc>, states: seq<FlagState>, args: seq<string>)
  {
    f.Some? && f.value.User? && f.value.run(states, args).Some?
  }

  /** With no failing func from position i on, the rest of the chain runs in
      order, skipping nil entries, and the hook returns nil. */
  lemma {:induction false} ChainRunsInOrder(h: HookFunc, i: nat, args: seq<string>, e: Effects)
    requires h.ViperHook? && i <= |h.chain| && Flat(h.chain)
    requires forall j :: i <= j < |h.chain| ==> !Fails(h.chain[j], e.states, args)
    ensures RunChain(h, i, args, e) == (e.(trace := e.trace + Ids(h.chain[i..])), None)
    decreases |h.chain| - i
  {
    if i == |h.chain| {
      assert h.chain[i..] == [];
      assert Ids(h.chain[i..]) == [];
      assert e.trace + [] == e.trace;
    } else {
      assert h.chain[i..][0] == h.chain[i];
      assert h.chain[i..][1..] == h.chain[i + 1..];
      match h.chain[i]
      case None =>
        ChainRunsInOrder(h, i + 1, args, e);
      case Some(f) =>
        var e' := e.(trace := e.trace + [f.id]);
        ChainRunsInOrder(h, i + 1, args, e');
        assert e'.trace + Ids(h.chain[i + 1..]) == e.trace + ([f.id] + Ids(h.chain[i + 1..]));
    }
  }

  /** The first failing func of the chain ends the run: it is the last one
      called and its error is the hook's error. */
  lemma {:induction false} ChainStopsAtFirstError(h: HookFunc, i: nat, k: nat, args: seq<string>, e: Effects)
    requires h.ViperHook? && i <= k < |h.chain| && Flat(h.chain)
    requires Fails(h.chain[k], e.states, args)
    requires forall j :: i <= j < k ==> !Fails(h.chain[j], e.states, args)
    ensures RunChain(h, i, args, e) ==
      (e.(trace := e.trace + Ids(h.chain[i..k + 1])), h.chain[k].value.run(e.states, args))
    decreases k - i
  {
    var f := h.chain[i];
    assert h.chain[i..k + 1][0] == f;
    if i == k {
      assert h.chain[i..k + 1] == [f];
      assert [f][1..] == [];
      assert Ids([f]) == [f.value.id] + Ids([]) == [f.value.id];
      assert RunChain(h, i, args, e) == RunHook(f.value, args, e);
    } else {
      assert h.chain[i..k + 1][1..] == h.chain[i + 1..k + 1];
      match f
      case None =>
        ChainStopsAtFirstError(h, i + 1, k, args, e);
      case Some(g) =>
        var e' := e.(trace := e.trace + [g.id]);
        ChainStopsAtFirstError(h, i + 1, k, args, e');
        assert e'.trace + Ids(h.chain[i + 1..k + 1]) == e.trace + ([g.id] + Ids(h.chain[i + 1..k + 1]));
    }
  }

  /** The hook binds before anything else: when binding fails, its error is
      returned and no chained func is called. */
  lemma HookBindsFirst(v: ViperBinding.Viper, iter: MapIteration, chain: seq<Option<HookFunc>>, args: seq<string>, e: Effects)
    requires Bind(e.states, v, iter).1.Some?
    ensures RunHook(ViperHook(v, iter, chain), args, e) == (Effects(Bind(e.states, v, iter).0, e.trace), Bind(e.states, v, iter).1)
  {
  }

  /** The hook Execute installs, given the command's two persistent pre-run
      fields: HookViper with the previous PersistentPreRunE, or the converted
      PersistentPreRun, as its only chained func. */
  function Installed(preRun: Option<nat>, preRunE: Option<HookFunc>, v: ViperBinding.Viper, iter: MapIteration): HookFunc
  {
    var previous := if preRunE.None? && preRun.Some? then Some(FromPreRun(preRun.value)) else preRunE;
    ViperHook(v, iter, [previous])
  }

  /** Execute(cmd, v): install the hook and run the command. Of cobra's
      dispatch only the call of the persistent pre-run hook is modelled. */
  method Execute(cmd: Command, v: ViperBinding.Viper, iter: MapIteration, args: seq<string>) returns (err: Option<string>)
    requires cmd.flags.Valid()
    modifies cmd, cmd.flags.flags
    ensures cmd.persistentPreRunE == Some(Installed(old(cmd.persistentPreRun), old(cmd.persistentPreRunE), v, iter))
    ensures cmd.persistentPreRun == old(cmd.persistentPreRun)
    ensures (cmd.Observed(), err) == RunHook(cmd.persistentPreRunE.value, args, old(cmd.Observed()))
  {
    if cmd.persistentPreRunE.None? && cmd.persistentPreRun.Some? {
      cmd.persistentPreRunE := Some(FromPreRun(cmd.persistentPreRun.value));
    }
    cmd.persistentPreRunE := Some(ViperHook(v, iter, [cmd.persistentPreRunE]));
    err := Call(cmd, cmd.persistentPreRunE.value, args);
  }

  /** A PersistentPreRun with no PersistentPreRunE beside it still runs, after
      binding, and the hook then returns nil. */
  lemma ExecuteKeepsPreRun(id: nat, v: ViperBinding.Viper, iter: MapIteration, args: seq<string>, e: Effects)
    requires Bind(e.states, v, iter).1.None?
    ensures RunHook(Installed(Some(id), None, v, iter), args, e) == (Effects(Bind(e.states, v, iter).0, e.trace + [id]), None)
  {
    var h := Installed(Some(id), None, v, iter);
    assert h.chain == [Some(FromPreRun(id))];
    var bound := Effects(Bind(e.states, v, iter).0, e.trace);
    var called := Effects(Bind(e.states, v, iter).0, e.trace + [id]);
    assert RunHook(FromPreRun(id), args, bound) == (called, None);
    assert RunChain(h, 1, args, called) == (called, None);
    assert RunChain(h, 0, args, bound) == (called, None);
  }

  /** An existing PersistentPreRunE runs after binding, on the bound flags,
      and decides the outcome; a PersistentPreRun beside it is not called, as
      cobra ignores it. */
  lemma ExecuteKeepsPreRunE(preRun: Option<nat>, g: HookFunc, v: ViperBinding.Viper, iter: MapIteration, args: seq<string>, e: Effects)
    requires Bind(e.states, v, iter).1.None?
    ensures RunHook(Installed(preRun, Some(g), v, iter), args, e) ==
      var r := RunHook(g, args, Effects(Bind(e.states, v, iter).0, e.trace));
      if r.1.Some? then r else (r.0, None)
  {
    var h := Installed(preRun, Some(g), v, iter);
    var r := RunHook(g, args, Effects(Bind(e.states, v, iter).0, e.trace));
    assert RunChain(h, 1, args, r.0) == (r.0, None);
  }

  /** With neither pre-run func, the installed hook only binds. */
  lemma ExecuteOnlyBinds(v: ViperBinding.Viper, iter: MapIteration, args: seq<string>, e: Effects)
    ensures RunHook(Installed(None, None, v, iter), args, e) == (Effects(Bind(e.states, v, iter).0, e.trace), Bind(e.states, v, iter).1)
  {
    var h := Installed(None, None, v, iter);
    if Bind(e.states, v, iter).1.None? {
      var bound := Effects(Bind(e.states, v, iter).0, e.trace);
      assert RunChain(h, 1, args, bound) == (bound, None);
    }
  }
}
