/**
 * `waitForSignal` of vendor_story_2_needs_attention.cjs: the runner polls the shared signal file
 * until the named flag is set, takes it by deleting the key, and carries on. A first pass of at
 * most fifteen reads clears a flag left over from before the wait; it ends at the first read that
 * finds a readable file.
 *
 * The wait never gives up in the source. Here the other parties' actions are a finite sequence
 * `env`, one action before each read, and a wait that outlasts `env` ends with `None`: the runner
 * is still blocked when the observation ends.
 */
module SignalWait {
  import opened Wrappers
  import opened Signals
  import opened CoordinationServer

  /** What other parties do to the signal file before one read of the runner: nothing, a POST
      /signal with a name, or a rewrite of the whole file (the reset writes the initial flags). */
  datatype SignalEnv = Quiet | Asserted(name: string) | Replaced(file: SignalFile)

  /** The number of reads of the first pass. */
  const FirstPassReads := 15

  /** The file after the action `ev`. */
  function Observe(f: SignalFile, ev: SignalEnv): (g: SignalFile)
    ensures ev.Quiet? ==> g == f
    ensures ev.Asserted? ==> g == AssertSignal(f, ev.name)
    ensures ev.Replaced? ==> g == ev.file
  {
    match ev
    case Quiet => f
    case Asserted(n) => AssertSignal(f, n)
    case Replaced(h) => h
  }

  /** The action sets the flag `name`. */
  predicate Raises(ev: SignalEnv, name: string) {
    ev == Asserted(name) || (ev.Replaced? && HasFlag(ev.file, name))
  }

  /** What the first pass leaves of a readable file: the flag deleted if it was set, otherwise the
      file untouched. */
  function Cleared(g: SignalFile, name: string): (r: SignalFile)
    requires g.Flags?
    ensures r.Flags? && !HasFlag(r, name)
    ensures !HasFlag(g, name) ==> r == g
  {
    if HasFlag(g, name) then ConsumeFlag(g.flags, name) else g
  }

  /** The wait from read `p` on, with `first` while the first pass has not ended: the file it leaves
      and the read at which it took the flag. */
  function WaitFrom(f: SignalFile, name: string, env: seq<SignalEnv>, p: nat, first: bool): (SignalFile, Option<nat>)
    decreases |env| - p
  {
    if p >= |env| then (f, None)
    else
      var g := Observe(f, env[p]);
      if first && p < FirstPassReads then
        if g.Flags? then WaitFrom(Cleared(g, name), name, env, p + 1, false)
        else WaitFrom(g, name, env, p + 1, true)
      else if HasFlag(g, name) then (ConsumeFlag(g.flags, name), Some(p))
      else WaitFrom(g, name, env, p + 1, false)
  }

  /** When the wait takes the flag, it is at a read within `env`, and the file it leaves no longer
      holds the flag. */
  lemma {:induction false} TakenFlagDeleted(f: SignalFile, name: string, env: seq<SignalEnv>, p: nat, first: bool)
    ensures var (g, r) := WaitFrom(f, name, env, p, first);
      r.Some? ==> p <= r.value < |env| && g.Flags? && !HasFlag(g, name)
    decreases |env| - p
  {
    if p < |env| {
      var g := Observe(f, env[p]);
      if first && p < FirstPassReads {
        if g.Flags? {
          TakenFlagDeleted(Cleared(g, name), name, env, p + 1, false);
        } else {
          TakenFlagDeleted(g, name, env, p + 1, true);
        }
      } else if !HasFlag(g, name) {
        TakenFlagDeleted(g, name, env, p + 1, false);
      }
    }
  }

  /** A flag already set when the wait starts is not taken: the wait only returns after some party
      sets the flag again. */
  lemma {:induction false} OnlyFreshSignalsTaken(f: SignalFile, name: string, env: seq<SignalEnv>, p: nat, first: bool)
    requires (first && p < FirstPassReads) || !HasFlag(f, name)
    ensures var r := WaitFrom(f, name, env, p, first).1;
      r.Some? ==> exists q :: p <= q <= r.value && q < |env| && Raises(env[q], name)
    decreases |env| - p
  {
    if p < |env| {
      var g := Observe(f, env[p]);
      var r := WaitFrom(f, name, env, p, first).1;
      if Raises(env[p], name) {
        if r.Some? {
          TakenFlagDeleted(f, name, env, p, first);
          assert p <= p <= r.value && p < |env| && Raises(env[p], name);
        }
      } else {
        if env[p].Asserted? {
          AssertKeepsOtherFlags(f, env[p].name, name);
        }
        if first && p < FirstPassReads {
          if g.Flags? {
            OnlyFreshSignalsTaken(Cleared(g, name), name, env, p + 1, false);
          } else {
            OnlyFreshSignalsTaken(g, name, env, p + 1, true);
          }
        } else {
          assert !HasFlag(g, name);
          OnlyFreshSignalsTaken(g, name, env, p + 1, false);
        }
      }
    }
  }

  /** A flag set at a read after the first pass is taken by that read at the latest: either the first
      pass has ended (`first` is false), or the read comes after the pass's fifteen reads. */
  lemma {:induction false} RaisedSignalTaken(f: SignalFile, name: string, env: seq<SignalEnv>, p: nat, first: bool, q: nat)
    requires p <= q < |env| && (!first || FirstPassReads <= q) && Raises(env[q], name)
    ensures var r := WaitFrom(f, name, env, p, first).1;
      r.Some? && r.value <= q
    decreases q - p
  {
    var g := Observe(f, env[p]);
    if p < q {
      if first && p < FirstPassReads {
        if g.Flags? {
          RaisedSignalTaken(Cleared(g, name), name, env, p + 1, false, q);
        } else {
          RaisedSignalTaken(g, name, env, p + 1, true, q);
        }
      } else if !HasFlag(g, name) {
        RaisedSignalTaken(g, name, env, p + 1, false, q);
      }
    }
  }

  /** The usual wait: the signal file is readable at the first read, so the first pass ends there, and
      a flag set at any later read is taken by that read at the latest. */
  lemma ReadableStartRaiseTaken(f: SignalFile, name: string, env: seq<SignalEnv>, q: nat)
    requires 0 < q < |env| && Observe(f, env[0]).Flags? && Raises(env[q], name)
    ensures var r := WaitFrom(f, name, env, 0, true).1;
      r.Some? && r.value <= q
  {
    RaisedSignalTaken(Cleared(Observe(f, env[0]), name), name, env, 1, false, q);
  }

  /** An approval posted before the first read of the wait, and never repeated, is lost: the first
      pass deletes it and the runner stays blocked. */
  lemma EarlyApprovalLost(f: SignalFile, name: string, env: seq<SignalEnv>)
    requires |env| > 0 && env[0] == Asserted(name)
    requires forall q :: 0 < q < |env| ==> !Raises(env[q], name)
    ensures WaitFrom(f, name, env, 0, true).1 == None
  {
    var g := Observe(f, env[0]);
    assert g.Flags? && HasFlag(g, name);
    NoRaiseNoTake(Cleared(g, name), name, env, 1, false);
  }

  /** Without a party setting the flag, a wait whose file does not hold it never returns. */
  lemma {:induction false} NoRaiseNoTake(f: SignalFile, name: string, env: seq<SignalEnv>, p: nat, first: bool)
    requires !HasFlag(f, name)
    requires forall q :: p <= q < |env| ==> !Raises(env[q], name)
    ensures WaitFrom(f, name, env, p, first).1 == None
    decreases |env| - p
  {
    if p < |env| {
      var g := Observe(f, env[p]);
      if env[p].Asserted? {
        AssertKeepsOtherFlags(f, env[p].name, name);
      }
      assert !HasFlag(g, name);
      if first && p < FirstPassReads && g.Flags? {
        NoRaiseNoTake(Cleared(g, name), name, env, p + 1, false);
      } else {
        NoRaiseNoTake(g, name, env, p + 1, first && p < FirstPassReads);
      }
    }
  }

  /** One action of another party, applied to the server's signal file. */
  method Deliver(srv: Server, ev: SignalEnv)
    modifies srv`signalFile
    ensures srv.signalFile == Observe(old(srv.signalFile), ev)
  {
    match ev
    case Quiet =>
    case Asserted(n) => srv.Signal(SignalBody(Some(n)));
    case Replaced(h) => srv.signalFile := h;
  }

  /** `waitForSignal`: the first pass, then the polling loop; the result is the read at which the
      flag was taken. */
  method WaitForSignal(srv: Server, name: string, env: seq<SignalEnv>) returns (taken: Option<nat>)
    modifies srv`signalFile
    ensures (srv.signalFile, taken) == WaitFrom(old(srv.signalFile), name, env, 0, true)
  {
    ghost var outcome := WaitFrom(srv.signalFile, name, env, 0, true);
    var p := 0;
    while p < FirstPassReads && p < |env|
      invariant p <= FirstPassReads && p <= |env|
      invariant WaitFrom(srv.signalFile, name, env, p, true) == outcome
    {
      Deliver(srv, env[p]);
      var g := srv.signalFile;
      p := p + 1;
      if g.Flags? {
        srv.signalFile := Cleared(g, name);
        break;
      }
    }
    assert WaitFrom(srv.signalFile, name, env, p, false) == outcome;
    while p < |env|
      invariant p <= |env|
      invariant WaitFrom(srv.signalFile, name, env, p, false) == outcome
      decreases |env| - p
    {
      Deliver(srv, env[p]);
      var g := srv.signalFile;
      if HasFlag(g, name) {
        srv.signalFile := ConsumeFlag(g.flags, name);
        return Some(p);
      }
      p := p + 1;
    }
    return None;
  }
}
