/** Every failure of the controller leaves its gate denied, or the controller terminal. */
module FailClosed {
  import opened Common
  import opened Controller

  /** The last gate operation that may have had an effect on the window was an ARM: an ARM counts
      even when it reported an error, a DENY only when it was acknowledged. */
  predicate MayBeArmed(log: seq<Event>) {
    log != [] &&
    match log[|log| - 1]
    case ArmAsked(_, _) => true
    case DenyAsked(ok) => !ok && MayBeArmed(log[..|log| - 1])
    case _ => MayBeArmed(log[..|log| - 1])
  }

  /** Where a controller whose gate may be armed can stand. */
  predicate Accounted(s: State) {
    || s.v.terminal
    || s.at.Failing? || s.at.Quarantining? || s.at.ArmedContext? || s.at.ArmedClock?
    || (s.v.ack && s.v.stableRV == "")
  }

  lemma NextAccounts(s: State, cfg: Config, e: Event, armed: bool)
    requires Next(s, cfg, e).Some? && (armed ==> Accounted(s))
    ensures var t := Next(s, cfg, e).value;
            (if e.ArmAsked? then true else if e.DenyAsked? then !e.ok && armed else armed) ==> Accounted(t)
  {
  }

  lemma {:induction false} RunAccounts(cfg: Config, log: seq<Event>, states: seq<Option<State>>, k: nat)
    requires Runs(cfg, log, states) && k <= |log| && states[k].Some?
    ensures MayBeArmed(log[..k]) ==> Accounted(states[k].value)
  {
    if k > 0 {
      var e := log[k - 1];
      assert log[..k][..k - 1] == log[..k - 1];
      assert states[k] == Advance(states[k - 1], cfg, e);
      RunAccounts(cfg, log, states, k - 1);
      NextAccounts(states[k - 1].value, cfg, e, MayBeArmed(log[..k - 1]));
    }
  }

  predicate HoldsNothing(v: Vars) {
    !v.ack && v.stableRV == "" && v.since == 0
  }

  lemma JudgeFailing(v: Vars, cfg: Config, r: Record, n: u64)
    requires Judge(v, cfg, r, n).at.Failing?
    ensures HoldsNothing(Judge(v, cfg, r, n).v)
  {
  }

  lemma NextFailing(s: State, cfg: Config, e: Event)
    requires Next(s, cfg, e).Some? && Next(s, cfg, e).value.at.Failing?
    ensures HoldsNothing(Next(s, cfg, e).value.v)
  {
    if s.at.GotClock? && e.Clock? {
      if Tick(s.v, e.n) {
        JudgeFailing(s.v, cfg, s.at.r, e.n);
      }
    }
  }

  lemma {:induction false} FailingHoldsNothing(cfg: Config, log: seq<Event>, states: seq<Option<State>>, k: nat)
    requires Runs(cfg, log, states) && k <= |log| && states[k].Some? && states[k].value.at.Failing?
    ensures !states[k].value.v.ack && states[k].value.v.stableRV == "" && states[k].value.v.since == 0
  {
    assert k > 0;
    var e := log[k - 1];
    assert states[k] == Advance(states[k - 1], cfg, e);
    NextFailing(states[k - 1].value, cfg, e);
  }

  /** Between Steps, a controller that is neither terminal nor the acknowledged holder has had its
      gate denied since the last ARM. */
  lemma IdleGateIsDenied(cfg: Config, log: seq<Event>, states: seq<Option<State>>, k: nat)
    requires Runs(cfg, log, states) && k <= |log| && states[k].Some?
    requires states[k].value.at.Idle? && !states[k].value.v.terminal && !states[k].value.v.ack
    ensures !MayBeArmed(log[..k])
  {
    RunAccounts(cfg, log, states, k);
  }

  /** A Step that failed has just been acknowledged a DENY, with its authorisation and its
      quarantine forgotten, or the controller is terminal. */
  lemma FailedStepIsClosed(cfg: Config, log: seq<Event>, states: seq<Option<State>>, k: nat)
    requires Runs(cfg, log, states) && k <= |log| && states[k].Some? && states[k].value.at == Idle(Failure)
    ensures var v := states[k].value.v;
            v.terminal ||
            (&& 0 < k && log[k - 1] == DenyAsked(true)
             && !v.ack && v.stableRV == "" && v.since == 0 && !MayBeArmed(log[..k]))
  {
    assert k > 0;
    var s := states[k - 1];
    assert states[k] == Advance(s, cfg, log[k - 1]);
    if !states[k].value.v.terminal {
      FailingHoldsNothing(cfg, log, states, k - 1);
      IdleGateIsDenied(cfg, log, states, k);
    }
  }

  /** Terminal is absorbing: nothing but refused Steps follows, so no GET, CAPTURE, CAS or ARM. */
  lemma {:induction false} TerminalIsFinal(cfg: Config, log: seq<Event>, states: seq<Option<State>>, k: nat, m: nat)
    requires Runs(cfg, log, states) && k <= m <= |log| && states[k].Some? && states[m].Some?
    requires states[k].value.at.Idle? && states[k].value.v.terminal
    ensures states[m].value.v == states[k].value.v
    ensures states[m].value.at == if k == m then states[k].value.at else Idle(Failure)
    ensures forall j :: k <= j < m ==> log[j] == Begin
  {
    if k < m {
      assert states[m] == Advance(states[m - 1], cfg, log[m - 1]);
      TerminalIsFinal(cfg, log, states, k, m - 1);
    }
  }
}
