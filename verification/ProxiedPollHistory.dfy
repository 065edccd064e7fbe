/** What the state of a proxied poll says about the run that led to it. */
module ProxiedPollHistory {
  import opened WakerProxy
  import opened ProxiedPoll

  predicate Effective(steps: seq<Step>)
    requires steps != []
  {
    Enabled(After(steps[..|steps| - 1]), steps[|steps| - 1])
  }

  /** The last step of the run hands `w` a wake. */
  predicate Hands(steps: seq<Step>, w: Waker)
    requires steps != []
  {
    && Effective(steps)
    && (steps[|steps| - 1] == Hand(Effect(w, Wake))
        || (steps[|steps| - 1].Flush? && Effect(w, Wake) in After(steps[..|steps| - 1]).pc.effects))
  }

  /** `w` was handed a wake since the last poll began. */
  predicate HandedSince(steps: seq<Step>, w: Waker) {
    && steps != []
    && (Hands(steps, w)
        || (!(steps[|steps| - 1].StartPoll? && Effective(steps))
            && HandedSince(steps[..|steps| - 1], w)))
  }

  /** The latest caller counts as handed a wake exactly when one of the wakes
      handed over since its poll began was its own. */
  lemma {:induction false} HandedIsHistory(steps: seq<Step>)
    ensures After(steps).handed <==> HandedSince(steps, After(steps).caller)
  {
    hide Fire, Enabled, Inv, After;
    AfterNone();
    if steps != [] {
      var n := |steps| - 1;
      HandedIsHistory(steps[..n]);
      AfterLast(steps);
      InvRun(steps[..n], 0);
      ShapeOf(After(steps[..n]));
      if Effective(steps) {
        HandedStep(After(steps[..n]), steps[n]);
      }
    }
  }

  lemma AfterLast(steps: seq<Step>)
    requires steps != []
    ensures After(steps) == if Effective(steps) then Fire(After(steps[..|steps| - 1]), steps[|steps| - 1])
                            else After(steps[..|steps| - 1])
  {
  }

  lemma HandedStep(s: State, step: Step)
    requires Enabled(s, step)
    ensures var t := Fire(s, step);
            if step.StartPoll? then !t.handed
            else
              && t.caller == s.caller
              && (t.handed <==>
                    || s.handed || step == Hand(Effect(s.caller, Wake))
                    || (step.Flush? && Effect(s.caller, Wake) in s.pc.effects))
  {
    hide Installed, Observed, Bag, Taken, Woken;
  }

  /** The target wakes the waker of its latest poll, once: nobody after a probe,
      the proxy after a pending re-poll, and nobody for a second change. */
  lemma ChangeWakesLatest(s: State, consumed: bool)
    ensures Enabled(s, Probe(consumed)) && !s.ready ==>
              Next(Next(s, Probe(consumed)), Change).waking == s.waking
    ensures Enabled(s, Repoll(consumed)) && !s.ready ==>
              Next(Next(s, Repoll(consumed)), Change).waking == s.waking + multiset{s.current.value}
    ensures Next(Next(s, Change), Change).waking == Next(s, Change).waking
  {
  }
}
