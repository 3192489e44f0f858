/** What the notebook says of a run, against what its effect came back with and the facts it was verified on. */
module RunOutcomes {
  import opened Wrappers
  import opened Predicates
  import opened PackJournal
  import opened RunModel
  import opened RunSafety
  import opened RunTheorems
  import opened RunDispatch

  // ----- The journal and the effects -----

  /** Over all runs, crashes included: a SUCCEEDED entry stands for an effect that returned, with just that
    * result, and an ERRED one for an effect that threw just that exception.  An effect that came back has an
    * entry, which says so unless a crash came before. */
  lemma EntriesTellTheOutcome(cfg: Config, steps: seq<Step>, i: RunId)
    requires Legal(cfg, INIT, steps) && i < |Reached(cfg, steps).runs|
    ensures var w := Reached(cfg, steps);
            var k := KeyOf(w.runs[i]);
            && (k in w.book.entries && w.book.entries[k].state == SUCCEEDED ==>
                  i in w.outcomes && w.outcomes[i].Returns? && w.book.entries[k].detail == w.outcomes[i].result)
            && (k in w.book.entries && w.book.entries[k].state == ERRED ==>
                  && i in w.outcomes && w.outcomes[i].Throws?
                  && w.book.entries[k].detail == map["type" := w.outcomes[i].kind, "message" := w.outcomes[i].message])
            && (i in w.outcomes ==>
                  && k in w.book.entries && w.book.effects[k] == 1
                  && (w.book.entries[k].state == IN_FLIGHT ||
                      w.book.entries[k].state == if w.outcomes[i].Returns? then SUCCEEDED else ERRED))
  {
    ReachedIsSafe(cfg, steps);
    assert RunOk(Reached(cfg, steps), i);
    if IsPack(Reached(cfg, steps).runs[i]) {
      PairsAgree(Reached(cfg, steps), i);
    }
  }

  /** So the notebook tells of a pack-owned run what its effect came back with: DONE and REPLAN_REQUIRED that
    * it returned, FAILED that it threw. */
  lemma NotebookTellsTheOutcome(cfg: Config, steps: seq<Step>, i: RunId)
    requires Legal(cfg, INIT, steps) && i < |Reached(cfg, steps).runs| && Reached(cfg, steps).runs[i].action.owner != BUILTIN
    ensures var w := Reached(cfg, steps);
            && (w.runs[i].status == DONE || w.runs[i].status == REPLAN_REQUIRED ==> i in w.outcomes && w.outcomes[i].Returns?)
            && (w.runs[i].status == FAILED ==> i in w.outcomes && w.outcomes[i].Throws?)
  {
    EntriesTellTheOutcome(cfg, steps, i);
    NotebookAndJournalAgree(cfg, steps, i);
  }

  // ----- Verification -----

  /** The facts are what the action was to bring about. */
  predicate Meets(a: Action, facts: Facts) {
    match a.verify
    case Some(p) => Evaluate(p, facts) == Holds
    case None => forall d | d in a.expectedDelta :: Evaluate(d, facts) == Holds
  }

  /** They are not, and evaluating them said so without an exception. */
  predicate Misses(a: Action, facts: Facts) {
    match a.verify
    case Some(p) => Evaluate(p, facts) == Fails
    case None =>
      var ds := a.expectedDelta;
      exists k | 0 <= k < |ds| :: Evaluate(ds[k], facts) == Fails && forall j | 0 <= j < k :: Evaluate(ds[j], facts) == Holds
  }

  lemma VerificationMeans(a: Action, facts: Facts)
    ensures Evaluate(Verification(a), facts) == Holds <==> Meets(a, facts)
    ensures Evaluate(Verification(a), facts) == Fails <==> Misses(a, facts)
  {
    var ds := a.expectedDelta;
    AllMeans(ds, facts);
    assert (forall d | d in ds :: Evaluate(d, facts) == Holds) <==> forall k | 0 <= k < |ds| :: Evaluate(ds[k], facts) == Holds;
  }

  /** The wait that timed out and is not to count as a failure. */
  predicate IsPendingWait(a: Action, detail: Payload) {
    a.verb == "WAIT_UNTIL" && "nonfatal_timeout" in detail && detail["nonfatal_timeout"] == "true"
  }

  /** The status that an answer leads to.  After a success that is no pending wait, and with facts read, it is
    * DONE if and only if they meet what the action was to bring about, and REPLAN_REQUIRED if and only if
    * they miss it. */
  lemma VerdictMeans(a: Action, result: Result, o: Option<Observation>, runs: seq<Run>)
    ensures result.status == InFlight ==> Verdict(a, result, o, runs) == Some(UNKNOWN)
    ensures result.status == Failure || result.status == Expired ==> Verdict(a, result, o, runs) == Some(FAILED)
    ensures result.status == Success && FactsOf(o, runs) == None ==> Verdict(a, result, o, runs) == None
    ensures result.status == Success && FactsOf(o, runs).Some? && IsPendingWait(a, result.detail) ==>
              Verdict(a, result, o, runs) == Some(DONE)
    ensures result.status == Success && FactsOf(o, runs).Some? && !IsPendingWait(a, result.detail) ==>
              && o.Some?
              && (Verdict(a, result, o, runs) == Some(DONE) <==> Meets(a, o.value.facts))
              && (Verdict(a, result, o, runs) == Some(REPLAN_REQUIRED) <==> Misses(a, o.value.facts))
              && (Verdict(a, result, o, runs) == None <==> !Meets(a, o.value.facts) && !Misses(a, o.value.facts))
  {
    if o.Some? {
      VerificationMeans(a, o.value.facts);
    }
  }

  /** Over all runs: a run that is DONE was verified on facts that met what it was to bring about, unless it
    * is a pending wait; one that is REPLAN_REQUIRED, on facts that missed it. */
  lemma ConclusionsRestOnFacts(cfg: Config, steps: seq<Step>, i: RunId)
    requires Legal(cfg, INIT, steps) && i < |Reached(cfg, steps).runs|
    ensures var w := Reached(cfg, steps);
            var a := w.runs[i].action;
            && (w.runs[i].status == DONE ==>
                  || (i in w.checks && Meets(a, w.checks[i]))
                  || (a.owner == BUILTIN && a.verb == "WAIT_UNTIL")
                  || (i in w.outcomes && w.outcomes[i].Returns? && IsPendingWait(a, w.outcomes[i].result)))
            && (w.runs[i].status == REPLAN_REQUIRED ==> i in w.checks && Misses(a, w.checks[i]))
  {
    var w := Reached(cfg, steps);
    ReachedIsSafe(cfg, steps);
    EntriesTellTheOutcome(cfg, steps, i);
    assert RunOk(w, i);
    if i in w.checks {
      VerificationMeans(w.runs[i].action, w.checks[i]);
    }
  }

  /** What was logged as checked was read at a `Check` step of this run. */
  lemma {:induction false} ChecksWereMade(cfg: Config, steps: seq<Step>, i: RunId)
    requires Legal(cfg, INIT, steps) && i in Reached(cfg, steps).checks
    ensures Check(i, Reached(cfg, steps).checks[i]) in steps
  {
    var so, s := steps[..|steps| - 1], steps[|steps| - 1];
    assert steps == so + [s];
    if !(s.Check? && s.run == i) {
      ChecksWereMade(cfg, so, i);
    }
  }

  /** What was logged as an outcome is what the effect of this run came back with. */
  lemma {:induction false} OutcomesWereReached(cfg: Config, steps: seq<Step>, i: RunId)
    requires Legal(cfg, INIT, steps) && i in Reached(cfg, steps).outcomes
    ensures EndEffect(i, Reached(cfg, steps).outcomes[i]) in steps
  {
    var so, s := steps[..|steps| - 1], steps[|steps| - 1];
    assert steps == so + [s];
    if !(s.EndEffect? && s.run == i) {
      OutcomesWereReached(cfg, so, i);
    }
  }

  // ----- The builtin actions -----

  /** A builtin action succeeds exactly if its verb is known and it ran to its end, and fails on an unknown
    * verb or a timeout. */
  lemma BuiltinAnswerMeans(a: Action, given: BuiltinOutcome)
    ensures var known := a.verb in ["WAIT_UNTIL", "CALL_HUMAN", "WAIT"];
            var answer := BuiltinAnswer(a, given);
            && (answer == None <==> known && given.Raised?)
            && (answer.Some? ==> (answer.value.status == Success <==> known && given.Completed?))
            && (answer.Some? ==> (answer.value.status == Failure <==> !known || given.TimedOut?))
  {
  }
}
