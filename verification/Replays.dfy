/** Applied provider events are remembered: over any run, delivering one again changes nothing, and
    reusing its identity for something else never moves money. */
module Replays {
  import opened Wrappers
  import opened Records
  import opened StateEngine
  import opened Rules
  import opened Effects
  import opened System
  import opened History
  import opened Steps
  import opened Decisions
  import opened CaptureOrder
  import opened Observations

  /** The event of `u` was applied: the log answers for its identity with its content. */
  ghost predicate Applied(s: State, u: Update) {
    && EventIdentity(u).Some?
    && KnownReplay(s.replay, ReplayFor(s.facts, u).value) == ReplayFor(s.facts, u)
  }

  /** An observation that adds to the replay log was new, and is applied from then on. */
  lemma LoggedIsApplied(s: State, u: Update)
    requires Sound(s) && StepObserve(s, Some(u)).Ok? && StepObserve(s, Some(u)).value.replay != s.replay
    ensures Applied(StepObserve(s, Some(u)).value, u)
  {
    hide AggregateFacts, ApplyCorrelated, MarkedRefund, Replaced, Sound, Develops, FinanciallyPossible, Screened,
      KnownReplay, ContentOf;
    var t := StepObserve(s, Some(u)).value;
    ObserveStep(s, Some(u));
    SameContext(s, t, u);
    var record := ReplayFor(s.facts, u);
    assert record.Some? && KnownReplay(s.replay, record.value).None?;
    KnownWhenAppended(s.replay, record.value);
  }

  lemma SameContext(s: State, t: State, u: Update)
    requires Develops(s, t)
    ensures ReplayFor(s.facts, u) == ReplayFor(t.facts, u) && s.replay <= t.replay
  {
  }

  lemma StaysApplied(s: State, t: State, u: Update)
    requires Applied(s, u) && Develops(s, t)
    ensures Applied(t, u)
  {
    hide Develops, ContentOf;
    SameContext(s, t, u);
    KnownStays(s.replay, t.replay[|s.replay|..], ReplayFor(s.facts, u).value);
    assert t.replay == s.replay + t.replay[|s.replay|..];
  }

  /** A new and possible event is logged when it is accepted. */
  lemma NewIsLogged(s: State, u: Update)
    requires Sound(s) && StepObserve(s, Some(u)).Ok? && EventIdentity(u).Some? && NewAndPossible(s, u)
    ensures StepObserve(s, Some(u)).value.replay != s.replay
  {
    hide Sound, StepObserve, NewAndPossible, ContentOf;
    assert Step(s, Observe(Some(u))) == StepObserve(s, Some(u));
    ObservationLogged(s, Observe(Some(u)));
  }

  /** Whatever is called in between, delivering an applied event again changes nothing. */
  lemma DuplicateChangesNothing(s: State, u: Update, commands: seq<Command>)
    requires Sound(s) && StepObserve(s, Some(u)).Ok? && EventIdentity(u).Some? && NewAndPossible(s, u)
    ensures var t := Run(StepObserve(s, Some(u)).value, commands);
      After(t, Observe(Some(u))) == t
  {
    hide Sound, Develops, Applied, StepObserve, Run, NewAndPossible;
    ObserveStep(s, Some(u));
    NewIsLogged(s, u);
    LoggedIsApplied(s, u);
    var first := StepObserve(s, Some(u)).value;
    RunDevelops(first, commands);
    StaysApplied(first, Run(first, commands), u);
    AppliedIsIgnored(Run(first, commands), u);
  }

  lemma AppliedIsIgnored(s: State, u: Update)
    requires Applied(s, u)
    ensures After(s, Observe(Some(u))) == s
  {
    hide PlanNewEvidence, FinanciallyPossible, ContentOf, KnownReplay, ObservationValid, Replaced;
    ReplacedNothing(s.operations);
    assert Step(s, Observe(Some(u))) == StepObserve(s, Some(u));
    assert KnownReplay(s.replay, ReplayFor(s.facts, u).value).value == ReplayFor(s.facts, u).value;
  }

  /** The identity of an applied event with any other content is a dispute: it moves no money, no
      status and no operation, and requires reconciliation. */
  lemma ReusedIdentityIsDisputed(s: State, u: Update, commands: seq<Command>, v: Update)
    requires Sound(s) && StepObserve(s, Some(u)).Ok? && EventIdentity(u).Some? && NewAndPossible(s, u)
    requires ObservationValid(v) && EventIdentity(v) == EventIdentity(u) && ContentOf(v) != ContentOf(u)
    ensures var t := Run(StepObserve(s, Some(u)).value, commands);
      var w := After(t, Observe(Some(v)));
      && SameMoney(t.facts, w.facts)
      && w.facts.status == t.facts.status
      && w.operations == t.operations
      && w.replay == t.replay
      && w.facts.reconciliationRequired
  {
    hide Sound, Develops, Applied, StepObserve, Run, ContentOf, ObservationValid, NewAndPossible;
    ObserveStep(s, Some(u));
    NewIsLogged(s, u);
    LoggedIsApplied(s, u);
    var first := StepObserve(s, Some(u)).value;
    RunDevelops(first, commands);
    StaysApplied(first, Run(first, commands), u);
    ReuseIsDisputed(Run(first, commands), u, v);
  }

  lemma ReuseIsDisputed(s: State, u: Update, v: Update)
    requires Applied(s, u)
    requires ObservationValid(v) && EventIdentity(v) == EventIdentity(u) && ContentOf(v) != ContentOf(u)
    ensures var w := After(s, Observe(Some(v)));
      && SameMoney(s.facts, w.facts)
      && w.facts.status == s.facts.status
      && w.operations == s.operations
      && w.replay == s.replay
      && w.facts.reconciliationRequired
  {
    hide PlanNewEvidence, FinanciallyPossible, ContentOf, ObservationValid, Replaced, KnownReplay;
    ReplacedNothing(s.operations);
    SameIdentityLookup(s.replay, ReplayFor(s.facts, u).value, ReplayFor(s.facts, v).value);
    assert Step(s, Observe(Some(v))) == StepObserve(s, Some(v));
  }
}
