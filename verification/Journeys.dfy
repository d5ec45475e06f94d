/** Runs of the system that are put together step by step. */
module Journeys {
  import opened System

  datatype Journey = Journey(trace: seq<Sys>, steps: seq<Step>)

  ghost predicate IsJourney(r: Journey, c: Config) {
    IsRun(r.trace, r.steps, c)
  }

  /** The state a run has reached. */
  ghost function Reached(r: Journey, c: Config): Sys
    requires IsJourney(r, c)
  {
    r.trace[|r.steps|]
  }

  /** `r'` goes on where `r` ends, without a fault. */
  ghost predicate Continues(r: Journey, r': Journey) {
    && r.trace <= r'.trace && r.steps <= r'.steps
    && (forall i :: |r.steps| <= i < |r'.steps| ==> !IsFault(r'.steps[i]))
  }

  const SETTING_OUT: Journey := Journey([INIT], [])

  lemma ContinuesTransitive(r: Journey, r': Journey, r'': Journey)
    requires Continues(r, r') && Continues(r', r'')
    ensures Continues(r, r'')
  {
    forall i | |r.steps| <= i < |r''.steps| ensures !IsFault(r''.steps[i]) {
      assert i < |r'.steps| ==> r''.steps[i] == r'.steps[i];
    }
  }

  /** One more step without a fault. */
  lemma Go(r: Journey, step: Step, c: Config) returns (r': Journey)
    requires IsJourney(r, c) && Enabled(Reached(r, c), step, c) && !IsFault(step)
    ensures IsJourney(r', c) && Continues(r, r')
    ensures r'.steps == r.steps + [step]
    ensures r'.trace == r.trace + [Next(Reached(r, c), step, c)]
    ensures Reached(r', c) == Next(Reached(r, c), step, c)
  {
    r' := Add(r, step, c);
  }

  /** One more step. */
  lemma Add(r: Journey, step: Step, c: Config) returns (r': Journey)
    requires IsJourney(r, c) && Enabled(Reached(r, c), step, c)
    ensures IsJourney(r', c)
    ensures r'.steps == r.steps + [step]
    ensures r'.trace == r.trace + [Next(Reached(r, c), step, c)]
    ensures Reached(r', c) == Next(Reached(r, c), step, c)
  {
    var s' := Next(Reached(r, c), step, c);
    r' := Journey(r.trace + [s'], r.steps + [step]);
    forall i | 0 <= i < |r'.steps|
      ensures Enabled(r'.trace[i], r'.steps[i], c) && r'.trace[i + 1] == Next(r'.trace[i], r'.steps[i], c)
    {
      if i < |r.steps| {
        assert r'.steps[i] == r.steps[i] && r'.trace[i] == r.trace[i] && r'.trace[i + 1] == r.trace[i + 1];
      }
    }
  }
}
