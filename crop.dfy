/**
 * A planted crop of the legacy simulator: a profile, the index of the
 * current growth stage and the days spent in it. Each simulated day the
 * crop moves on to the next stage once the current stage's duration is
 * reached, but only while time acceleration is switched on.
 */
module LegacyCrop {
  import opened Wrappers
  import opened CropLoader

  /** Where a crop is in its life cycle. */
  datatype Progress = Progress(stageIndex: nat, daysInStage: nat)

  /**
   * `stageDurations[i] > 0`. Past the end of the list the duration is
   * `undefined` and the comparison is false.
   */
  predicate Positive(durations: seq<real>, i: nat) {
    i < |durations| && durations[i] > 0.0
  }

  /** The progress after one call of `advanceDay`. */
  function Advanced(durations: seq<real>, p: Progress, accelerated: bool): (q: Progress)
    ensures !accelerated ==> q == p
    ensures q.stageIndex == p.stageIndex || q.stageIndex == p.stageIndex + 1
    ensures q.stageIndex != p.stageIndex <==>
      accelerated && Positive(durations, p.stageIndex) && (p.daysInStage + 1) as real >= durations[p.stageIndex]
    ensures q.stageIndex != p.stageIndex ==> q.daysInStage == 0
    ensures accelerated && q.stageIndex == p.stageIndex ==> q.daysInStage == p.daysInStage + 1
  {
    if !accelerated then p
    else
      var days := p.daysInStage + 1;
      if Positive(durations, p.stageIndex) && days as real >= durations[p.stageIndex] then
        Progress(p.stageIndex + 1, 0)
      else
        Progress(p.stageIndex, days)
  }

  /**
   * The state a crop keeps: its stage index is at most the number of
   * durations, and within a stage of positive duration it has spent fewer
   * days than the duration.
   */
  predicate Settled(durations: seq<real>, p: Progress) {
    p.stageIndex <= |durations| &&
    (Positive(durations, p.stageIndex) ==> (p.daysInStage as real) < durations[p.stageIndex])
  }

  /** One day keeps a crop settled. */
  lemma AdvanceKeepsSettled(durations: seq<real>, p: Progress, accelerated: bool)
    requires Settled(durations, p)
    ensures Settled(durations, Advanced(durations, p, accelerated))
  {
    var q := Advanced(durations, p, accelerated);
    if q.stageIndex == p.stageIndex && Positive(durations, p.stageIndex) && accelerated {
      assert (q.daysInStage as real) == (p.daysInStage + 1) as real < durations[p.stageIndex];
    }
  }

  /** `n` accelerated days in a row. */
  function AdvancedDays(durations: seq<real>, p: Progress, n: nat): (q: Progress)
    ensures p.stageIndex <= q.stageIndex <= p.stageIndex + n
    decreases n
  {
    if n == 0 then p else AdvancedDays(durations, Advanced(durations, p, true), n - 1)
  }

  /** A settled crop stays settled, so its stage index never passes the number of durations. */
  lemma {:induction false} SettledAfterDays(durations: seq<real>, p: Progress, n: nat)
    requires Settled(durations, p)
    ensures Settled(durations, AdvancedDays(durations, p, n))
    ensures AdvancedDays(durations, p, n).stageIndex <= |durations|
    decreases n
  {
    if n > 0 {
      AdvanceKeepsSettled(durations, p, true);
      SettledAfterDays(durations, Advanced(durations, p, true), n - 1);
    }
  }

  /** A new crop is settled. */
  lemma FreshSettled(durations: seq<real>)
    ensures Settled(durations, Progress(0, 0))
  {
  }

  /**
   * A stage whose duration is a whole number `k` of days is left after
   * exactly the days that remain of it.
   */
  lemma {:induction false} StageLasts(durations: seq<real>, i: nat, d: nat, k: nat)
    requires i < |durations| && durations[i] == k as real && d < k
    ensures AdvancedDays(durations, Progress(i, d), k - d) == Progress(i + 1, 0)
    ensures forall m :: 0 <= m < k - d ==> AdvancedDays(durations, Progress(i, d), m).stageIndex == i
    decreases k - d
  {
    var next := Advanced(durations, Progress(i, d), true);
    if d + 1 == k {
      assert next == Progress(i + 1, 0);
      assert AdvancedDays(durations, next, 0) == next;
    } else {
      assert next == Progress(i, d + 1);
      StageLasts(durations, i, d + 1, k);
      forall m | 0 < m < k - d
        ensures AdvancedDays(durations, Progress(i, d), m).stageIndex == i
      {
        assert AdvancedDays(durations, Progress(i, d), m) == AdvancedDays(durations, next, m - 1);
      }
    }
  }

  /** A stage whose duration is zero, negative or missing is never left. */
  lemma {:induction false} StageNeverLeft(durations: seq<real>, i: nat, d: nat, n: nat)
    requires !Positive(durations, i)
    ensures AdvancedDays(durations, Progress(i, d), n) == Progress(i, d + n)
    decreases n
  {
    if n > 0 {
      StageNeverLeft(durations, i, d + 1, n - 1);
    }
  }

  /** The `stage` getter: `profile.stages[stageIndex]`, `undefined` past the end. */
  function StageName(profile: CropProfile, stageIndex: nat): (s: Option<string>)
    ensures s.Some? <==> stageIndex < |profile.stages|
    ensures s.Some? ==> s.value in profile.stages
  {
    if stageIndex < |profile.stages| then Some(profile.stages[stageIndex]) else None
  }

  /**
   * `profile.optimalEnv[this.stage] || {}`. The missing stage is looked up
   * under the key "undefined", as JavaScript converts it; `None` is the
   * empty record.
   */
  function OptimalEnvAt(profile: CropProfile, stageIndex: nat): (r: Option<StageEnv>)
    ensures r.Some? ==> r.value in profile.optimalEnv.Values
    ensures stageIndex < |profile.stages| ==>
      (r.Some? <==> profile.stages[stageIndex] in profile.optimalEnv)
  {
    var key := StageName(profile, stageIndex).GetOr("undefined");
    if key in profile.optimalEnv then Some(profile.optimalEnv[key]) else None
  }

  /** The entry returned for a stage is the one recorded under the stage's name. */
  lemma OptimalEnvOfStage(profile: CropProfile, stageIndex: nat)
    requires stageIndex < |profile.stages| && profile.stages[stageIndex] in profile.optimalEnv
    ensures OptimalEnvAt(profile, stageIndex) == Some(profile.optimalEnv[profile.stages[stageIndex]])
  {
  }

  /** Past the last stage the result is the empty record unless a stage is literally named "undefined". */
  lemma OptimalEnvPastEnd(profile: CropProfile, stageIndex: nat)
    requires stageIndex >= |profile.stages| && "undefined" !in profile.optimalEnv
    ensures OptimalEnvAt(profile, stageIndex) == None
  {
  }

  /** A crop planted from a profile. */
  class Crop {
    const profile: CropProfile
    var stageIndex: nat
    var daysInStage: nat

    constructor (profile: CropProfile)
      ensures this.profile == profile && Current() == Progress(0, 0)
    {
      this.profile := profile;
      stageIndex, daysInStage := 0, 0;
    }

    function Current(): Progress
      reads this
    {
      Progress(stageIndex, daysInStage)
    }

    function Stage(): Option<string>
      reads this
    {
      StageName(profile, stageIndex)
    }

    /** `advanceDay()`; `accelerated` is the configured time-acceleration switch. */
    method AdvanceDay(accelerated: bool)
      modifies this
      ensures Current() == Advanced(profile.stageDurations, old(Current()), accelerated)
    {
      if !accelerated {
        return;
      }
      daysInStage := daysInStage + 1;
      if stageIndex < |profile.stageDurations| {
        var duration := profile.stageDurations[stageIndex];
        if duration > 0.0 && daysInStage as real >= duration {
          stageIndex := stageIndex + 1;
          daysInStage := 0;
        }
      }
    }

    function OptimalEnv(): Option<StageEnv>
      reads this
    {
      OptimalEnvAt(profile, stageIndex)
    }
  }
}
