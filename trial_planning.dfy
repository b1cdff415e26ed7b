/**
 * Building the trial plan of the rotation experiment (`generate_trial_set`): keep the labelled
 * stimuli, or fall back to a prefix of the whole collection when too few are labelled, shuffle,
 * truncate, and enable rotation on the first `nWith` positions.
 */
module TrialPlanning {
  import opened Common
  import opened Stimuli

  /** One planned trial. `isMirror` is frozen when the plan is built. */
  datatype Trial = Trial(stimulus: Stimulus, rotationEnabled: bool, isMirror: Option<bool>)

  /** The stimuli whose `is_mirror` is not `None`, in input order. */
  function ValidStimuli(stimuli: seq<Stimulus>): (v: seq<Stimulus>)
    ensures forall s :: s in v ==> IsLabelled(s)
    ensures forall s :: s in stimuli && IsLabelled(s) ==> s in v
  {
    var v := Filter(stimuli, IsLabelled);
    forall s | s in stimuli && IsLabelled(s) ensures s in v {
      FilterKeeps(stimuli, IsLabelled, s);
    }
    v
  }

  /** Too few labelled stimuli for the requested number of trials. */
  predicate IsFallback(stimuli: seq<Stimulus>, total: nat)
  {
    |ValidStimuli(stimuli)| < total
  }

  /** The list that gets shuffled: the labelled stimuli, or the first `total` of all stimuli. */
  function Candidates(stimuli: seq<Stimulus>, total: nat): (c: seq<Stimulus>)
    ensures IsFallback(stimuli, total) ==> c <= stimuli && |c| == Min(total, |stimuli|)
    ensures !IsFallback(stimuli, total) ==> c == ValidStimuli(stimuli) && |c| >= total
  {
    if IsFallback(stimuli, total) then stimuli[..Min(total, |stimuli|)] else ValidStimuli(stimuli)
  }

  function StimuliOf(trials: seq<Trial>): (r: seq<Stimulus>)
    ensures |r| == |trials|
    ensures forall i :: 0 <= i < |trials| ==> r[i] == trials[i].stimulus
  {
    seq(|trials|, i requires 0 <= i < |trials| => trials[i].stimulus)
  }

  lemma PrefixMultiset<T>(s: seq<T>, k: nat)
    requires k <= |s|
    ensures multiset(s[..k]) <= multiset(s)
  {
    assert s == s[..k] + s[k..];
  }

  /** The append loop of `generate_trial_set`: one trial per chosen stimulus, rotation on the first `nWith`. */
  method AssignConditions(chosen: seq<Stimulus>, nWith: nat) returns (trials: seq<Trial>)
    ensures StimuliOf(trials) == chosen
    ensures forall i :: 0 <= i < |trials| ==> trials[i].rotationEnabled == (i < nWith)
    ensures forall i :: 0 <= i < |trials| ==> trials[i].isMirror == MirrorOrFalse(chosen[i])
  {
    trials := [];
    var i := 0;
    while i < |chosen|
      invariant 0 <= i <= |chosen|
      invariant StimuliOf(trials) == chosen[..i]
      invariant forall k :: 0 <= k < i ==> trials[k].rotationEnabled == (k < nWith)
      invariant forall k :: 0 <= k < i ==> trials[k].isMirror == MirrorOrFalse(chosen[k])
    {
      trials := trials + [Trial(chosen[i], i < nWith, MirrorOrFalse(chosen[i]))];
      i := i + 1;
    }
    assert chosen[..i] == chosen;
  }

  /** Whatever is drawn from a multiset of labelled stimuli is labelled. */
  lemma DrawnFromLabelled(drawn: seq<Stimulus>, pool: seq<Stimulus>)
    requires multiset(drawn) <= multiset(pool)
    requires forall s :: s in pool ==> IsLabelled(s)
    ensures forall i :: 0 <= i < |drawn| ==> IsLabelled(drawn[i])
  {
    forall i | 0 <= i < |drawn| ensures IsLabelled(drawn[i]) {
      assert drawn[i] in multiset(drawn);
      assert drawn[i] in multiset(pool);
    }
  }

  /**
   * `generate_trial_set(stimuli, nWith, nWithout)`. The shuffle is any reordering of the
   * candidates; the caller's sequence is a value and is never reordered.
   */
  method GenerateTrialSet(stimuli: seq<Stimulus>, nWith: nat, nWithout: nat) returns (trials: seq<Trial>)
    ensures |trials| == Min(nWith + nWithout, |Candidates(stimuli, nWith + nWithout)|)
    ensures forall i :: 0 <= i < |trials| ==> trials[i].rotationEnabled == (i < nWith)
    ensures forall i :: 0 <= i < |trials| ==> trials[i].isMirror == MirrorOrFalse(trials[i].stimulus)
    ensures multiset(StimuliOf(trials)) <= multiset(Candidates(stimuli, nWith + nWithout))
    ensures IsFallback(stimuli, nWith + nWithout) ==>
      multiset(StimuliOf(trials)) == multiset(stimuli[..Min(nWith + nWithout, |stimuli|)])
    ensures !IsFallback(stimuli, nWith + nWithout) ==>
      |trials| == nWith + nWithout &&
      forall i :: 0 <= i < |trials| ==> trials[i].isMirror.Some? && IsLabelled(trials[i].stimulus)
  {
    var total := nWith + nWithout;
    var valid := ValidStimuli(stimuli);
    if |valid| < total {
      valid := stimuli[..Min(total, |stimuli|)];
    }
    assert valid == Candidates(stimuli, total);
    // random.shuffle: any permutation of the candidates
    var shuffled :| multiset(shuffled) == multiset(valid);
    assert |shuffled| == |valid| by {
      assert |multiset(shuffled)| == |multiset(valid)|;
    }
    var chosen := shuffled[..Min(total, |shuffled|)];
    PrefixMultiset(shuffled, Min(total, |shuffled|));
    trials := AssignConditions(chosen, nWith);
    if !IsFallback(stimuli, total) {
      DrawnFromLabelled(chosen, valid);
    } else {
      assert chosen == shuffled;
    }
  }
}
