/** Properties of callback traces: which phase (pressed or released) a trace
    leaves the button in, and the two orderings the engine guarantees:
    Hold is only ever called while pressed, and Press and Release alternate. */
module Traces {
  import opened Types

  /** Nothing decided yet, or the last Press or Release seen. */
  datatype Phase = Undecided | Pressed | Released

  /** The phase a Press or Release call puts the button in. */
  function PhaseAfter(e: Event): Phase
    requires !e.Hold?
  {
    if e.Press? then Pressed else Released
  }

  /** The phase after a trace: that of its last Press or Release; Hold calls
      do not change it. */
  function PhaseOf(t: seq<Event>): Phase
    decreases |t|
  {
    if t == [] then Undecided
    else if t[|t| - 1].Hold? then PhaseOf(t[..|t| - 1])
    else PhaseAfter(t[|t| - 1])
  }

  /** Every Hold call comes after a Press with no Release in between. */
  predicate HoldsOnlyWhilePressed(t: seq<Event>) {
    forall k | 0 <= k < |t| && t[k].Hold? :: PhaseOf(t[..k]) == Pressed
  }

  /** No Press follows a Press and no Release follows a Release, Hold calls
      aside. */
  predicate PressReleaseAlternate(t: seq<Event>) {
    forall k | 0 <= k < |t| && !t[k].Hold? :: PhaseOf(t[..k]) != PhaseAfter(t[k])
  }

  lemma PhaseOfAppend(t: seq<Event>, e: Event)
    ensures PhaseOf(t + [e]) == if e.Hold? then PhaseOf(t) else PhaseAfter(e)
  {
    assert (t + [e])[..|t|] == t;
  }

  /** Appending a call keeps Hold calls inside pressed phases when a Hold
      call is only appended while pressed. */
  lemma HoldsOnlyWhilePressedAppend(t: seq<Event>, e: Event)
    requires HoldsOnlyWhilePressed(t)
    requires e.Hold? ==> PhaseOf(t) == Pressed
    ensures HoldsOnlyWhilePressed(t + [e])
  {
    var t' := t + [e];
    forall k | 0 <= k < |t'| && t'[k].Hold?
      ensures PhaseOf(t'[..k]) == Pressed
    {
      if k < |t| {
        assert t'[..k] == t[..k];
      } else {
        assert t'[..k] == t;
      }
    }
  }

  /** Appending a call keeps the alternation when a Press or Release is only
      appended in the other phase. */
  lemma PressReleaseAlternateAppend(t: seq<Event>, e: Event)
    requires PressReleaseAlternate(t)
    requires !e.Hold? ==> PhaseOf(t) != PhaseAfter(e)
    ensures PressReleaseAlternate(t + [e])
  {
    var t' := t + [e];
    forall k | 0 <= k < |t'| && !t'[k].Hold?
      ensures PhaseOf(t'[..k]) != PhaseAfter(t'[k])
    {
      if k < |t| {
        assert t'[..k] == t[..k];
      } else {
        assert t'[..k] == t;
      }
    }
  }
}
