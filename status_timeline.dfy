/** The eleven-step progress bar of the job page: each step is completed,
    current or pending relative to the current step; completed steps show a
    check mark, the others their 1-based number; a connector follows every
    step but the last and is coloured only behind a completed step. */
module StatusTimeline {
  import opened Seqs
  import Constants

  datatype StepState = Completed | Current | Pending
  datatype Marker = CheckMark | Number(n: int)
  datatype Connector = NoConnector | SuccessBar | MutedBar

  datatype StepView = StepView(step: string, state: StepState, marker: Marker, connector: Connector)

  predicate IsCompleted(index: int, currentStep: int) { index < currentStep }
  predicate IsCurrent(index: int, currentStep: int) { index == currentStep }
  predicate IsPending(index: int, currentStep: int) { index > currentStep }

  /** Exactly one of the three classifications holds for every index. */
  lemma ExactlyOneState(index: int, currentStep: int)
    ensures IsCompleted(index, currentStep) || IsCurrent(index, currentStep) || IsPending(index, currentStep)
    ensures !(IsCompleted(index, currentStep) && IsCurrent(index, currentStep))
    ensures !(IsCompleted(index, currentStep) && IsPending(index, currentStep))
    ensures !(IsCurrent(index, currentStep) && IsPending(index, currentStep))
  {
  }

  function View(index: nat, currentStep: int): StepView
    requires index < |Constants.TimelineSteps|
  {
    var state :=
      if IsCompleted(index, currentStep) then Completed
      else if IsCurrent(index, currentStep) then Current
      else Pending;
    StepView(
      Constants.TimelineSteps[index],
      state,
      if IsCompleted(index, currentStep) then CheckMark else Number(index + 1),
      if index < |Constants.TimelineSteps| - 1 then
        (if IsCompleted(index, currentStep) then SuccessBar else MutedBar)
      else NoConnector)
  }

  /** The rendered timeline for a current step. */
  function Timeline(currentStep: int): (t: seq<StepView>)
    ensures |t| == |Constants.TimelineSteps|
    ensures forall i :: 0 <= i < |t| ==>
      t[i].step == Constants.TimelineSteps[i] &&
      (t[i].state == Completed <==> i < currentStep) &&
      (t[i].state == Current <==> i == currentStep) &&
      (t[i].state == Pending <==> i > currentStep) &&
      (t[i].marker == if i < currentStep then CheckMark else Number(i + 1)) &&
      (t[i].connector == NoConnector <==> i == |t| - 1) &&
      (t[i].connector == SuccessBar <==> i < |t| - 1 && i < currentStep)
  {
    seq(|Constants.TimelineSteps|, i requires 0 <= i < |Constants.TimelineSteps| => View(i, currentStep))
  }

  predicate CompletedView(v: StepView) { v.state == Completed }
  predicate CurrentView(v: StepView) { v.state == Current }
  predicate PendingView(v: StepView) { v.state == Pending }

  function Clamp(x: int, lo: int, hi: int): int
  {
    if x < lo then lo else if x > hi then hi else x
  }

  lemma {:induction false} FilterSingleton<T>(x: T, p: T -> bool)
    ensures Filter([x], p) == if p(x) then [x] else []
  {
    assert [x][1..] == [];
  }

  /** Counts of each classification over the first `n` steps. */
  lemma {:induction false} PrefixCounts(currentStep: int, n: nat)
    requires n <= |Constants.TimelineSteps|
    ensures |Filter(Timeline(currentStep)[..n], CompletedView)| == Clamp(currentStep, 0, n)
    ensures |Filter(Timeline(currentStep)[..n], CurrentView)| == if 0 <= currentStep < n then 1 else 0
    ensures |Filter(Timeline(currentStep)[..n], PendingView)| == n - Clamp(currentStep + 1, 0, n)
  {
    var t := Timeline(currentStep);
    if n == 0 {
      assert t[..0] == [];
    } else {
      PrefixCounts(currentStep, n - 1);
      FilterSnoc(t, n, CompletedView);
      FilterSnoc(t, n, CurrentView);
      FilterSnoc(t, n, PendingView);
    }
  }

  /** Extending a prefix by one element adds one to the count when it is kept. */
  lemma {:induction false} FilterSnoc<T>(s: seq<T>, n: nat, p: T -> bool)
    requires 0 < n <= |s|
    ensures |Filter(s[..n], p)| == |Filter(s[..n - 1], p)| + (if p(s[n - 1]) then 1 else 0)
  {
    assert s[..n] == s[..n - 1] + [s[n - 1]];
    FilterConcat(s[..n - 1], [s[n - 1]], p);
    FilterSingleton(s[n - 1], p);
  }

  /** For a current step inside the timeline: `currentStep` steps are completed,
      exactly one is current and the remaining `10 - currentStep` are pending. */
  lemma TimelineCounts(currentStep: int)
    requires 0 <= currentStep < |Constants.TimelineSteps|
    ensures |Filter(Timeline(currentStep), CompletedView)| == currentStep
    ensures |Filter(Timeline(currentStep), CurrentView)| == 1
    ensures |Filter(Timeline(currentStep), PendingView)| == 10 - currentStep
  {
    var t := Timeline(currentStep);
    PrefixCounts(currentStep, |t|);
    assert t[..|t|] == t;
  }

  /** Every status string (through the step-index switch) yields a timeline with one current step. */
  lemma StatusTimelineHasOneCurrent(status: string)
    ensures |Filter(Timeline(Constants.StepIndex(status)), CurrentView)| == 1
  {
    TimelineCounts(Constants.StepIndex(status));
  }
}
