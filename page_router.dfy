/** The page router of AppContainerView.swift: the app's six screens form a
    cycle that the "next" and "previous" buttons walk through. */
module PageRouting {
  import opened Optional

  /** The screens of the app, in declaration order. */
  datatype CurrentView =
    | IntroView
    | BenefitsView
    | DefinitionView
    | InstructionView
    | GameView
    | SummaryView

  /** The cases of CurrentView in declaration order, as `allCases` lists them. */
  const AllCases: seq<CurrentView> :=
    [IntroView, BenefitsView, DefinitionView, InstructionView, GameView, SummaryView]

  /** The index of the first occurrence of `v` in `cases`, or None when `v`
      does not occur (the collection method `firstIndex(of:)`). */
  function FirstIndex<T(==)>(cases: seq<T>, v: T): (r: Option<nat>)
    ensures r.Some? ==> r.value < |cases| && cases[r.value] == v
    ensures r.Some? ==> forall j :: 0 <= j < r.value ==> cases[j] != v
    ensures r.None? <==> v !in cases
  {
    if cases == [] then None
    else if cases[0] == v then Some(0)
    else match FirstIndex(cases[1..], v)
      case None => None
      case Some(i) => Some(i + 1)
  }

  /** The index after `i` in a cyclic list of `count` entries. Swift's `%`
      truncates, but both operands are non-negative here, so it agrees with
      Dafny's `%`. */
  function NextIndex(i: nat, count: nat): (r: nat)
    requires i < count
    ensures r < count
    ensures r == if i == count - 1 then 0 else i + 1
  {
    (i + 1) % count
  }

  /** The index before `i` in a cyclic list of `count` entries; adding `count`
      keeps the dividend non-negative. */
  function PreviousIndex(i: nat, count: nat): (r: nat)
    requires i < count
    ensures r < count
    ensures r == if i == 0 then count - 1 else i - 1
  {
    (i - 1 + count) % count
  }

  /** The position of a screen in AllCases. */
  function Position(v: CurrentView): (i: nat)
    ensures i < |AllCases| && AllCases[i] == v
  {
    match v
    case IntroView => 0
    case BenefitsView => 1
    case DefinitionView => 2
    case InstructionView => 3
    case GameView => 4
    case SummaryView => 5
  }

  /** Every screen is listed in AllCases, so the guard of either router
      method never fires. */
  lemma EveryScreenIsListed(v: CurrentView)
    ensures FirstIndex(AllCases, v) == Some(Position(v))
  {
  }

  /** The screen one step forward in the cycle. */
  function Next(v: CurrentView): (w: CurrentView) {
    AllCases[NextIndex(Position(v), |AllCases|)]
  }

  /** The screen one step back in the cycle. */
  function Previous(v: CurrentView): (w: CurrentView) {
    AllCases[PreviousIndex(Position(v), |AllCases|)]
  }

  /** Each step moves to the neighbouring position, wrapping at both ends. */
  lemma StepsMoveByOne(v: CurrentView)
    ensures Position(Next(v)) == NextIndex(Position(v), |AllCases|)
    ensures Position(Previous(v)) == PreviousIndex(Position(v), |AllCases|)
  {
  }

  /** From the last screen "next" wraps to the first, and from the first
      "previous" wraps to the last. */
  lemma EndsWrapAround()
    ensures Next(SummaryView) == IntroView
    ensures Previous(IntroView) == SummaryView
  {
  }

  /** "Previous" undoes "next" and "next" undoes "previous". */
  lemma NextPreviousRoundTrip(v: CurrentView)
    ensures Previous(Next(v)) == v
    ensures Next(Previous(v)) == v
  {
    StepsMoveByOne(v);
    StepsMoveByOne(Next(v));
    StepsMoveByOne(Previous(v));
    assert Position(Previous(Next(v))) == Position(v);
    assert Position(Next(Previous(v))) == Position(v);
  }

  /** The screen reached by pressing "next" `k` times. */
  function NextTimes(v: CurrentView, k: nat): (w: CurrentView) {
    if k == 0 then v else Next(NextTimes(v, k - 1))
  }

  /** Reducing modulo six commutes with taking the next index. */
  lemma ModSixSuccessor(p: nat)
    ensures NextIndex(p % 6, 6) == (p + 1) % 6
  {
    var q := p / 6;
    assert p == 6 * q + p % 6;
    if p % 6 == 5 {
      assert p + 1 == 6 * (q + 1) + 0;
    } else {
      assert p + 1 == 6 * q + (p % 6 + 1);
    }
  }

  /** Modulo six below twelve subtracts six at most once. */
  lemma ModSixSmall(x: nat)
    requires x < 12
    ensures x % 6 == if x < 6 then x else x - 6
  {
  }

  /** The index reached from `i` after `k` steps forward. */
  function AdvanceBy(i: nat, k: nat, count: nat): (r: nat)
    requires i < count
    ensures r < count
  {
    if k == 0 then i else NextIndex(AdvanceBy(i, k - 1, count), count)
  }

  /** `k` steps forward from `i` land on `(i + k) % 6`. */
  lemma {:induction false} AdvanceByIsModular(i: nat, k: nat)
    requires i < 6
    ensures AdvanceBy(i, k, 6) == (i + k) % 6
  {
    if k > 0 {
      AdvanceByIsModular(i, k - 1);
      ModSixSuccessor(i + (k - 1));
    }
  }

  /** Pressing "next" `k` times moves `k` positions forward. */
  lemma {:induction false} NextTimesAdvance(v: CurrentView, k: nat)
    ensures Position(NextTimes(v, k)) == AdvanceBy(Position(v), k, |AllCases|)
  {
    if k > 0 {
      NextTimesAdvance(v, k - 1);
      StepsMoveByOne(NextTimes(v, k - 1));
    }
  }

  /** Pressing "next" `k` times advances the position by `k`, wrapping
      around after the last screen. */
  lemma NextTimesPosition(v: CurrentView, k: nat)
    ensures Position(NextTimes(v, k)) == (Position(v) + k) % |AllCases|
  {
    NextTimesAdvance(v, k);
    AdvanceByIsModular(Position(v), k);
  }

  /** Six presses of "next" lead back to the starting screen, and no fewer do. */
  lemma SixNextsCycle(v: CurrentView)
    ensures NextTimes(v, |AllCases|) == v
    ensures forall k :: 0 < k < |AllCases| ==> NextTimes(v, k) != v
  {
    var n := |AllCases|;
    var w := NextTimes(v, n);
    NextTimesPosition(v, n);
    ModSixSmall(Position(v) + n);
    assert AllCases[Position(w)] == w;
    forall k | 0 < k < n
      ensures NextTimes(v, k) != v
    {
      NextTimesPosition(v, k);
      ModSixSmall(Position(v) + k);
    }
  }

  /** The router object: the screen currently shown, overwritten in place. */
  class PageRouter {
    var currentView: CurrentView

    constructor ()
      ensures currentView == IntroView
    {
      currentView := IntroView;
    }

    method GoToNextPage()
      modifies this
      ensures currentView == Next(old(currentView))
      ensures Position(currentView) == NextIndex(Position(old(currentView)), |AllCases|)
    {
      EveryScreenIsListed(currentView);
      StepsMoveByOne(currentView);
      var found := FirstIndex(AllCases, currentView);
      if found.None? {
        return;
      }
      var nextIndex := (found.value + 1) % |AllCases|;
      currentView := AllCases[nextIndex];
    }

    method GoToPreviousPage()
      modifies this
      ensures currentView == Previous(old(currentView))
      ensures Position(currentView) == PreviousIndex(Position(old(currentView)), |AllCases|)
    {
      EveryScreenIsListed(currentView);
      StepsMoveByOne(currentView);
      var found := FirstIndex(AllCases, currentView);
      if found.None? {
        return;
      }
      var previousIndex := (found.value - 1 + |AllCases|) % |AllCases|;
      currentView := AllCases[previousIndex];
    }
  }
}
