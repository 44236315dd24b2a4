/** The position state machine of the bottom sheet as a function of the
    events that drive it: the imperative `show`/`dismiss` calls, the three
    phases of a pan gesture, and the completion of the position animation.
    Only the target value of the top edge is modelled; the eased animation
    towards it is not. */
module SheetEvents {
  import opened SheetGeometry

  datatype Option<T> = None | Some(value: T)

  /** The mutable state of one mounted sheet: the target top edge, the flag
      that keeps the backdrop mounted, and the top edge recorded at the start
      of the current drag (absent until the first drag starts). */
  datatype SheetState = SheetState(top: real, isActive: bool, startHeight: Option<real>)

  datatype Event =
    | Show                          // the handle's show()
    | Dismiss                       // the handle's dismiss()
    | DragStart                     // the pan gesture's onStart
    | DragUpdate(translationY: real) // onActive, with the drag's cumulative vertical translation
    | DragEnd                       // onEnd
    | AnimationFinished             // completion callback of the top animation

  /** A freshly mounted sheet: hidden, backdrop off, no drag recorded. It is
      already settled: neither a `dismiss` nor a finished animation changes
      it. */
  function Initial(c: Config): (r: SheetState)
    ensures Step(c, r, Dismiss) == r && Step(c, r, AnimationFinished) == r
    ensures !r.isActive && r.startHeight == None
  {
    SheetState(HiddenTop(c), false, None)
  }

  /** The effect of one event. A drag update that arrives before any drag
      start has no recorded start to add to and is ignored. Only `show`
      turns the backdrop flag on and only a finished animation near hidden
      turns it off; only a drag start records a start, namely the current top
      edge; every event but a drag update leaves the sheet at a rest position
      or where it was. */
  function Step(c: Config, s: SheetState, e: Event): (r: SheetState)
    ensures r.isActive && !s.isActive ==> e == Show
    ensures !r.isActive && s.isActive ==> e == AnimationFinished && NearHidden(c, s.top)
    ensures r.startHeight != s.startHeight ==> e == DragStart && r.startHeight == Some(s.top)
    ensures !e.DragUpdate? ==> IsRest(c, r.top) || r.top == s.top
  {
    match e
    case Show => s.(top := PresentedTop(c), isActive := true)
    case Dismiss => s.(top := HiddenTop(c))
    case DragStart => s.(startHeight := Some(s.top))
    case DragUpdate(dy) =>
      if s.startHeight.Some? then s.(top := s.startHeight.value + dy) else s
    case DragEnd => s.(top := ReleaseTop(c, s.top))
    case AnimationFinished =>
      if NearHidden(c, s.top) then s.(isActive := false) else s
  }

  /** The effect of a sequence of events, in order. Over any sequence the
      backdrop flag can only be on at the end if it was on at the start or
      `show` was called along the way, and the recorded drag start changes
      only if the sequence contains a drag start. */
  function Run(c: Config, s: SheetState, events: seq<Event>): (r: SheetState)
    ensures r.isActive ==> s.isActive || Show in events
    ensures r.startHeight == s.startHeight || DragStart in events
    decreases |events|
  {
    if events == [] then s
    else
      assert events == [events[0]] + events[1..];
      Run(c, Step(c, s, events[0]), events[1..])
  }

  /** Running two sequences one after the other is running their
      concatenation. */
  lemma {:induction false} RunAppend(c: Config, s: SheetState, first: seq<Event>, second: seq<Event>)
    ensures Run(c, s, first + second) == Run(c, Run(c, s, first), second)
    decreases |first|
  {
    if first == [] {
      assert first + second == second;
    } else {
      assert (first + second)[0] == first[0] && (first + second)[1..] == first[1..] + second;
      RunAppend(c, Step(c, s, first[0]), first[1..], second);
    }
  }

  /** The last event of a sequence is applied last, to the state the earlier
      events produced. */
  lemma RunLast(c: Config, s: SheetState, events: seq<Event>, e: Event)
    ensures Run(c, s, events + [e]) == Step(c, Run(c, s, events), e)
  {
    RunAppend(c, s, events, [e]);
    assert [e][1..] == [];
  }

  lemma ShowPresents(c: Config, s: SheetState)
    ensures Step(c, s, Show).top == PresentedTop(c) && Step(c, s, Show).isActive
    ensures Step(c, s, Show).startHeight == s.startHeight
    ensures Step(c, Step(c, s, Show), Show) == Step(c, s, Show)
  {
  }

  /** Dismissing moves the target to hidden but leaves the backdrop flag for
      the animation's completion to clear. */
  lemma DismissHidesKeepingFlag(c: Config, s: SheetState)
    ensures Step(c, s, Dismiss).top == HiddenTop(c)
    ensures Step(c, s, Dismiss).isActive == s.isActive
    ensures Step(c, s, Dismiss).startHeight == s.startHeight
    ensures Step(c, Step(c, s, Dismiss), Dismiss) == Step(c, s, Dismiss)
  {
  }

  /** A drag update puts the top edge at the recorded start plus the
      translation, without clamping: every offset is reachable. */
  lemma DragUpdateReachesAnyOffset(c: Config, s: SheetState, target: real)
    requires s.startHeight.Some?
    ensures Step(c, s, DragUpdate(target - s.startHeight.value)).top == target
    ensures Step(c, s, DragUpdate(target - s.startHeight.value)).startHeight == s.startHeight
    ensures Step(c, s, DragUpdate(target - s.startHeight.value)).isActive == s.isActive
  {
  }

  /** A drag that starts and is moved by a translation leaves the top edge
      displaced from where it started by exactly that translation. */
  lemma DragMovesByTranslation(c: Config, s: SheetState, dy: real)
    ensures Run(c, s, [DragStart, DragUpdate(dy)]).top == s.top + dy
    ensures Run(c, s, [DragStart, DragUpdate(dy)]).startHeight == Some(s.top)
  {
    var started := Step(c, s, DragStart);
    assert [DragStart, DragUpdate(dy)][1..] == [DragUpdate(dy)];
    assert Run(c, started, [DragUpdate(dy)]) == Step(c, started, DragUpdate(dy));
  }

  /** Releasing a drag leaves the sheet at one of its two rest positions and
      does not touch the backdrop flag. */
  lemma DragEndSettles(c: Config, s: SheetState)
    ensures IsRest(c, Step(c, s, DragEnd).top)
    ensures Step(c, s, DragEnd).isActive == s.isActive
    ensures c.height != 0.0 ==> (Step(c, s, DragEnd).top == HiddenTop(c) <==> s.top > Midpoint(c))
  {
  }

  /** A finished animation clears the flag exactly when the sheet is near
      hidden, never sets it, and never moves the sheet. */
  lemma AnimationFinishedOnlyClears(c: Config, s: SheetState)
    ensures Step(c, s, AnimationFinished).isActive == (s.isActive && !NearHidden(c, s.top))
    ensures Step(c, s, AnimationFinished).top == s.top
  {
  }

  /** `show` is the only event that turns the backdrop flag on. */
  lemma OnlyShowActivates(c: Config, s: SheetState, e: Event)
    requires !s.isActive && Step(c, s, e).isActive
    ensures e == Show
  {
  }

  /** Without drag updates the sheet never leaves its rest positions: every
      other event puts it at (or keeps it at) hidden or presented. */
  lemma {:induction false} RestWithoutDragUpdates(c: Config, s: SheetState, events: seq<Event>)
    requires IsRest(c, s.top)
    requires forall i :: 0 <= i < |events| ==> !events[i].DragUpdate?
    ensures IsRest(c, Run(c, s, events).top)
    decreases |events|
  {
    if events != [] {
      RestWithoutDragUpdates(c, Step(c, s, events[0]), events[1..]);
    }
  }

  /** Whatever happened before, a `dismiss` whose animation then finishes
      leaves the sheet hidden with the backdrop off. */
  lemma DismissThenFinishHides(c: Config, s: SheetState)
    ensures Run(c, s, [Dismiss, AnimationFinished]).top == HiddenTop(c)
    ensures !Run(c, s, [Dismiss, AnimationFinished]).isActive
  {
    assert [Dismiss, AnimationFinished][1..] == [AnimationFinished];
  }

  /** A `show` whose animation then finishes keeps the backdrop on exactly
      when the sheet is at least as tall as the margin: a shorter sheet loses
      its backdrop although it is presented. */
  lemma ShowThenFinish(c: Config, s: SheetState)
    ensures Run(c, s, [Show, AnimationFinished]).top == PresentedTop(c)
    ensures Run(c, s, [Show, AnimationFinished]).isActive <==> c.height >= ActiveMargin
  {
    assert [Show, AnimationFinished][1..] == [AnimationFinished];
  }

  /** The walk-through of an 800-pixel viewport and a 300-pixel sheet: shown,
      it rests at 500; dragged down by 250 it is at 750, below the midpoint
      650, so the release hides it and the finished animation turns the
      backdrop off. */
  lemma Walkthrough()
    ensures Run(Config(800.0, 300.0), Initial(Config(800.0, 300.0)), [Show, AnimationFinished])
            == SheetState(500.0, true, None)
    ensures Run(Config(800.0, 300.0), SheetState(500.0, true, None), [DragStart, DragUpdate(250.0)])
            == SheetState(750.0, true, Some(500.0))
    ensures Run(Config(800.0, 300.0), SheetState(750.0, true, Some(500.0)), [DragEnd, AnimationFinished])
            == SheetState(800.0, false, Some(500.0))
  {
    var c := Config(800.0, 300.0);
    ShowThenFinish(c, Initial(c));
    DragMovesByTranslation(c, SheetState(500.0, true, None), 250.0);
    assert [DragEnd, AnimationFinished][1..] == [AnimationFinished];
  }
}
