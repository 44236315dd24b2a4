/** The bottom sheet component as an object whose methods update its state in
    place, one method per callback of the component: the imperative handle's
    `show` and `dismiss`, the pan gesture's start, update and end, and the
    completion callback of the position animation. Each method's effect is
    the matching `Step` of the event model, so every property proved there
    about sequences of events holds of any sequence of calls. */
module Modal {
  import opened SheetGeometry
  import opened SheetEvents

  class BottomModal {
    /** Viewport height and presented sheet height, fixed for the instance. */
    const config: Config

    /** Target top edge of the sheet (the shared animated value). */
    var top: real
    /** Whether the backdrop is mounted. */
    var isActive: bool
    /** Top edge recorded by the current drag's start, if a drag has started. */
    var startHeight: Option<real>

    function Snapshot(): SheetState
      reads this
    {
      SheetState(top, isActive, startHeight)
    }

    /** Mounting: the sheet starts hidden with the backdrop off. */
    constructor (screenHeight: real, height: real)
      ensures config == Config(screenHeight, height)
      ensures top == screenHeight && !isActive && startHeight == None
      ensures Snapshot() == Initial(config)
    {
      config := Config(screenHeight, height);
      top := screenHeight;
      isActive := false;
      startHeight := None;
    }

    /** Present the sheet and mount the backdrop. */
    method Show()
      modifies this
      ensures top == PresentedTop(config) && isActive
      ensures startHeight == old(startHeight)
      ensures Snapshot() == Step(config, old(Snapshot()), Event.Show)
    {
      top := config.screenHeight - config.height;
      isActive := true;
    }

    /** Send the sheet off-screen; the backdrop stays until the animation
        finishes near hidden. */
    method Dismiss()
      modifies this
      ensures top == HiddenTop(config)
      ensures isActive == old(isActive) && startHeight == old(startHeight)
      ensures Snapshot() == Step(config, old(Snapshot()), Event.Dismiss)
    {
      top := config.screenHeight;
    }

    /** A drag begins: remember where the sheet is. */
    method DragStart()
      modifies this
      ensures startHeight == Some(old(top))
      ensures top == old(top) && isActive == old(isActive)
      ensures Snapshot() == Step(config, old(Snapshot()), Event.DragStart)
    {
      startHeight := Some(top);
    }

    /** The finger moved: the sheet follows it from where the drag began,
        unclamped. The gesture recognizer always reports a start first. */
    method DragUpdate(translationY: real)
      requires startHeight.Some?
      modifies this
      ensures top == old(startHeight).value + translationY
      ensures isActive == old(isActive) && startHeight == old(startHeight)
      ensures Snapshot() == Step(config, old(Snapshot()), Event.DragUpdate(translationY))
    {
      top := startHeight.value + translationY;
    }

    /** The finger lifted: commit to the nearer rest position. */
    method DragEnd()
      modifies this
      ensures IsRest(config, top)
      ensures config.height != 0.0 ==> (top == HiddenTop(config) <==> old(top) > Midpoint(config))
      ensures isActive == old(isActive) && startHeight == old(startHeight)
      ensures Snapshot() == Step(config, old(Snapshot()), Event.DragEnd)
    {
      if top > config.screenHeight - config.height / 2.0 {
        top := config.screenHeight;
      } else {
        top := config.screenHeight - config.height;
      }
    }

    /** The position animation finished: unmount the backdrop when the sheet
        ended up within the margin above hidden. Never mounts it. */
    method UpdateIsActive()
      modifies this
      ensures isActive == (old(isActive) && !NearHidden(config, top))
      ensures top == old(top) && startHeight == old(startHeight)
      ensures Snapshot() == Step(config, old(Snapshot()), Event.AnimationFinished)
    {
      if top > config.screenHeight - 10.0 {
        isActive := false;
      }
    }

    /** The backdrop's target opacity as the component computes it,
        (viewport height - top) / (viewport height - sheet height). */
    function OpacityAsWritten(): (q: Quotient)
      reads this
      ensures q.Finite? <==> config.screenHeight != config.height
      ensures q.Finite? ==> q.value * (config.screenHeight - config.height) == config.screenHeight - top
    {
      SheetGeometry.OpacityAsWritten(config, top)
    }

    /** The corrected backdrop target for the current top edge: 0 hidden,
        1 presented, linear in between. */
    function CorrectedOpacity(): (q: Quotient)
      reads this
      ensures q.Finite? <==> config.height != 0.0
      ensures q.Finite? ==> q.value * config.height == config.screenHeight - top
    {
      BackdropOpacity(config, top)
    }
  }

  /** A client run through the calls of the 800/300 walk-through, proved from
      the methods' contracts alone. Presented, the corrected opacity is 1 where
      the component's own formula gives 0.6. */
  method Walkthrough()
  {
    var m := new BottomModal(800.0, 300.0);
    m.Show();
    m.UpdateIsActive();
    assert m.top == 500.0 && m.isActive;
    assert m.CorrectedOpacity() == Finite(1.0) by { BackdropOpacityEndpoints(m.config); }
    assert m.OpacityAsWritten() == Finite(0.6) by { OpacityAsWrittenCounterexample(); }
    m.DragStart();
    m.DragUpdate(250.0);
    assert m.top == 750.0;
    m.DragEnd();
    m.UpdateIsActive();
    assert m.top == 800.0 && !m.isActive;
    assert m.CorrectedOpacity() == Finite(0.0) by { BackdropOpacityEndpoints(m.config); }
  }
}
