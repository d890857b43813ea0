/**
 * The floating dock ball of daily_reminder.py: its edge-docking and
 * auto-hide state machine, the image-carousel index, and the guards that
 * turn a list selection into a task update or delete.
 *
 * Tk timers (`root.after`) are modelled as pending callbacks that a "fire"
 * method runs; the 50 ms pointer poll is always pending and runs whenever
 * `CheckMousePosition` is called, with the pointer x that the OS reports
 * passed in. Window geometry is the integer position (x, y); opacity is
 * the window's alpha value.
 */
module Dock {
  import opened Wrappers
  import TaskStore

  /** Opacity of the visible ball (`-alpha 0.9`) and of the fully hidden one. */
  const VisibleAlpha: real := 0.9
  const HiddenAlpha: real := 0.0

  /** How close (in pixels) the pointer must come to a screen edge to reveal a fully hidden ball. */
  const ScreenEdge := 2

  // ---------------------------------------------------------------------------
  // Geometry

  /** The ball counts as docked left when its x lies left of the screen's middle (`x < screen_width // 2`). */
  predicate OnLeftSide(x: int, screenWidth: int) {
    x < screenWidth / 2
  }

  /** Where `semi_hide_ball` moves the ball: 40 px past the edge it is docked to. */
  function SemiHiddenX(x: int, screenWidth: int): int {
    if OnLeftSide(x, screenWidth) then -40 else screenWidth - 40
  }

  /** Where `show_ball` moves the ball: flush against the edge it is docked to. */
  function ShownX(x: int, screenWidth: int): int {
    if OnLeftSide(x, screenWidth) then 0 else screenWidth - 80
  }

  /** Semi-hiding keeps the docking side on any screen at least 79 px wide. */
  lemma SemiHideKeepsSide(x: int, screenWidth: int)
    requires screenWidth >= 79
    ensures OnLeftSide(SemiHiddenX(x, screenWidth), screenWidth) == OnLeftSide(x, screenWidth)
  {
  }

  /** Showing keeps the docking side on any screen at least 159 px wide. */
  lemma ShowKeepsSide(x: int, screenWidth: int)
    requires screenWidth >= 159
    ensures OnLeftSide(ShownX(x, screenWidth), screenWidth) == OnLeftSide(x, screenWidth)
  {
  }

  /** On a 158 px screen the 80 px show offset lands left of the middle: the bound above is tight. */
  lemma ShowCanSwitchSideOnNarrowScreen()
    ensures !OnLeftSide(100, 158) && OnLeftSide(ShownX(100, 158), 158)
  {
  }

  /** Hiding then showing puts the ball back where showing alone puts it; showing then hiding likewise. */
  lemma HideShowRoundTrip(x: int, screenWidth: int)
    requires screenWidth >= 159
    ensures ShownX(SemiHiddenX(x, screenWidth), screenWidth) == ShownX(x, screenWidth)
    ensures SemiHiddenX(ShownX(x, screenWidth), screenWidth) == SemiHiddenX(x, screenWidth)
  {
    SemiHideKeepsSide(x, screenWidth);
    ShowKeepsSide(x, screenWidth);
  }

  // ---------------------------------------------------------------------------
  // The state machine, as values

  /**
   * Everything the handlers read or write.
   * hideTimer: the semi-hide scheduled by `on_leave` whose id `hide_timer` holds, still pending
   *   (the one `on_enter` and `on_click` can cancel);
   * strayHides: semi-hides pending that nothing cancels (the one at startup, the one after each
   *   release, and an `on_leave` timer whose id was overwritten by a later `on_leave`);
   * pendingFullHides: full-hides pending, one scheduled by every semi-hide.
   */
  datatype DockState = DockState(
    x: int, y: int,
    dragging: bool, isHidden: bool, fullyHidden: bool,
    lastX: int, lastY: int,
    alpha: real,
    hideTimer: bool, strayHides: nat, pendingFullHides: nat)

  /** The invariant every handler keeps: only a semi-hidden ball is ever fully hidden, and it is exactly then transparent. */
  predicate Inv(s: DockState) {
    && (s.fullyHidden ==> s.isHidden)
    && s.alpha == (if s.fullyHidden then HiddenAlpha else VisibleAlpha)
  }

  /** The state after `__init__`: right edge, vertically centred, visible, a semi-hide due in 1 s. */
  function Launch(screenWidth: int, screenHeight: nat): (s: DockState)
    ensures Inv(s) && !s.dragging && !s.isHidden && !s.fullyHidden
    ensures s.x == screenWidth - 30 && s.y == screenHeight / 2
    ensures s.strayHides == 1 && !s.hideTimer && s.pendingFullHides == 0
    ensures screenWidth >= 59 ==> !OnLeftSide(s.x, screenWidth)
  {
    DockState(screenWidth - 30, screenHeight / 2, false, false, false, 0, 0, VisibleAlpha, false, 1, 0)
  }

  function Click(s: DockState, ex: int, ey: int): DockState {
    s.(dragging := true, lastX := ex, lastY := ey, hideTimer := false)
  }

  function Move(s: DockState, ex: int, ey: int): DockState {
    if !s.dragging then s
    else s.(x := s.x + (ex - s.lastX), y := s.y + (ey - s.lastY))
  }

  function Release(s: DockState): DockState {
    s.(dragging := false, strayHides := s.strayHides + 1)
  }

  function SemiHide(s: DockState, screenWidth: int): DockState {
    if s.dragging then s
    else s.(x := SemiHiddenX(s.x, screenWidth), isHidden := true, pendingFullHides := s.pendingFullHides + 1)
  }

  function Show(s: DockState, screenWidth: int): DockState {
    if s.dragging then s
    else s.(x := ShownX(s.x, screenWidth), isHidden := false, fullyHidden := false, alpha := VisibleAlpha)
  }

  function FullyHide(s: DockState): DockState {
    if !s.dragging && s.isHidden then s.(fullyHidden := true, alpha := HiddenAlpha) else s
  }

  function Enter(s: DockState, screenWidth: int): DockState {
    var c := s.(hideTimer := false);
    if c.fullyHidden then Show(c, screenWidth) else c
  }

  /** A second leave overwrites `hide_timer`; the earlier timer stays pending but can no longer be cancelled. */
  function Leave(s: DockState): DockState {
    if s.dragging then s
    else s.(hideTimer := true, strayHides := if s.hideTimer then s.strayHides + 1 else s.strayHides)
  }

  /** `check_mouse_position`: reveal a fully hidden ball when the pointer touches either screen edge. */
  function Poll(s: DockState, screenWidth: int, pointerX: int): DockState {
    if s.fullyHidden && (pointerX <= ScreenEdge || pointerX >= screenWidth - ScreenEdge) then Show(s, screenWidth)
    else s
  }

  function HideTimerFired(s: DockState, screenWidth: int): DockState {
    if s.hideTimer then SemiHide(s.(hideTimer := false), screenWidth) else s
  }

  function StrayHideFired(s: DockState, screenWidth: int): DockState {
    if s.strayHides > 0 then SemiHide(s.(strayHides := s.strayHides - 1), screenWidth) else s
  }

  function FullHideFired(s: DockState): DockState {
    if s.pendingFullHides > 0 then FullyHide(s.(pendingFullHides := s.pendingFullHides - 1)) else s
  }

  /** Everything that can happen to the ball: a pointer event, the poll, or a pending timer firing. */
  datatype Event =
    | PointerDown(ex: int, ey: int)
    | PointerMotion(ex: int, ey: int)
    | PointerUp
    | PointerEnter
    | PointerLeave
    | PollPointer(pointerX: int)
    | HideTimerFires
    | StrayHideFires
    | FullHideFires

  function Step(s: DockState, screenWidth: int, e: Event): DockState {
    match e
    case PointerDown(ex, ey) => Click(s, ex, ey)
    case PointerMotion(ex, ey) => Move(s, ex, ey)
    case PointerUp => Release(s)
    case PointerEnter => Enter(s, screenWidth)
    case PointerLeave => Leave(s)
    case PollPointer(px) => Poll(s, screenWidth, px)
    case HideTimerFires => HideTimerFired(s, screenWidth)
    case StrayHideFires => StrayHideFired(s, screenWidth)
    case FullHideFires => FullHideFired(s)
  }

  function Run(s: DockState, screenWidth: int, events: seq<Event>): DockState
    decreases |events|
  {
    if events == [] then s else Run(Step(s, screenWidth, events[0]), screenWidth, events[1..])
  }

  /** Every event keeps the invariant. */
  lemma StepKeepsInv(s: DockState, screenWidth: int, e: Event)
    requires Inv(s)
    ensures Inv(Step(s, screenWidth, e))
  {
  }

  /** Hence any sequence of events keeps it: a fully hidden ball is always a semi-hidden one. */
  lemma {:induction false} RunKeepsInv(s: DockState, screenWidth: int, events: seq<Event>)
    requires Inv(s)
    ensures Inv(Run(s, screenWidth, events))
    decreases |events|
  {
    if events != [] {
      StepKeepsInv(s, screenWidth, events[0]);
      RunKeepsInv(Step(s, screenWidth, events[0]), screenWidth, events[1..]);
    }
  }

  /** Only a drag can move the ball across the middle of the screen; every other event keeps its side. */
  lemma StepKeepsSide(s: DockState, screenWidth: int, e: Event)
    requires screenWidth >= 159 && !e.PointerMotion?
    ensures OnLeftSide(Step(s, screenWidth, e).x, screenWidth) == OnLeftSide(s.x, screenWidth)
  {
    SemiHideKeepsSide(s.x, screenWidth);
    ShowKeepsSide(s.x, screenWidth);
  }

  lemma {:induction false} RunKeepsSide(s: DockState, screenWidth: int, events: seq<Event>)
    requires screenWidth >= 159
    requires forall i :: 0 <= i < |events| ==> !events[i].PointerMotion?
    ensures OnLeftSide(Run(s, screenWidth, events).x, screenWidth) == OnLeftSide(s.x, screenWidth)
    decreases |events|
  {
    if events != [] {
      StepKeepsSide(s, screenWidth, events[0]);
      RunKeepsSide(Step(s, screenWidth, events[0]), screenWidth, events[1..]);
    }
  }

  /** Motion moves the ball only between a press and a release, by exactly the pointer's offset from the press. */
  lemma DragMovesByPointerDelta(s: DockState, ex0: int, ey0: int, ex: int, ey: int)
    ensures var d := Move(Click(s, ex0, ey0), ex, ey);
      d.x == s.x + (ex - ex0) && d.y == s.y + (ey - ey0) && d.dragging
    ensures Move(Release(Click(s, ex0, ey0)), ex, ey) == Release(Click(s, ex0, ey0))
  {
  }

  /** Pointer enter before the leave timer fires cancels it: the ball stays put and nothing is left to fire. */
  lemma LeaveThenEnterCancels(s: DockState, screenWidth: int)
    requires !s.dragging && !s.hideTimer && !s.fullyHidden
    ensures Enter(Leave(s), screenWidth) == s
  {
  }

  /** If the leave timer is allowed to fire, the ball ends at the semi-hidden offset of its side. */
  lemma LeaveThenTimerHides(s: DockState, screenWidth: int)
    requires !s.dragging
    ensures var h := HideTimerFired(Leave(s), screenWidth);
      h.x == SemiHiddenX(s.x, screenWidth) && h.y == s.y && h.isHidden && h.pendingFullHides == s.pendingFullHides + 1
  {
  }

  /** The full cycle: leave, semi-hide, full hide, then the pointer at an edge brings the ball back, visible, to its edge. */
  lemma HideCycleReturns(s: DockState, screenWidth: int, pointerX: int)
    requires Inv(s) && !s.dragging && screenWidth >= 159
    requires pointerX <= ScreenEdge || pointerX >= screenWidth - ScreenEdge
    ensures var hidden := FullHideFired(HideTimerFired(Leave(s), screenWidth));
      hidden.fullyHidden && hidden.alpha == HiddenAlpha && hidden.x == SemiHiddenX(s.x, screenWidth)
    ensures var back := Poll(FullHideFired(HideTimerFired(Leave(s), screenWidth)), screenWidth, pointerX);
      !back.isHidden && !back.fullyHidden && back.alpha == VisibleAlpha &&
      back.x == ShownX(s.x, screenWidth) && back.y == s.y
  {
    HideShowRoundTrip(s.x, screenWidth);
  }

  /** The poll changes nothing unless the ball is fully hidden and the pointer is at an edge. */
  lemma PollOnlyAtEdge(s: DockState, screenWidth: int, pointerX: int)
    requires Poll(s, screenWidth, pointerX) != s
    ensures s.fullyHidden && !s.dragging
    ensures pointerX <= ScreenEdge || pointerX >= screenWidth - ScreenEdge
  {
  }

  // ---------------------------------------------------------------------------
  // The image carousel

  /** `show_next_image`: one step forward, wrapping; nothing happens with fewer than two images. */
  function NextIndex(i: int, total: int): int {
    if total > 1 then (i + 1) % total else i
  }

  /** `show_prev_image`: one step back, wrapping (Python's `%` and Dafny's agree for a positive modulus). */
  function PrevIndex(i: int, total: int): int {
    if total > 1 then (i - 1) % total else i
  }

  /** Both steps keep an index in range, and undo each other. */
  lemma CarouselSteps(i: int, total: int)
    requires 0 <= i < total
    ensures 0 <= NextIndex(i, total) < total && 0 <= PrevIndex(i, total) < total
    ensures PrevIndex(NextIndex(i, total), total) == i
    ensures NextIndex(PrevIndex(i, total), total) == i
  {
    if total > 1 {
      if i + 1 < total {
        assert (i + 1) % total == i + 1 && i % total == i;
      } else {
        assert total % total == 0 && (-1) % total == total - 1;
      }
      if i > 0 {
        assert (i - 1) % total == i - 1 && i % total == i;
      } else {
        assert (-1) % total == total - 1 && total % total == 0;
      }
    }
  }

  // ---------------------------------------------------------------------------
  // Selection guards of the task window

  /** The id that a task-window command acts on: the first selected row's, when that row is still in the list. */
  function SelectedId(selection: seq<nat>, tasks: seq<TaskStore.Task>): (r: Option<int>)
    ensures r.Some? <==> |selection| > 0 && selection[0] < |tasks|
    ensures r.Some? ==> r.value == tasks[selection[0]].id && TaskStore.HasId(tasks, r.value)
  {
    if |selection| > 0 && selection[0] < |tasks| then Some(tasks[selection[0]].id) else None
  }

  /**
   * Because ids can repeat, acting on a selected row may act on another row:
   * completing the second of two rows with the same id completes the first.
   */
  lemma SelectedRowMayNotBePatched(a: TaskStore.Task, b: TaskStore.Task)
    requires a.id == b.id && !a.completed && !b.completed
    ensures var tasks := [a, b];
      var done := TaskStore.Patched(tasks, SelectedId([1], tasks).value, Some(true), None);
      done[0].completed && !done[1].completed
  {
    var tasks := [a, b];
    assert TaskStore.FirstIndex(tasks, a.id) == Some(0);
  }

  // ---------------------------------------------------------------------------

  /** The dock window and the handlers bound to it. */
  class FloatingBall {
    const screenWidth: int
    const screenHeight: nat
    const tasks: TaskStore.TaskManager

    var x: int
    var y: int
    var dragging: bool
    var isHidden: bool
    var fullyHidden: bool
    var lastX: int
    var lastY: int
    var alpha: real
    var hideTimer: bool
    var strayHides: nat
    var pendingFullHides: nat

    var currentImageIndex: int
    var totalImages: nat

    function State(): DockState
      reads this
    {
      DockState(x, y, dragging, isHidden, fullyHidden, lastX, lastY, alpha, hideTimer, strayHides, pendingFullHides)
    }

    ghost predicate Valid()
      reads this
    {
      && Inv(State())
      && (0 <= currentImageIndex < totalImages || currentImageIndex == 0)
    }

    /** `__init__` with the screen size the OS reports and the task store it opens. */
    constructor (screenWidth: int, screenHeight: nat, tasks: TaskStore.TaskManager)
      ensures Valid()
      ensures this.screenWidth == screenWidth && this.screenHeight == screenHeight && this.tasks == tasks
      ensures State() == Launch(screenWidth, screenHeight)
      ensures currentImageIndex == 0 && totalImages == 0
    {
      this.screenWidth := screenWidth;
      this.screenHeight := screenHeight;
      this.tasks := tasks;
      x, y := screenWidth - 30, screenHeight / 2;
      dragging, isHidden, fullyHidden := false, false, false;
      lastX, lastY := 0, 0;
      alpha := VisibleAlpha;
      hideTimer := false;
      strayHides := 1;
      pendingFullHides := 0;
      currentImageIndex, totalImages := 0, 0;
    }

    method OnClick(ex: int, ey: int)
      requires Valid()
      modifies this
      ensures Valid() && State() == Click(old(State()), ex, ey)
      ensures currentImageIndex == old(currentImageIndex) && totalImages == old(totalImages)
    {
      dragging := true;
      lastX := ex;
      lastY := ey;
      hideTimer := false;
    }

    method OnMove(ex: int, ey: int)
      requires Valid()
      modifies this
      ensures Valid() && State() == Move(old(State()), ex, ey)
      ensures currentImageIndex == old(currentImageIndex) && totalImages == old(totalImages)
    {
      if !dragging {
        return;
      }
      var deltaX := ex - lastX;
      var deltaY := ey - lastY;
      x := x + deltaX;
      y := y + deltaY;
    }

    method OnRelease()
      requires Valid()
      modifies this
      ensures Valid() && State() == Release(old(State()))
      ensures currentImageIndex == old(currentImageIndex) && totalImages == old(totalImages)
    {
      dragging := false;
      strayHides := strayHides + 1;
    }

    method SemiHideBall()
      requires Valid()
      modifies this
      ensures Valid() && State() == SemiHide(old(State()), screenWidth)
      ensures currentImageIndex == old(currentImageIndex) && totalImages == old(totalImages)
    {
      if dragging {
        return;
      }
      x := SemiHiddenX(x, screenWidth);
      isHidden := true;
      pendingFullHides := pendingFullHides + 1;
    }

    method ShowBall()
      requires Valid()
      modifies this
      ensures Valid() && State() == Show(old(State()), screenWidth)
      ensures currentImageIndex == old(currentImageIndex) && totalImages == old(totalImages)
    {
      if dragging {
        return;
      }
      x := ShownX(x, screenWidth);
      isHidden := false;
      fullyHidden := false;
      alpha := VisibleAlpha;
    }

    method FullyHideBall()
      requires Valid()
      modifies this
      ensures Valid() && State() == FullyHide(old(State()))
      ensures currentImageIndex == old(currentImageIndex) && totalImages == old(totalImages)
    {
      if !dragging && isHidden {
        fullyHidden := true;
        alpha := HiddenAlpha;
      }
    }

    method OnEnter()
      requires Valid()
      modifies this
      ensures Valid() && State() == Enter(old(State()), screenWidth)
      ensures currentImageIndex == old(currentImageIndex) && totalImages == old(totalImages)
    {
      hideTimer := false;
      if fullyHidden {
        ShowBall();
      }
    }

    method OnLeave()
      requires Valid()
      modifies this
      ensures Valid() && State() == Leave(old(State()))
      ensures currentImageIndex == old(currentImageIndex) && totalImages == old(totalImages)
    {
      if !dragging {
        if hideTimer {
          strayHides := strayHides + 1;
        }
        hideTimer := true;
      }
    }

    /** One run of the 50 ms poll, with the pointer's x as the OS reports it. */
    method CheckMousePosition(pointerX: int)
      requires Valid()
      modifies this
      ensures Valid() && State() == Poll(old(State()), screenWidth, pointerX)
      ensures currentImageIndex == old(currentImageIndex) && totalImages == old(totalImages)
    {
      if fullyHidden {
        if pointerX <= ScreenEdge || pointerX >= screenWidth - ScreenEdge {
          ShowBall();
        }
      }
    }

    /** The `on_leave` timer fires. */
    method FireHideTimer()
      requires Valid() && hideTimer
      modifies this
      ensures Valid() && State() == HideTimerFired(old(State()), screenWidth)
      ensures currentImageIndex == old(currentImageIndex) && totalImages == old(totalImages)
    {
      hideTimer := false;
      SemiHideBall();
    }

    /** One of the uncancellable semi-hide timers fires. */
    method FireStrayHide()
      requires Valid() && strayHides > 0
      modifies this
      ensures Valid() && State() == StrayHideFired(old(State()), screenWidth)
      ensures currentImageIndex == old(currentImageIndex) && totalImages == old(totalImages)
    {
      strayHides := strayHides - 1;
      SemiHideBall();
    }

    /** A full-hide timer scheduled by a semi-hide fires. */
    method FireFullHide()
      requires Valid() && pendingFullHides > 0
      modifies this
      ensures Valid() && State() == FullHideFired(old(State()))
      ensures currentImageIndex == old(currentImageIndex) && totalImages == old(totalImages)
    {
      pendingFullHides := pendingFullHides - 1;
      FullyHideBall();
    }

    /** The carousel part of `show_theme`: start at the first of `total` images. */
    method StartCarousel(total: nat)
      requires Valid()
      modifies this
      ensures Valid() && State() == old(State())
      ensures currentImageIndex == 0 && totalImages == total
    {
      currentImageIndex := 0;
      totalImages := total;
    }

    method ShowPrevImage()
      requires Valid()
      modifies this
      ensures Valid() && State() == old(State()) && totalImages == old(totalImages)
      ensures currentImageIndex == PrevIndex(old(currentImageIndex), totalImages)
    {
      if totalImages > 1 {
        CarouselSteps(currentImageIndex, totalImages);
        currentImageIndex := (currentImageIndex - 1) % totalImages;
      }
    }

    method ShowNextImage()
      requires Valid()
      modifies this
      ensures Valid() && State() == old(State()) && totalImages == old(totalImages)
      ensures currentImageIndex == NextIndex(old(currentImageIndex), totalImages)
    {
      if totalImages > 1 {
        CarouselSteps(currentImageIndex, totalImages);
        currentImageIndex := (currentImageIndex + 1) % totalImages;
      }
    }

    /** `toggle_task_status`: mark the selected row's task (un)completed, if a row is selected. */
    method ToggleTaskStatus(selection: seq<nat>, completed: bool)
      requires tasks.Valid()
      modifies tasks
      ensures tasks.Valid()
      ensures var id := SelectedId(selection, old(tasks.GetTasks(None)));
        tasks.store == if id.None? then old(tasks.store)
          else old(tasks.store)[tasks.currentDate := TaskStore.Patched(old(tasks.store[tasks.currentDate]), id.value, Some(completed), None)]
    {
      if |selection| > 0 {
        var index := selection[0];
        var list := tasks.GetTasks(None);
        if index < |list| {
          var ok := tasks.UpdateTask(list[index].id, Some(completed), None);
        }
      }
    }

    /** `delete_task`: delete the selected row's task, and every other row sharing its id. */
    method DeleteSelectedTask(selection: seq<nat>)
      requires tasks.Valid()
      modifies tasks
      ensures tasks.Valid()
      ensures var id := SelectedId(selection, old(tasks.GetTasks(None)));
        tasks.store == if id.None? then old(tasks.store)
          else old(tasks.store)[tasks.currentDate := TaskStore.Without(old(tasks.store[tasks.currentDate]), id.value)]
    {
      if |selection| > 0 {
        var index := selection[0];
        var list := tasks.GetTasks(None);
        if index < |list| {
          var ok := tasks.DeleteTask(list[index].id);
        }
      }
    }
  }
}
