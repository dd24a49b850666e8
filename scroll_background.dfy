/** The Vue composable: a first-match selector over one target, run at most once per
    animation frame behind a `ticking` gate, writing all three style fields on both branches. */
module ScrollBackground {
  import opened Background

  /** How far below the top of the viewport the trigger line sits. */
  const SCROLL_OFFSET: int := 300

  /** How far past an element's bottom edge its zone extends. */
  const TARGET_BOTTOM_PADDING: int := 100

  /** The composable's ordered target list. */
  const TARGETS: seq<Target> := [Target("techies_creed", "/wave.gif", "#003366")]

  /** The style written when no target is selected: no image, no blend mode, black. */
  const RESET: Style := Style("", "", DEFAULT_COLOR)

  /** The style the composable writes for a selection; the previous style plays no part. */
  function ComposableStyle(sel: Option<Target>): (s: Style)
    ensures sel.Some? ==> s == Applied(sel.value)
    ensures sel.None? ==> s.image == "" && s.blendMode == "" && s.color == "#000000"
  {
    match sel
    case Some(t) => Applied(t)
    case None => RESET
  }

  /** The scan of `updateBackground`: walk the targets in order, skip those whose element is
      missing, and stop at the first whose zone contains the trigger line. */
  method FindVisibleTarget(targets: seq<Target>, dom: Dom, scrollY: int, offset: int, padding: int)
    returns (visible: Option<Target>)
    ensures visible == Selected(targets, dom, scrollY, offset, padding)
  {
    var windowTop := scrollY + offset;
    visible := None;
    for i := 0 to |targets|
      invariant forall j :: 0 <= j < i ==> !Matches(targets[j], dom, scrollY, offset, padding)
    {
      var target := targets[i];
      if target.elementId !in dom {
        continue;
      }
      var rect := dom[target.elementId];
      var targetTop := rect.top + scrollY;
      var targetBottom := targetTop + rect.height + padding;
      if targetTop <= windowTop && targetBottom >= windowTop {
        FirstMatchUnique(targets, dom, scrollY, offset, padding, i);
        visible := Some(target);
        break;
      }
    }
  }

  /** The throttle's state: whether the gate is closed, and how many frame callbacks are queued. */
  datatype Throttle = Throttle(ticking: bool, pending: nat)

  /** The gate's invariant: a frame is queued exactly while the gate is closed. */
  predicate ThrottleOk(g: Throttle)
  {
    g.pending == if g.ticking then 1 else 0
  }

  /** `handleScroll`: request a frame only when the gate is open, then close it. */
  function Scrolled(g: Throttle): (r: Throttle)
    ensures ThrottleOk(g) ==> ThrottleOk(r) && r == Throttle(true, 1)
    ensures g.ticking ==> r == g
  {
    if !g.ticking then Throttle(true, g.pending + 1) else g
  }

  /** The browser runs one queued frame callback, `updateBackground`, which reopens the gate. */
  function Fired(g: Throttle): (r: Throttle)
    ensures ThrottleOk(g) ==> ThrottleOk(r) && r == Throttle(false, 0)
    ensures g.pending == 0 ==> r == g
  {
    if g.pending > 0 then Throttle(false, g.pending - 1) else g
  }

  /** What can happen to the page between two updates: a scroll event or an animation frame. */
  datatype Event = ScrollEvent | FrameEvent

  function Step(g: Throttle, e: Event): Throttle
  {
    match e
    case ScrollEvent => Scrolled(g)
    case FrameEvent => Fired(g)
  }

  /** The throttle after a sequence of events. */
  function Run(g: Throttle, evs: seq<Event>): Throttle
    decreases |evs|
  {
    if |evs| == 0 then g else Run(Step(g, evs[0]), evs[1..])
  }

  /** How many times `updateBackground` runs during a sequence of events. */
  function Updates(g: Throttle, evs: seq<Event>): nat
    decreases |evs|
  {
    if |evs| == 0 then 0
    else (if evs[0] == FrameEvent && g.pending > 0 then 1 else 0) + Updates(Step(g, evs[0]), evs[1..])
  }

  function Repeat(e: Event, n: nat): (evs: seq<Event>)
    ensures |evs| == n && forall i :: 0 <= i < n ==> evs[i] == e
  {
    if n == 0 then [] else [e] + Repeat(e, n - 1)
  }

  /** Whatever the events, the gate keeps its invariant, so at most one frame is ever queued. */
  lemma {:induction false} RunKeepsThrottle(g: Throttle, evs: seq<Event>)
    requires ThrottleOk(g)
    ensures ThrottleOk(Run(g, evs)) && Run(g, evs).pending <= 1
    decreases |evs|
  {
    if |evs| > 0 {
      RunKeepsThrottle(Step(g, evs[0]), evs[1..]);
    }
  }

  lemma {:induction false} RunAppend(g: Throttle, a: seq<Event>, b: seq<Event>)
    ensures Run(g, a + b) == Run(Run(g, a), b)
    ensures Updates(g, a + b) == Updates(g, a) + Updates(Run(g, a), b)
    decreases |a|
  {
    if |a| == 0 {
      assert a + b == b;
    } else {
      RunAppend(Step(g, a[0]), a[1..], b);
      assert (a + b)[0] == a[0];
      assert (a + b)[1..] == a[1..] + b;
    }
  }

  /** A burst of scroll events closes the gate with one frame queued and no update yet run. */
  lemma {:induction false} ScrollBurst(g: Throttle, n: nat)
    requires ThrottleOk(g) && n > 0
    ensures Run(g, Repeat(ScrollEvent, n)) == Throttle(true, 1)
    ensures Updates(g, Repeat(ScrollEvent, n)) == 0
    decreases n
  {
    var evs := Repeat(ScrollEvent, n);
    assert evs[1..] == Repeat(ScrollEvent, n - 1);
    if n > 1 {
      ScrollBurst(Scrolled(g), n - 1);
    }
  }

  /** Frames with nothing queued change nothing and run no update. */
  lemma {:induction false} IdleFrames(m: nat)
    ensures Run(Throttle(false, 0), Repeat(FrameEvent, m)) == Throttle(false, 0)
    ensures Updates(Throttle(false, 0), Repeat(FrameEvent, m)) == 0
    decreases m
  {
    if m > 0 {
      assert Repeat(FrameEvent, m)[1..] == Repeat(FrameEvent, m - 1);
      IdleFrames(m - 1);
    }
  }

  /** However many scroll events arrive before the next frames, the update runs exactly once
      when at least one frame follows, and the gate is open again afterwards. */
  lemma OneUpdatePerBurst(g: Throttle, n: nat, m: nat)
    requires ThrottleOk(g) && n > 0
    ensures Updates(g, Repeat(ScrollEvent, n) + Repeat(FrameEvent, m)) == if m == 0 then 0 else 1
    ensures m > 0 ==> Run(g, Repeat(ScrollEvent, n) + Repeat(FrameEvent, m)) == Throttle(false, 0)
  {
    var scrolls, frames := Repeat(ScrollEvent, n), Repeat(FrameEvent, m);
    RunAppend(g, scrolls, frames);
    ScrollBurst(g, n);
    if m > 0 {
      assert frames[1..] == Repeat(FrameEvent, m - 1);
      IdleFrames(m - 1);
    }
  }

  /** The composable as it lives on a page: its closure variable `ticking`, the frame callbacks
      the browser holds for it, whether its scroll listener is registered, and the body it styles. */
  class Effect {
    var ticking: bool
    var pendingFrames: nat
    var listening: bool
    const body: Body

    ghost predicate Valid()
      reads this
    {
      ThrottleOk(Gate())
    }

    function Gate(): Throttle
      reads this
    {
      Throttle(ticking, pendingFrames)
    }

    /** Calling the composable: the gate starts open and the listener is not yet registered. */
    constructor (body: Body)
      ensures Valid() && Gate() == Throttle(false, 0) && !listening && this.body == body
    {
      ticking, pendingFrames, listening := false, 0, false;
      this.body := body;
    }

    /** The component is mounted: the scroll listener is registered. */
    method Mount()
      modifies this`listening
      ensures listening
    {
      listening := true;
    }

    /** The component is unmounted: the scroll listener is removed. A frame already queued
        still runs. */
    method Unmount()
      modifies this`listening
      ensures !listening
    {
      listening := false;
    }

    /** `handleScroll`: the rAF gate. */
    method HandleScroll()
      requires Valid()
      modifies this`ticking, this`pendingFrames
      ensures Valid() && Gate() == Scrolled(old(Gate())) && Gate() == Throttle(true, 1)
    {
      if !ticking {
        pendingFrames := pendingFrames + 1;
        ticking := true;
      }
    }

    /** A scroll event reaches the handler only while the listener is registered. */
    method OnScrollEvent()
      requires Valid()
      modifies this`ticking, this`pendingFrames
      ensures Valid()
      ensures Gate() == if old(listening) then Scrolled(old(Gate())) else old(Gate())
    {
      if listening {
        HandleScroll();
      }
    }

    /** `updateBackground`: select the target for the page as it is when the frame runs, write
        all three style fields, and reopen the gate. */
    method UpdateBackground(dom: Dom, scrollY: int)
      modifies this`ticking, body
      ensures !ticking && pendingFrames == old(pendingFrames)
      ensures body.Value() == ComposableStyle(Selected(TARGETS, dom, scrollY, SCROLL_OFFSET, TARGET_BOTTOM_PADDING))
    {
      var visibleTarget := FindVisibleTarget(TARGETS, dom, scrollY, SCROLL_OFFSET, TARGET_BOTTOM_PADDING);
      if visibleTarget.Some? {
        body.image := CssUrl(visibleTarget.value.image);
        body.blendMode := "multiply";
        body.color := visibleTarget.value.color;
      } else {
        body.image := "";
        body.blendMode := "";
        body.color := DEFAULT_COLOR;
      }
      ticking := false;
    }

    /** The browser runs the queued frame callback, if there is one. */
    method FireFrame(dom: Dom, scrollY: int)
      requires Valid()
      modifies this`ticking, this`pendingFrames, body
      ensures Valid() && Gate() == Fired(old(Gate())) && Gate() == Throttle(false, 0)
      ensures old(pendingFrames) > 0 ==>
                body.Value() == ComposableStyle(Selected(TARGETS, dom, scrollY, SCROLL_OFFSET, TARGET_BOTTOM_PADDING))
      ensures old(pendingFrames) == 0 ==> body.Value() == old(body.Value())
    {
      if pendingFrames > 0 {
        pendingFrames := pendingFrames - 1;
        UpdateBackground(dom, scrollY);
      }
    }
  }

  /** With the composable's one target at page position `docTop` and height 200, the background
      shows exactly while the scroll position lies in [docTop - 300, docTop], and the style then
      written is the target's. For docTop = 500 that is scrollY in [200, 500]. */
  lemma ComposableWindow(docTop: int, scrollY: int)
    ensures var dom := map["techies_creed" := Rect(docTop - scrollY, 200)];
            ComposableStyle(Selected(TARGETS, dom, scrollY, SCROLL_OFFSET, TARGET_BOTTOM_PADDING)) ==
              if docTop - 300 <= scrollY <= docTop
              then Style("url('/wave.gif')", "multiply", "#003366")
              else Style("", "", "#000000")
  {
  }
}
