/** The part of a scroll-triggered background selector that all three variants share:
    the geometry of a trigger zone, the first-match selection over an ordered target
    list, the style written on a match, and the page body whose style is written. */
module Background {

  datatype Option<T> = None | Some(value: T)

  /** A bounding rectangle as the browser reports it: `top` is relative to the viewport. */
  datatype Rect = Rect(top: int, height: int)

  /** One trigger zone: the id of a page element, and the background shown while it is active. */
  datatype Target = Target(elementId: string, image: string, color: string)

  /** The three style fields the selector writes on the page body. */
  datatype Style = Style(image: string, blendMode: string, color: string)

  /** The page as the selector sees it: the rectangle of every element that exists, by id.
      An id that is not a key stands for an element the page does not contain. */
  type Dom = map<string, Rect>

  /** The trigger line: `offset` pixels below the top of the viewport, in page coordinates. */
  function TriggerLine(scrollY: int, offset: int): int
  {
    scrollY + offset
  }

  /** Whether a target with rectangle `rect` contains the trigger line, both ends inclusive.
      The test is written in page coordinates, as the scripts compute it; the scroll position
      cancels out, so only the viewport-relative top and the height decide. */
  function Activates(rect: Rect, scrollY: int, offset: int, padding: int): (active: bool)
    ensures active <==> rect.top <= offset <= rect.top + rect.height + padding
  {
    var targetTop := rect.top + scrollY;
    var targetBottom := targetTop + rect.height + padding;
    targetTop <= TriggerLine(scrollY, offset) && targetBottom >= TriggerLine(scrollY, offset)
  }

  /** A target matches when its element exists and its zone contains the trigger line. */
  predicate Matches(t: Target, dom: Dom, scrollY: int, offset: int, padding: int)
  {
    t.elementId in dom && Activates(dom[t.elementId], scrollY, offset, padding)
  }

  /** The index of the first target, in list order, that matches; None when none does. */
  function FirstMatch(ts: seq<Target>, dom: Dom, scrollY: int, offset: int, padding: int): (r: Option<nat>)
    ensures r.Some? ==> r.value < |ts| && Matches(ts[r.value], dom, scrollY, offset, padding)
    ensures r.Some? ==> forall j :: 0 <= j < r.value ==> !Matches(ts[j], dom, scrollY, offset, padding)
    ensures r.None? <==> forall j :: 0 <= j < |ts| ==> !Matches(ts[j], dom, scrollY, offset, padding)
    decreases |ts|
  {
    if |ts| == 0 then None
    else if Matches(ts[0], dom, scrollY, offset, padding) then Some(0)
    else
      match FirstMatch(ts[1..], dom, scrollY, offset, padding)
      case None => None
      case Some(k) => Some(k + 1)
  }

  /** The target the selector picks, if any. */
  function Selected(ts: seq<Target>, dom: Dom, scrollY: int, offset: int, padding: int): Option<Target>
  {
    match FirstMatch(ts, dom, scrollY, offset, padding)
    case None => None
    case Some(k) => Some(ts[k])
  }

  /** Any index that is a match with no match before it is the one FirstMatch returns:
      the first-match contract determines the selection. */
  lemma FirstMatchUnique(ts: seq<Target>, dom: Dom, scrollY: int, offset: int, padding: int, k: nat)
    requires k < |ts| && Matches(ts[k], dom, scrollY, offset, padding)
    requires forall j :: 0 <= j < k ==> !Matches(ts[j], dom, scrollY, offset, padding)
    ensures FirstMatch(ts, dom, scrollY, offset, padding) == Some(k)
  {
  }

  /** A target whose element is missing is never the one selected. */
  lemma MissingNeverSelected(ts: seq<Target>, dom: Dom, scrollY: int, offset: int, padding: int, i: nat)
    requires i < |ts| && ts[i].elementId !in dom
    ensures FirstMatch(ts, dom, scrollY, offset, padding) != Some(i)
  {
  }

  /** Once a prefix of the list holds a match, nothing after it is looked at: appending targets
      does not change the selection. */
  lemma {:induction false} FirstMatchAppendFound(a: seq<Target>, b: seq<Target>,
                                                 dom: Dom, scrollY: int, offset: int, padding: int)
    requires FirstMatch(a, dom, scrollY, offset, padding).Some?
    ensures FirstMatch(a + b, dom, scrollY, offset, padding) == FirstMatch(a, dom, scrollY, offset, padding)
    decreases |a|
  {
    assert (a + b)[0] == a[0];
    if !Matches(a[0], dom, scrollY, offset, padding) {
      assert (a + b)[1..] == a[1..] + b;
      FirstMatchAppendFound(a[1..], b, dom, scrollY, offset, padding);
    }
  }

  /** When a prefix of the list has no match, the selection is the first match of what follows,
      shifted past the prefix. */
  lemma {:induction false} FirstMatchAppendNone(a: seq<Target>, b: seq<Target>,
                                                dom: Dom, scrollY: int, offset: int, padding: int)
    requires FirstMatch(a, dom, scrollY, offset, padding).None?
    ensures FirstMatch(a + b, dom, scrollY, offset, padding) ==
              match FirstMatch(b, dom, scrollY, offset, padding)
              case None => None
              case Some(k) => Some(k + |a|)
    decreases |a|
  {
    if |a| == 0 {
      assert a + b == b;
    } else {
      assert (a + b)[0] == a[0];
      assert (a + b)[1..] == a[1..] + b;
      FirstMatchAppendNone(a[1..], b, dom, scrollY, offset, padding);
    }
  }

  /** Where a target whose element is absent is inserted, the first match moves past it and is
      otherwise unchanged. */
  lemma {:induction false} MissingShiftsMatch(a: seq<Target>, t: Target, b: seq<Target>,
                                              dom: Dom, scrollY: int, offset: int, padding: int)
    requires t.elementId !in dom
    ensures FirstMatch(a + [t] + b, dom, scrollY, offset, padding) ==
              match FirstMatch(a + b, dom, scrollY, offset, padding)
              case None => None
              case Some(k) => Some(if k < |a| then k else k + 1)
    decreases |a|
  {
    if |a| == 0 {
      assert (a + [t] + b)[1..] == a + b;
    } else {
      assert (a + [t] + b)[0] == (a + b)[0];
      assert (a + [t] + b)[1..] == a[1..] + [t] + b;
      assert (a + b)[1..] == a[1..] + b;
      if !Matches(a[0], dom, scrollY, offset, padding) {
        MissingShiftsMatch(a[1..], t, b, dom, scrollY, offset, padding);
      }
    }
  }

  /** Skipping a missing element is the same as leaving it out of the list: inserting a target
      whose element is absent anywhere in the list does not change which target is selected. */
  lemma MissingIsSkipped(a: seq<Target>, t: Target, b: seq<Target>,
                         dom: Dom, scrollY: int, offset: int, padding: int)
    requires t.elementId !in dom
    ensures Selected(a + [t] + b, dom, scrollY, offset, padding) == Selected(a + b, dom, scrollY, offset, padding)
  {
    MissingShiftsMatch(a, t, b, dom, scrollY, offset, padding);
    var with, without := a + [t] + b, a + b;
    match FirstMatch(without, dom, scrollY, offset, padding)
    case None =>
    case Some(k) =>
      if k < |a| {
        assert with[k] == without[k];
      } else {
        assert with[k + 1] == without[k];
      }
  }

  /** The selection depends on where the elements are relative to the viewport, and not on the
      scroll position the scripts add in and subtract again. */
  lemma FirstMatchIgnoresScroll(ts: seq<Target>, dom: Dom, y1: int, y2: int, offset: int, padding: int)
    ensures FirstMatch(ts, dom, y1, offset, padding) == FirstMatch(ts, dom, y2, offset, padding)
  {
  }

  /** In page coordinates: an element whose top is at `docTop` in the page and whose height is
      `height` is active exactly while the scroll position lies in
      [docTop - offset, docTop + height + padding - offset]. */
  lemma ActivationWindow(docTop: int, height: int, scrollY: int, offset: int, padding: int)
    ensures Activates(Rect(docTop - scrollY, height), scrollY, offset, padding) <==>
              docTop - offset <= scrollY <= docTop + height + padding - offset
  {
  }

  /** The CSS value `url('<path>')` that the scripts build for a background image. */
  function CssUrl(path: string): (css: string)
    ensures |css| == |path| + 7
    ensures css[..5] == "url('" && css[5..|css| - 2] == path && css[|css| - 2..] == "')"
  {
    "url('" + path + "')"
  }

  /** Different image paths give different CSS values, so the written value names its image. */
  lemma CssUrlInjective(p: string, q: string)
    requires CssUrl(p) == CssUrl(q)
    ensures p == q
  {
  }

  /** The style written when `t` is the selected target: its image, multiply blending, its colour. */
  function Applied(t: Target): (s: Style)
    ensures s.blendMode == "multiply" && s.color == t.color
    ensures s.image == CssUrl(t.image)
  {
    Style(CssUrl(t.image), "multiply", t.color)
  }

  /** The colour every variant writes when no target is selected. */
  const DEFAULT_COLOR: string := "#000000"

  /** The page body's inline style, which every variant writes in place. */
  class Body {
    var image: string
    var blendMode: string
    var color: string

    function Value(): Style
      reads this
    {
      Style(image, blendMode, color)
    }

    constructor (initial: Style)
      ensures Value() == initial
    {
      image, blendMode, color := initial.image, initial.blendMode, initial.color;
    }
  }
}
