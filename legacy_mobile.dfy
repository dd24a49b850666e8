/** The legacy mobile scroll script: it does nothing on screens wider than 900 pixels;
    otherwise its trigger line is 400 pixels below the viewport top and zones are padded
    by 400 pixels. */
module LegacyMobile {
  import opened Background
  import Legacy

  const OFFSET: int := 400
  const PADDING: int := 400

  /** The widest screen on which the script runs. */
  const MAX_WIDTH: int := 900

  /** The scroll handler, with its early return on wide screens. */
  method HandleScroll(body: Body, dom: Dom, scrollY: int, innerWidth: int, innerHeight: int)
    modifies body
    ensures innerWidth > MAX_WIDTH ==> body.Value() == old(body.Value())
    ensures innerWidth <= MAX_WIDTH ==>
              body.Value() == Legacy.LegacyStyle(old(body.Value()), Selected(Legacy.TARGETS, dom, scrollY, OFFSET, PADDING))
  {
    var screenWidth := innerWidth;
    if screenWidth > MAX_WIDTH {
      return;
    }
    var windowHeight := innerHeight;
    var windowTop := scrollY + OFFSET;
    var windowBottom := windowTop + windowHeight;
    var visibleTarget := Legacy.ScanTargets(Legacy.TARGETS, dom, scrollY, OFFSET, PADDING);
    Legacy.ApplyLegacy(body, visibleTarget);
  }

  /** An element at page position `docTop` with height `height` activates the mobile
      background exactly while the scroll position lies in [docTop - 400, docTop + height]:
      the padding equals the offset, so the zone ends when the element's bottom reaches
      the top of the viewport. */
  lemma MobileWindow(docTop: int, height: int, scrollY: int)
    ensures Activates(Rect(docTop - scrollY, height), scrollY, OFFSET, PADDING) <==>
              docTop - 400 <= scrollY <= docTop + height
  {
  }
}
