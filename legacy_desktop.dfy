/** The legacy desktop scroll script: trigger line 300 pixels below the viewport top,
    zones padded by 100 pixels. */
module LegacyDesktop {
  import opened Background
  import Legacy
  import ScrollBackground

  const OFFSET: int := 300
  const PADDING: int := 100

  /** The scroll handler. The viewport height is read, as the script reads it, and has no
      effect on the result. */
  method HandleScroll(body: Body, dom: Dom, scrollY: int, innerHeight: int)
    modifies body
    ensures body.Value() == Legacy.LegacyStyle(old(body.Value()), Selected(Legacy.TARGETS, dom, scrollY, OFFSET, PADDING))
  {
    var windowHeight := innerHeight;
    var windowTop := scrollY + OFFSET;
    var windowBottom := windowTop + windowHeight;
    var visibleTarget := Legacy.ScanTargets(Legacy.TARGETS, dom, scrollY, OFFSET, PADDING);
    Legacy.ApplyLegacy(body, visibleTarget);
  }

  /** Where the two zones overlap, the one listed first wins. */
  lemma CreedBeforeLog(dom: Dom, scrollY: int)
    requires "techies_creed" in dom && "techies_log" in dom
    requires Activates(dom["techies_creed"], scrollY, OFFSET, PADDING)
    ensures Selected(Legacy.TARGETS, dom, scrollY, OFFSET, PADDING) == Some(Legacy.TARGETS[0])
  {
  }

  /** With its creed element missing, the desktop script falls through to the log zone. */
  lemma MissingCreedFallsThrough(dom: Dom, scrollY: int)
    requires "techies_creed" !in dom && "techies_log" in dom
    requires Activates(dom["techies_log"], scrollY, OFFSET, PADDING)
    ensures Selected(Legacy.TARGETS, dom, scrollY, OFFSET, PADDING) == Some(Legacy.TARGETS[1])
  {
  }

  /** The desktop script and the composable agree on the style whenever a target is
      selected by both, and on a reset they differ only in the blend mode. */
  lemma DesktopAgreesWithComposable(prev: Style, sel: Option<Target>)
    ensures sel.Some? ==> Legacy.LegacyStyle(prev, sel) == ScrollBackground.ComposableStyle(sel)
    ensures sel.None? ==> Legacy.LegacyStyle(prev, sel) == ScrollBackground.ComposableStyle(sel).(blendMode := prev.blendMode)
  {
  }
}
