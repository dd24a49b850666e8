/** What the two legacy scroll scripts share: their target list, their scan (a pass over
    every target that keeps the first match through a guard), and their style rule, whose
    reset leaves the blend mode as it was. */
module Legacy {
  import opened Background

  /** The legacy scripts' ordered target list. */
  const TARGETS: seq<Target> := [
    Target("techies_creed", "/images/wave.gif", "#003366"),
    Target("techies_log", "/images/log.gif", "#692e00")
  ]

  /** The `forEach` scan: every target is visited, missing elements are skipped, and a match
      is recorded only while nothing has been recorded yet. */
  method ScanTargets(targets: seq<Target>, dom: Dom, scrollY: int, offset: int, padding: int)
    returns (visible: Option<Target>)
    ensures visible == Selected(targets, dom, scrollY, offset, padding)
  {
    var windowTop := scrollY + offset;
    visible := None;
    ghost var first: nat := 0;
    for i := 0 to |targets|
      invariant visible.None? ==> forall j :: 0 <= j < i ==> !Matches(targets[j], dom, scrollY, offset, padding)
      invariant visible.Some? ==> first < i && visible.value == targets[first]
      invariant visible.Some? ==> Matches(targets[first], dom, scrollY, offset, padding)
      invariant visible.Some? ==> forall j :: 0 <= j < first ==> !Matches(targets[j], dom, scrollY, offset, padding)
    {
      var target := targets[i];
      if target.elementId in dom {
        var rect := dom[target.elementId];
        var targetTop := rect.top + scrollY;
        var targetBottom := targetTop + rect.height + padding;
        if targetTop <= windowTop && targetBottom >= windowTop && visible.None? {
          visible := Some(target);
          first := i;
        }
      }
    }
    if visible.Some? {
      FirstMatchUnique(targets, dom, scrollY, offset, padding, first);
    }
  }

  /** The style the legacy scripts leave after a scan: the target's on a match; otherwise no
      image and black, with the previous blend mode kept. */
  function LegacyStyle(prev: Style, sel: Option<Target>): (s: Style)
    ensures sel.Some? ==> s == Applied(sel.value)
    ensures sel.None? ==> s.image == "" && s.color == "#000000" && s.blendMode == prev.blendMode
  {
    match sel
    case Some(t) => Applied(t)
    case None => prev.(image := "", color := DEFAULT_COLOR)
  }

  /** Running a scan twice on the same page changes nothing the second time. */
  lemma LegacyStyleIdempotent(prev: Style, sel: Option<Target>)
    ensures LegacyStyle(LegacyStyle(prev, sel), sel) == LegacyStyle(prev, sel)
  {
  }

  /** Leaving every zone after a match keeps multiply blending over the black reset colour. */
  lemma LegacyKeepsMultiply(prev: Style, t: Target)
    ensures LegacyStyle(LegacyStyle(prev, Some(t)), None) == Style("", "multiply", "#000000")
  {
  }

  /** The apply/reset step the two scripts share, on the page body. */
  method ApplyLegacy(body: Body, visible: Option<Target>)
    modifies body
    ensures body.Value() == LegacyStyle(old(body.Value()), visible)
  {
    if visible.Some? {
      body.image := CssUrl(visible.value.image);
      body.blendMode := "multiply";
      body.color := visible.value.color;
    } else {
      body.image := "";
      body.color := DEFAULT_COLOR;
    }
  }
}
