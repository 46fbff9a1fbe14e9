/**
 * The optimised lazy image: an `<img>` behind its own visibility gate. Its
 * `src` stays undefined until the gate opens, so the browser requests
 * nothing before then; `alt` is always passed through.
 */
module LazyImage {
  import opened Optional
  import opened Visibility

  /** The `<img>` attributes that depend on the props and the gate. */
  datatype ImgAttributes = ImgAttributes(src: Option<string>, alt: string)

  /** `src={isVisible ? src : undefined}` and `alt={alt}`. */
  function Attributes(src: string, alt: string, visible: bool): (a: ImgAttributes)
    ensures a.alt == alt
    ensures a.src.Some? <==> visible
    ensures a.src.Some? ==> a.src.value == src
  {
    ImgAttributes(if visible then Some(src) else None, alt)
  }

  /**
   * After mounting and any signals, the image requests `src` exactly when
   * its ref was present and some callback before unmount had an
   * intersecting first entry.
   */
  lemma RequestIffHit(src: string, alt: string, refPresent: bool, signals: seq<Signal>)
    ensures Attributes(src, alt, Run(Mounted(refPresent), signals).visible).src
            == if refPresent && exists i :: HitAt(signals, i) then Some(src) else None
  {
    VisibleIffHit(Mounted(refPresent), signals);
  }

  /** Once `src` is set it stays set: the image is never unloaded again. */
  lemma SrcStays(src: string, alt: string, g: GateState, signals: seq<Signal>)
    requires Attributes(src, alt, g.visible).src.Some?
    ensures Attributes(src, alt, Run(g, signals).visible).src == Some(src)
  {
    VisibleStays(g, signals);
  }
}
