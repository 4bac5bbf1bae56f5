/**
  The invitation's image lightbox: whether it shows, its `aria-hidden`
  attribute, the body's `modal-open` class, and the full-size image source.
 */
module Lightbox {

  import opened Wrappers

  datatype Lightbox = Lightbox(isOpen: bool, ariaHidden: string, modalOpen: bool, imageSrc: string)

  /** The three open/closed markers agree with one another. */
  predicate Consistent(lb: Lightbox) {
    && lb.ariaHidden == (if lb.isOpen then "false" else "true")
    && lb.modalOpen == lb.isOpen
  }

  /**
    `open`: `src` is the thumbnail's `src` attribute read once at start-up
    (`None` when there is no image or attribute). A missing or empty source is
    falsy and changes nothing; otherwise the image is copied and all three
    markers say open.
   */
  function Open(lb: Lightbox, src: Option<string>): (r: Lightbox)
    ensures (src.None? || src.value == "") ==> r == lb
    ensures src.Some? && src.value != "" ==>
      r.isOpen && r.ariaHidden == "false" && r.modalOpen && r.imageSrc == src.value
    ensures src.Some? && src.value != "" ==> Consistent(r)
  {
    if src.None? || src.value == "" then lb
    else Lightbox(true, "false", true, src.value)
  }

  /** `close`: all three markers say closed; the image source is kept. */
  function Close(lb: Lightbox): (r: Lightbox)
    ensures !r.isOpen && r.ariaHidden == "true" && !r.modalOpen
    ensures r.imageSrc == lb.imageSrc
    ensures Consistent(r)
  {
    lb.(isOpen := false, ariaHidden := "true", modalOpen := false)
  }

  /** The window-wide `keydown` handler: Escape closes, every other key is ignored. */
  function KeyDown(lb: Lightbox, key: string): (r: Lightbox)
    ensures key != "Escape" ==> r == lb
    ensures key == "Escape" ==> !r.isOpen && r.ariaHidden == "true" && !r.modalOpen && r.imageSrc == lb.imageSrc
  {
    if key == "Escape" then Close(lb) else lb
  }

  /** Closing twice is closing once. */
  lemma CloseIdempotent(lb: Lightbox)
    ensures Close(Close(lb)) == Close(lb)
  {
  }

  /** Escape on a lightbox that is already closed changes nothing. */
  lemma EscapeWhenClosed(lb: Lightbox)
    requires Consistent(lb) && !lb.isOpen
    ensures KeyDown(lb, "Escape") == lb
  {
  }

  /** Opening and then closing a closed lightbox leaves it as it was, apart from the image it now holds. */
  lemma OpenThenClose(lb: Lightbox, src: string)
    requires Consistent(lb) && !lb.isOpen && src != ""
    ensures Close(Open(lb, Some(src))) == lb.(imageSrc := src)
  {
  }

  /** Every handler keeps the markers in agreement. */
  lemma HandlersKeepConsistent(lb: Lightbox, src: Option<string>, key: string)
    requires Consistent(lb)
    ensures Consistent(Open(lb, src)) && Consistent(Close(lb)) && Consistent(KeyDown(lb, key))
  {
  }
}
