/**
  The reusable composer (ComposeView.swift): a text view with an image strip
  that reports its desired height and every change of its pending images to
  an optional delegate.
*/
module ComposeView {
  import opened ChatModel

  /** Padding added to the measured text height. */
  const TextPadding: real := 15.0
  const MaxTextViewHeight: real := 120.0
  const ImagePreviewHeight: real := 60.0

  /**
    The height `resizeTextView` reports for a measured text height. Unlike
    the chat screen's rule, the cap test compares against 120 alone, so with
    images a text that no longer fits makes the height jump to 180.
  */
  function ReportedHeight(measured: real, hasImages: bool): (h: real)
    ensures !hasImages ==> h == if measured + TextPadding <= MaxTextViewHeight then measured + TextPadding else MaxTextViewHeight
    ensures hasImages && measured + 75.0 <= 120.0 ==> h == measured + 75.0
    ensures hasImages && measured + 75.0 > 120.0 ==> h == 180.0
  {
    var raw := measured + TextPadding + (if hasImages then ImagePreviewHeight else 0.0);
    if raw > MaxTextViewHeight then MaxTextViewHeight + (if hasImages then ImagePreviewHeight else 0.0)
    else raw
  }

  /**
    With images the reported height can exceed what the content needs: a
    measured 50 points need 125 with padding and strip, yet 180 is reported.
  */
  lemma ReportedHeightOvershoots()
    ensures ReportedHeight(50.0, true) == 180.0 > 50.0 + TextPadding + ImagePreviewHeight
  {
  }

  /** The reported height never decreases as the text grows, with or without images. */
  lemma ReportedHeightMonotonic(a: real, b: real, hasImages: bool)
    requires a <= b
    ensures ReportedHeight(a, hasImages) <= ReportedHeight(b, hasImages)
  {
  }

  class ReusableTextView {
    /** Whether the weak `delegate` is set; a nil delegate drops every notification. */
    var hasDelegate: bool
    var pendingImages: seq<Image>
    /** The arguments of every `didAttachImages` call so far, oldest first. */
    var attachNotices: seq<seq<Image>>
    /** The arguments of every `didChangeHeight` call so far, oldest first. */
    var heightNotices: seq<real>

    /** A fresh view: no delegate, no images, nothing reported (initial values do not fire `didSet`). */
    constructor ()
      ensures !hasDelegate && pendingImages == [] && attachNotices == [] && heightNotices == []
    {
      hasDelegate := false;
      pendingImages := [];
      attachNotices := [];
      heightNotices := [];
    }

    /** The owner sets (or clears) the delegate. */
    method SetDelegate(present: bool)
      modifies this
      ensures hasDelegate == present
      ensures pendingImages == old(pendingImages)
      ensures attachNotices == old(attachNotices) && heightNotices == old(heightNotices)
    {
      hasDelegate := present;
    }

    /**
      Every assignment to `pendingImages` (a mutation such as `removeAll`
      too) runs `didSet`, which passes the new array to the delegate once.
    */
    method SetPendingImages(images: seq<Image>)
      modifies this
      ensures pendingImages == images
      ensures attachNotices == old(attachNotices) + (if hasDelegate then [images] else [])
      ensures hasDelegate == old(hasDelegate) && heightNotices == old(heightNotices)
    {
      pendingImages := images;
      if hasDelegate {
        attachNotices := attachNotices + [pendingImages];
      }
    }

    /** `resizeTextView`: computes the height step by step and reports it exactly once. */
    method ResizeTextView(measured: real)
      modifies this
      ensures heightNotices == old(heightNotices)
        + (if hasDelegate then [ReportedHeight(measured, pendingImages != [])] else [])
      ensures hasDelegate == old(hasDelegate) && pendingImages == old(pendingImages)
      ensures attachNotices == old(attachNotices)
    {
      var inputBarHeight := measured + TextPadding;
      if pendingImages != [] {
        inputBarHeight := inputBarHeight + ImagePreviewHeight;
      }
      if inputBarHeight > MaxTextViewHeight {
        inputBarHeight := MaxTextViewHeight + (if pendingImages == [] then 0.0 else ImagePreviewHeight);
      }
      if hasDelegate {
        heightNotices := heightNotices + [inputBarHeight];
      }
    }

    /** A text change resizes. */
    method TextViewDidChange(measured: real)
      modifies this
      ensures heightNotices == old(heightNotices)
        + (if hasDelegate then [ReportedHeight(measured, pendingImages != [])] else [])
      ensures hasDelegate == old(hasDelegate) && pendingImages == old(pendingImages)
      ensures attachNotices == old(attachNotices)
    {
      ResizeTextView(measured);
    }

    /** The end of editing resizes too. */
    method TextViewDidEndEditing(measured: real)
      modifies this
      ensures heightNotices == old(heightNotices)
        + (if hasDelegate then [ReportedHeight(measured, pendingImages != [])] else [])
      ensures hasDelegate == old(hasDelegate) && pendingImages == old(pendingImages)
      ensures attachNotices == old(attachNotices)
    {
      ResizeTextView(measured);
    }

    /** `attachImages`: replaces the pending images wholesale, never merging, and notifies. */
    method AttachImages(images: seq<Image>)
      modifies this
      ensures pendingImages == images
      ensures attachNotices == old(attachNotices) + (if hasDelegate then [images] else [])
      ensures hasDelegate == old(hasDelegate) && heightNotices == old(heightNotices)
    {
      SetPendingImages(images);
    }

    /** `clearImages`: empties the pending images and notifies, even when they were empty already. */
    method ClearImages()
      modifies this
      ensures pendingImages == []
      ensures attachNotices == old(attachNotices) + (if hasDelegate then [[]] else [])
      ensures hasDelegate == old(hasDelegate) && heightNotices == old(heightNotices)
    {
      SetPendingImages([]);
    }

    /** The strip has one item per pending image. */
    function NumberOfItems(): (n: nat)
      reads this
      ensures n == |pendingImages|
    {
      |pendingImages|
    }

    /** Item `item` of the strip shows the pending image at that index. */
    function ItemAt(item: nat): (image: Image)
      reads this
      requires item < NumberOfItems()
      ensures image == pendingImages[item]
    {
      pendingImages[item]
    }
  }
}
