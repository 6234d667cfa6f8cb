/**
  Image acquisition (CameraPicker.swift): the proportional downscaling of
  `ImageConstant` and the outcome that `ImagePickerManager` reports to its
  delegate after the camera or the photo library finishes.
*/
module CameraPicker {
  import opened Wrappers
  import opened ChatModel

  // ---------------------------------------------------------------------------
  // ImageConstant
  // ---------------------------------------------------------------------------

  /** Images whose PNG encoding has at least this many bytes are downscaled. */
  const PngByteThreshold: nat := 13000000

  /** The box that large images are fitted into. */
  const TargetSize: Size := Size(1600.0, 1600.0)

  /** `pngData()?.count ?? 0`: an image that cannot be encoded counts as 0 bytes. */
  function PngByteCount(image: Image): nat
  {
    match image.pngBytes
    case Some(n) => n
    case None => 0
  }

  /** Both dimensions are strictly positive, so the scale ratios are defined. */
  predicate HasArea(s: Size)
  {
    s.width > 0.0 && s.height > 0.0
  }

  /**
    What `setimagePropotional` needs of an image: one large enough to be
    scaled has a non-degenerate size (a PNG that big cannot be 0 points wide).
  */
  predicate Normalizable(image: Image)
  {
    PngByteCount(image) >= PngByteThreshold ==> HasArea(image.size)
  }

  /** `s` fits inside `box` and has the same aspect ratio as `original`. */
  predicate FitsProportionally(s: Size, original: Size, box: Size)
  {
    && s.width <= box.width
    && s.height <= box.height
    && s.width * original.height == s.height * original.width
  }

  /**
    The size `scaleImageProportionally` draws into: the original scaled by
    the smaller of the two ratios target/original.
  */
  function ScaledSize(original: Size, target: Size): Size
    requires HasArea(original)
  {
    var scaleFactor := Min(target.width / original.width, target.height / original.height);
    Size(original.width * scaleFactor, original.height * scaleFactor)
  }

  /**
    Over the reals the scaled size fits the target, keeps the aspect ratio,
    and fills the target in at least one dimension.
  */
  lemma ScaledSizeFits(original: Size, target: Size)
    requires HasArea(original)
    ensures FitsProportionally(ScaledSize(original, target), original, target)
    ensures ScaledSize(original, target).width == target.width
         || ScaledSize(original, target).height == target.height
  {
  }

  /**
    `scaleImageProportionally`: `draw` stands for the UIGraphics image
    context, which renders `image` at the requested size or yields nothing;
    in the second case the original is returned.
  */
  function ScaleImageProportionally(image: Image, target: Size, draw: (Image, Size) -> Option<Image>): (r: Image)
    requires HasArea(image.size)
    ensures draw(image, ScaledSize(image.size, target)).Some? ==> r == draw(image, ScaledSize(image.size, target)).value
    ensures draw(image, ScaledSize(image.size, target)).None? ==> r == image
  {
    match draw(image, ScaledSize(image.size, target))
    case Some(scaled) => scaled
    case None => image
  }

  /**
    `setimagePropotional`: an image under the byte threshold (or one that
    cannot be encoded) is returned unchanged; a larger one is redrawn at a
    size that fits the 1600x1600 box proportionally, if drawing succeeds.
  */
  function SetImageProportional(image: Image, draw: (Image, Size) -> Option<Image>): (r: Image)
    requires Normalizable(image)
    ensures PngByteCount(image) < PngByteThreshold ==> r == image
    ensures PngByteCount(image) >= PngByteThreshold && draw(image, ScaledSize(image.size, TargetSize)).Some? ==>
      r == draw(image, ScaledSize(image.size, TargetSize)).value
    ensures PngByteCount(image) >= PngByteThreshold && draw(image, ScaledSize(image.size, TargetSize)).None? ==>
      r == image
    ensures r != image ==>
      && PngByteCount(image) >= PngByteThreshold
      && FitsProportionally(ScaledSize(image.size, TargetSize), image.size, TargetSize)
      && draw(image, ScaledSize(image.size, TargetSize)) == Some(r)
  {
    if PngByteCount(image) < PngByteThreshold then image
    else
      ScaledSizeFits(image.size, TargetSize);
      ScaleImageProportionally(image, TargetSize, draw)
  }

  // ---------------------------------------------------------------------------
  // ImagePickerManager
  // ---------------------------------------------------------------------------

  /** What the manager tells its delegate: `didSelect(images)` or `DidCancel`. */
  datatype PickerOutcome = DidSelect(images: seq<Image>) | DidCancel

  /** The two keys of the camera's info dictionary that the manager reads. */
  datatype InfoKey = EditedImage | OriginalImage

  /** The photo library picker's configuration: a selection limit and a filter to images. */
  datatype LibraryConfiguration = LibraryConfiguration(selectionLimit: int, imagesOnly: bool)

  /**
    One library result: whether its item provider can load a UIImage, and
    what its load delivers (None when the load fails or yields no image).
  */
  datatype PickerResult = PickerResult(canLoadImage: bool, loaded: Option<Image>)

  /** The image a single result contributes once its load completes. */
  function DeliveredBy(result: PickerResult): seq<Image>
  {
    if result.canLoadImage && result.loaded.Some? then [result.loaded.value] else []
  }

  /** The images the loads deliver, in the order the loads are started. */
  function Delivered(results: seq<PickerResult>): (r: seq<Image>)
    ensures |r| <= |results|
  {
    if results == [] then []
    else Delivered(results[..|results| - 1]) + DeliveredBy(results[|results| - 1])
  }

  /** `result` can load an image and its load delivers `img`. */
  predicate Loads(result: PickerResult, img: Image)
  {
    result.canLoadImage && result.loaded == Some(img)
  }

  /**
    An image is delivered exactly when some result that can load an image
    loads that image.
  */
  lemma {:induction false} DeliveredMembership(results: seq<PickerResult>, img: Image)
    ensures img in Delivered(results) <==> exists k :: 0 <= k < |results| && Loads(results[k], img)
  {
    if results != [] {
      var n := |results| - 1;
      var init := results[..n];
      DeliveredMembership(init, img);
      assert Delivered(results) == Delivered(init) + DeliveredBy(results[n]);
      assert img in DeliveredBy(results[n]) <==> Loads(results[n], img);
      assert forall k :: 0 <= k < n ==> init[k] == results[k];
    }
  }

  class ImagePickerManager {
    /** How many images the library picker lets the user select. */
    const selectionLimit: int

    /** The limit defaults to one image. */
    constructor (selectionLimit: int := 1)
      ensures this.selectionLimit == selectionLimit
    {
      this.selectionLimit := selectionLimit;
    }

    /** The library picker is configured with the manager's limit, unchanged, and filtered to images. */
    method PresentPhotoLibrary() returns (config: LibraryConfiguration)
      ensures config.selectionLimit == selectionLimit && config.imagesOnly
    {
      config := LibraryConfiguration(selectionLimit, true);
    }

    /** Dismissing the camera reports a cancellation. */
    method ImagePickerControllerDidCancel() returns (outcome: PickerOutcome)
      ensures outcome == DidCancel
    {
      outcome := DidCancel;
    }

    /**
      The camera finished: the image under the edited or the original key
      (as `allowsEditing` says) is selected alone; without one, cancel.
    */
    method ImagePickerControllerDidFinishPicking(allowsEditing: bool, info: map<InfoKey, Image>)
      returns (outcome: PickerOutcome)
      ensures var key := if allowsEditing then EditedImage else OriginalImage;
        && (outcome.DidSelect? <==> key in info)
        && (outcome.DidSelect? ==> outcome.images == [info[key]])
    {
      var key := if allowsEditing then EditedImage else OriginalImage;
      if key in info {
        outcome := DidSelect([info[key]]);
      } else {
        outcome := DidCancel;
      }
    }

    /**
      The library picker finished. With no results, or a first result that
      cannot load an image, the manager cancels without loading anything.
      Otherwise it starts a load for every result that can load an image and,
      once all loads have completed, reports exactly the images that loaded,
      in completion order: possibly none, and never more than the results.
    */
    method PickerDidFinishPicking(results: seq<PickerResult>) returns (outcome: PickerOutcome)
      ensures outcome.DidCancel? <==> results == [] || !results[0].canLoadImage
      ensures outcome.DidSelect? ==>
        && multiset(outcome.images) == multiset(Delivered(results))
        && |outcome.images| <= |results|
    {
      if results == [] || !results[0].canLoadImage {
        return DidCancel;
      }
      var images: seq<Image> := [];
      for i := 0 to |results|
        invariant images == Delivered(results[..i])
      {
        assert results[..i + 1][..i] == results[..i];
        if results[i].canLoadImage {
          match results[i].loaded {
            case Some(image) => images := images + [image];
            case None =>
          }
        }
      }
      assert results[..|results|] == results;
      outcome := DidSelect(images);
    }
  }
}
