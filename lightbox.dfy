/**
 * The service-gallery lightbox of js/app.js: an open/closed modal, the image
 * list of the gallery it was opened on, and a wraparound index into it.
 *
 * The index is a JavaScript number. A gallery id the page does not know
 * loads no images, and stepping through an empty list takes `% 0`, which is
 * NaN; the model keeps that value rather than forbidding the step.
 */
module Lightbox {
  import opened Wrap

  datatype Image = Image(src: string, alt: string)

  /** The lightbox index: a number, or NaN once it was stepped over no images. */
  datatype Index = At(i: int) | NaN

  const GalleryIds: set<string> := {"cupboards", "kitchens", "doors", "windows", "aluminum"}

  /** `galleryMap[id] || []`. */
  function Gallery(id: string): (images: seq<Image>)
    ensures id in GalleryIds ==> |images| == 2
    ensures id !in GalleryIds ==> images == []
  {
    match id
    case "cupboards" => [Image("/images/service-cupboards-1.svg", "Cupboard sample 1"),
                         Image("/images/service-cupboards-2.svg", "Cupboard sample 2")]
    case "kitchens" => [Image("/images/service-kitchens-1.svg", "Kitchen sample 1"),
                        Image("/images/service-kitchens-2.svg", "Kitchen sample 2")]
    case "doors" => [Image("/images/service-doors-1.svg", "Main door sample 1"),
                     Image("/images/service-doors-2.svg", "Main door sample 2")]
    case "windows" => [Image("/images/service-windows-1.svg", "Window sample 1"),
                       Image("/images/service-windows-2.svg", "Window sample 2")]
    case "aluminum" => [Image("/images/service-aluminum-1.svg", "Aluminum work sample 1"),
                        Image("/images/service-aluminum-2.svg", "Aluminum work sample 2")]
    case _ => []
  }

  /** The index is usable for `n` images: in range, or 0/NaN when there are none. */
  predicate Fits(index: Index, n: nat)
  {
    if n == 0 then index == At(0) || index == NaN else index.At? && 0 <= index.i < n
  }

  /** `(index + 1) % n`, with NaN for `% 0` and NaN absorbing. */
  function StepForward(index: Index, n: nat): (r: Index)
    requires Fits(index, n)
    ensures Fits(r, n)
    ensures r == NaN <==> n == 0
    ensures n >= 1 ==> r.i == Succ(index.i, n)
  {
    match index
    case NaN => NaN
    case At(i) => if n == 0 then NaN else At((i + 1) % n)
  }

  /** `(index - 1 + n) % n`, with NaN for `% 0` and NaN absorbing. */
  function StepBack(index: Index, n: nat): (r: Index)
    requires Fits(index, n)
    ensures Fits(r, n)
    ensures r == NaN <==> n == 0
    ensures n >= 1 ==> r.i == Pred(index.i, n)
  {
    match index
    case NaN => NaN
    case At(i) => if n == 0 then NaN else At((i - 1 + n) % n)
  }

  lemma {:induction false} StepBackForward(index: Index, n: nat)
    requires Fits(index, n) && n >= 1
    ensures StepBack(StepForward(index, n), n) == index
  {
    PredSucc(index.i, n);
  }

  /**
   * `render()`: the image (and dot) marked active is the one at the index;
   * with NaN, none. This is the marker row of `Wrap`, at no position for NaN.
   */
  function Rendered(n: nat, index: Index): (r: seq<bool>)
    ensures |r| == n
    ensures forall k :: 0 <= k < n ==> (r[k] <==> index == At(k))
  {
    Markers(n, if index.At? then index.i else -1)
  }

  class Lightbox {
    var isOpen: bool
    var images: seq<Image>
    var index: Index
    /** What the image track shows: which image is active, or nothing once cleared. */
    var track: seq<bool>

    ghost predicate Valid()
      reads this
    {
      Fits(index, |images|) && (track == [] || track == Rendered(|images|, index))
    }

    constructor ()
      ensures Valid() && !isOpen && images == [] && index == At(0) && track == []
    {
      isOpen, images, index, track := false, [], At(0), [];
    }

    method Render()
      requires Fits(index, |images|)
      modifies this`track
      ensures Valid() && track == Rendered(|images|, index)
    {
      track := Rendered(|images|, index);
    }

    /** `open(id)`: load the gallery (none for an unknown id), start at its first image, show the modal. */
    method Open(id: string)
      modifies this
      ensures Valid() && isOpen
      ensures images == Gallery(id) && index == At(0)
      ensures track == Rendered(|images|, At(0))
    {
      images := Gallery(id);
      index := At(0);
      Render();
      isOpen := true;
    }

    /** A click on a `[data-lightbox]` trigger: an empty id opens nothing. */
    method OnTriggerClick(id: string)
      requires Valid()
      modifies this
      ensures Valid()
      ensures id == "" ==> isOpen == old(isOpen) && images == old(images) && index == old(index) && track == old(track)
      ensures id != "" ==> isOpen && images == Gallery(id) && index == At(0)
                           && track == Rendered(|images|, At(0))
    {
      if id == "" {
        return;
      }
      Open(id);
    }

    method Close()
      requires Valid()
      modifies this
      ensures Valid() && !isOpen && track == []
      ensures images == old(images) && index == old(index)
    {
      isOpen := false;
      track := [];
    }

    method Next()
      requires Valid()
      modifies this
      ensures Valid() && isOpen == old(isOpen) && images == old(images)
      ensures index == StepForward(old(index), |images|)
      ensures track == Rendered(|images|, index)
    {
      index := StepForward(index, |images|);
      Render();
    }

    method Prev()
      requires Valid()
      modifies this
      ensures Valid() && isOpen == old(isOpen) && images == old(images)
      ensures index == StepBack(old(index), |images|)
      ensures track == Rendered(|images|, index)
    {
      index := StepBack(index, |images|);
      Render();
    }

    /** A dot click: there is one dot per image. */
    method SelectDot(k: nat)
      requires Valid() && k < |images|
      modifies this
      ensures Valid() && isOpen == old(isOpen) && images == old(images)
      ensures index == At(k) && track == Rendered(|images|, index)
    {
      index := At(k);
      Render();
    }

    /** The document keydown handler: ignored while closed; Escape closes, the arrows step. */
    method OnKeyDown(key: string)
      requires Valid()
      modifies this
      ensures Valid() && images == old(images)
      ensures !old(isOpen) ==> isOpen == old(isOpen) && images == old(images) && index == old(index) && track == old(track)
      ensures old(isOpen) && key == "Escape" ==> !isOpen && index == old(index) && track == []
      ensures old(isOpen) && key == "ArrowRight" ==>
        isOpen && index == StepForward(old(index), |images|) && track == Rendered(|images|, index)
      ensures old(isOpen) && key == "ArrowLeft" ==>
        isOpen && index == StepBack(old(index), |images|) && track == Rendered(|images|, index)
      ensures key != "Escape" && key != "ArrowRight" && key != "ArrowLeft" ==>
        isOpen == old(isOpen) && index == old(index) && track == old(track)
    {
      if !isOpen {
        return;
      }
      if key == "Escape" {
        Close();
      }
      if key == "ArrowRight" {
        Next();
      }
      if key == "ArrowLeft" {
        Prev();
      }
    }
  }

  /** Opening an unknown gallery and pressing ArrowRight leaves the index NaN and nothing active. */
  method UnknownGalleryScenario() returns (index: Index, shown: seq<bool>)
    ensures index == NaN && shown == []
  {
    var lb := new Lightbox();
    lb.OnTriggerClick("stairs");
    lb.OnKeyDown("ArrowRight");
    index, shown := lb.index, lb.track;
  }

  /** On a known gallery, ArrowRight then ArrowLeft comes back to the first image. */
  method KnownGalleryScenario() returns (there: Index, back: Index)
    ensures there == At(1) && back == At(0)
  {
    var lb := new Lightbox();
    lb.OnTriggerClick("kitchens");
    lb.OnKeyDown("ArrowRight");
    there := lb.index;
    lb.OnKeyDown("ArrowLeft");
    back := lb.index;
  }
}
