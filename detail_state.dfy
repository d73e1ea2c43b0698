/**
 * components/ProjectDetail.tsx, lines 51-65, 91-111 and 202-220: the three
 * pieces of state the detail page keeps while it is open — which images
 * failed to load, which image (if any) is enlarged in the modal, and whether
 * the "Core Concepts" chips are unfolded.
 */
module ProjectDetailState {
  import opened Wrappers
  import opened Text
  import opened ProjectDetail

  /**
   * The key an image slot reports a load error under: a string such as
   * `photo-0`, or a bare number: 0 and 1 in the dataset section, 2 in the
   * default results images.
   */
  datatype ImageKey = Named(name: string) | Index(n: nat)

  /** The property name a key becomes in a JavaScript object: numbers are written in decimal. */
  function PropertyName(key: ImageKey): (r: string)
    ensures key.Named? ==> r == key.name
    ensures key.Index? ==> r == NatToString(key.n)
  {
    match key
    case Named(name) => name
    case Index(n) => NatToString(n)
  }

  /** Distinct numeric keys never share a property name. */
  lemma PropertyNamesDistinct(a: ImageKey, b: ImageKey)
    requires a.Index? && b.Index? && a != b
    ensures PropertyName(a) != PropertyName(b)
  {
    NatToStringInjective(a.n, b.n);
  }

  /** `!imageErrors[key]` read the JavaScript way: an absent key is `undefined`, which is falsy. */
  predicate Failed(errors: map<string, bool>, key: ImageKey) {
    PropertyName(key) in errors && errors[PropertyName(key)]
  }

  /** The error map after `handleImageError` ran for each of `keys` in turn. */
  function ErrorsAfter(errors: map<string, bool>, keys: seq<ImageKey>): (r: map<string, bool>)
    ensures forall name :: name in errors ==> name in r
    decreases |keys|
  {
    if keys == [] then errors
    else ErrorsAfter(errors[PropertyName(keys[0]) := true], keys[1..])
  }

  /**
   * An image is shown as failed after a run of error reports exactly when it
   * had failed before or one of the reports was for it: nothing ever clears
   * a failure.
   */
  lemma {:induction false} FailedAfter(errors: map<string, bool>, keys: seq<ImageKey>, key: ImageKey)
    ensures Failed(ErrorsAfter(errors, keys), key) <==>
      Failed(errors, key) || exists i :: 0 <= i < |keys| && PropertyName(keys[i]) == PropertyName(key)
    decreases |keys|
  {
    if keys != [] {
      var next := errors[PropertyName(keys[0]) := true];
      FailedAfter(next, keys[1..], key);
      if exists i :: 0 <= i < |keys[1..]| && PropertyName(keys[1..][i]) == PropertyName(key) {
        var i :| 0 <= i < |keys[1..]| && PropertyName(keys[1..][i]) == PropertyName(key);
        assert PropertyName(keys[i + 1]) == PropertyName(key);
      }
      if exists i :: 0 <= i < |keys| && PropertyName(keys[i]) == PropertyName(key) {
        var i :| 0 <= i < |keys| && PropertyName(keys[i]) == PropertyName(key);
        if i > 0 {
          assert PropertyName(keys[1..][i - 1]) == PropertyName(key);
        }
      }
    }
  }

  /** The image held by the modal: `{ src, alt }`. */
  datatype Enlarged = Enlarged(src: string, alt: string)

  /**
   * What the user does to the modal: open it from a thumbnail, click the
   * dimmed backdrop, click the image itself, or press the close button.
   */
  datatype ModalEvent = Open(src: string, alt: string) | ClickBackdrop | ClickImage | ClickClose

  /**
   * The modal after one event. The backdrop and the close button call
   * `closeImageModal`; a click on the image is stopped before it reaches the
   * backdrop and changes nothing.
   */
  function ModalStep(m: Option<Enlarged>, e: ModalEvent): (r: Option<Enlarged>)
    ensures e.Open? ==> r == Some(Enlarged(e.src, e.alt))
    ensures e.ClickBackdrop? || e.ClickClose? ==> r.None?
    ensures e.ClickImage? ==> r == m
  {
    match e
    case Open(src, alt) => Some(Enlarged(src, alt))
    case ClickBackdrop => None
    case ClickImage => m
    case ClickClose => None
  }

  /** The modal after a run of events. */
  function ModalAfter(m: Option<Enlarged>, es: seq<ModalEvent>): Option<Enlarged>
    decreases |es|
  {
    if es == [] then m else ModalAfter(ModalStep(m, es[0]), es[1..])
  }

  /** No close event at or after position `i`. */
  predicate NoCloseFrom(es: seq<ModalEvent>, i: int) {
    forall j :: 0 <= j < |es| && i <= j ==> !es[j].ClickBackdrop? && !es[j].ClickClose?
  }

  /**
   * The modal holds the image of the last `Open` event when no close came
   * after it, and is empty when a close came after it.
   */
  lemma {:induction false} ModalShowsLastOpen(m: Option<Enlarged>, es: seq<ModalEvent>, i: int)
    requires 0 <= i < |es| && es[i].Open?
    requires forall j :: i < j < |es| ==> !es[j].Open?
    ensures NoCloseFrom(es, i + 1) ==> ModalAfter(m, es) == Some(Enlarged(es[i].src, es[i].alt))
    ensures !NoCloseFrom(es, i + 1) ==> ModalAfter(m, es).None?
    decreases |es|
  {
    if i == 0 {
      ClosesOrKeeps(ModalStep(m, es[0]), es[1..]);
      if !NoCloseFrom(es, 1) {
        var j :| 1 <= j < |es| && (es[j].ClickBackdrop? || es[j].ClickClose?);
        assert es[1..][j - 1] == es[j];
      }
    } else {
      ModalShowsLastOpen(ModalStep(m, es[0]), es[1..], i - 1);
      assert NoCloseFrom(es, i + 1) <==> NoCloseFrom(es[1..], i) by {
        forall j | i <= j < |es[1..]| ensures es[1..][j] == es[j + 1] { }
      }
    }
  }

  /**
   * Without an open event the modal keeps what it holds until a close, and
   * then stays empty.
   */
  lemma {:induction false} ClosesOrKeeps(m: Option<Enlarged>, es: seq<ModalEvent>)
    requires forall j :: 0 <= j < |es| ==> !es[j].Open?
    ensures NoCloseFrom(es, 0) ==> ModalAfter(m, es) == m
    ensures !NoCloseFrom(es, 0) ==> ModalAfter(m, es).None?
    decreases |es|
  {
    if es != [] {
      ClosesOrKeeps(ModalStep(m, es[0]), es[1..]);
      assert NoCloseFrom(es, 0) <==> !es[0].ClickBackdrop? && !es[0].ClickClose? && NoCloseFrom(es[1..], 0) by {
        forall j | 0 <= j < |es[1..]| ensures es[1..][j] == es[j + 1] { }
      }
    }
  }

  /** The state of one open detail page. */
  class DetailState {
    /** `imageErrors`: property name to `true` once that image failed to load. */
    var imageErrors: map<string, bool>
    /** `enlargedImage`: the image in the modal, `null` when it is closed. */
    var enlargedImage: Option<Enlarged>
    /** `showAllConcepts`: whether all "Core Concepts" chips are shown. */
    var showAllConcepts: bool

    /** Every recorded error is `true`: the handler never writes `false`. */
    predicate Valid()
      reads this
    {
      forall name :: name in imageErrors ==> imageErrors[name]
    }

    /** The state a page starts in: no errors, no modal, chips folded. */
    constructor ()
      ensures Valid()
      ensures imageErrors == map[] && enlargedImage.None? && !showAllConcepts
    {
      imageErrors := map[];
      enlargedImage := None;
      showAllConcepts := false;
    }

    /** `handleImageError(key)`: mark one image as failed, keeping every other entry. */
    method HandleImageError(key: ImageKey)
      requires Valid()
      modifies this
      ensures Valid()
      ensures imageErrors == old(imageErrors)[PropertyName(key) := true]
      ensures Failed(imageErrors, key)
      ensures forall k :: Failed(old(imageErrors), k) ==> Failed(imageErrors, k)
      // with every entry true, an image shows as failed exactly when it has an entry
      ensures forall k :: Failed(imageErrors, k) <==> PropertyName(k) in imageErrors
      ensures enlargedImage == old(enlargedImage) && showAllConcepts == old(showAllConcepts)
    {
      imageErrors := imageErrors[PropertyName(key) := true];
    }

    /** `openImageModal(src, alt)`: show this image, replacing any other. */
    method OpenImageModal(src: string, alt: string)
      requires Valid()
      modifies this
      ensures Valid()
      ensures enlargedImage == Some(Enlarged(src, alt))
      ensures imageErrors == old(imageErrors) && showAllConcepts == old(showAllConcepts)
    {
      enlargedImage := Some(Enlarged(src, alt));
    }

    /** `closeImageModal()`: empty the modal. */
    method CloseImageModal()
      requires Valid()
      modifies this
      ensures Valid()
      ensures enlargedImage.None?
      ensures imageErrors == old(imageErrors) && showAllConcepts == old(showAllConcepts)
    {
      enlargedImage := None;
    }

    /** Dispatch one user event on the modal to the handlers it reaches. */
    method HandleModalEvent(e: ModalEvent)
      requires Valid()
      modifies this
      ensures Valid()
      ensures enlargedImage == ModalStep(old(enlargedImage), e)
      ensures imageErrors == old(imageErrors) && showAllConcepts == old(showAllConcepts)
    {
      match e {
        case Open(src, alt) => OpenImageModal(src, alt);
        case ClickBackdrop => CloseImageModal();
        case ClickImage =>
        case ClickClose => CloseImageModal();
      }
    }

    /** The toggle under "Core Concepts": `setShowAllConcepts(!showAllConcepts)`. */
    method ToggleConcepts()
      requires Valid()
      modifies this
      ensures Valid()
      ensures showAllConcepts == !old(showAllConcepts)
      ensures imageErrors == old(imageErrors) && enlargedImage == old(enlargedImage)
    {
      showAllConcepts := !showAllConcepts;
    }
  }

  /**
   * Unfolding and folding again shows the same chips and the same label as
   * before.
   */
  method ToggleTwice(s: DetailState, technologies: seq<string>)
    requires s.Valid()
    modifies s
    ensures s.Valid()
    ensures s.showAllConcepts == old(s.showAllConcepts)
    ensures ConceptChips(technologies, s.showAllConcepts) == ConceptChips(technologies, old(s.showAllConcepts))
    ensures ConceptToggleLabel(technologies, s.showAllConcepts)
      == ConceptToggleLabel(technologies, old(s.showAllConcepts))
  {
    s.ToggleConcepts();
    s.ToggleConcepts();
  }
}
