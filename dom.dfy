/**
  The page as the adapter sees it. Real CSS matching is replaced by a finite map
  from the fixed set of selectors the adapter uses to the first element each one
  matches; a selector with no entry matches nothing.
 */
module Dom {

  datatype Option<+T> = None | Some(value: T)

  /** A child node of an element, seen only through its text content. */
  datatype ChildNode = ChildNode(textContent: string)

  /** The parts of a DOM element that the adapter reads. */
  datatype Element = Element(
    disabled: bool,             // the `disabled` property (false where the element has none)
    dataQa: Option<string>,     // the `data-qa` attribute, None when it is missing
    ariaChecked: Option<string>,
    ariaValueNow: Option<string>,
    textContent: string,
    childNodes: seq<ChildNode>)

  /** Every selector the adapter queries. */
  datatype Selector =
    | PlayButton | SkipButton | ReplayButton | ThumbDownButton | ThumbUpButton
    | VolumeDuration | VolumeSlider | VolumeClickTracker | VolumeHandle
    | TitleCurrent | TitleTuner | ArtistCurrent | ArtistTuner | AlbumCurrent
  {
    /** The CSS selector text the adapter passes to the page. */
    function Css(): string {
      match this
      case PlayButton => ".PlayButton"
      case SkipButton => ".SkipButton"
      case ReplayButton => ".ReplayButton"
      case ThumbDownButton => ".ThumbDownButton"
      case ThumbUpButton => ".ThumbUpButton"
      case VolumeDuration => ".VolumeDurationControl .Duration"
      case VolumeSlider => ".VolumeDurationControl .VolumeSlider"
      case VolumeClickTracker => ".VolumeDurationControl .VolumeSlider__ClickTracker"
      case VolumeHandle => ".VolumeDurationControl .VolumeSlider__Handle__HitBox"
      case TitleCurrent => ".nowPlayingTopInfo__current .Marquee__wrapper__content"
      case TitleTuner => ".Tuner .Tuner__Audio__TrackDetail__title"
      case ArtistCurrent => ".nowPlayingTopInfo__current .nowPlayingTopInfo__current__artistName"
      case ArtistTuner => ".Tuner .Tuner__Audio__TrackDetail__artist"
      case AlbumCurrent => ".nowPlayingTopInfo__current .nowPlayingTopInfo__current__albumName"
    }
  }

  /** One snapshot of the page. */
  type Dom = map<Selector, Element>

  /** The element a selector matches, or None (a null result). */
  function QuerySelector(dom: Dom, s: Selector): Option<Element> {
    if s in dom then Some(dom[s]) else None
  }

  /** The matched element's text content, or None when nothing matches. */
  function QueryText(dom: Dom, s: Selector): Option<string> {
    if s in dom then Some(dom[s].textContent) else None
  }

  /** The matched element when it exists and is not disabled. */
  function Usable(dom: Dom, s: Selector): Option<Element> {
    if s in dom && !dom[s].disabled then Some(dom[s]) else None
  }
}
