/**
  The element locator: resolves the player's controls from the page, treats
  disabled controls as absent, tells the play button from the pause button and
  derives the playback state; and extracts the elapsed/total time pair.
 */
module Locator {
  import opened Dom

  datatype PlaybackState = Unknown | Paused | Playing

  /** The `data-qa` value that marks the play button as rendered for pausing. */
  const PauseMarker: string := "pause_button"

  predicate PauseStyled(e: Element) {
    e.dataQa == Some(PauseMarker)
  }

  /**
    The visible control names the action it offers: a play control means
    playback is paused, a pause control alone means it is playing.
   */
  function StateOf(play: Option<Element>, pause: Option<Element>): (s: PlaybackState)
    ensures s == Paused <==> play.Some?
    ensures s == Playing <==> play.None? && pause.Some?
    ensures s == Unknown <==> play.None? && pause.None?
  {
    if play.Some? then Paused else if pause.Some? then Playing else Unknown
  }

  /** The keys of the resolution object, in the order a for-in loop visits them. */
  datatype Key = PlayKey | PauseKey | SkipKey | ReplayKey | DislikeKey | LikeKey | VolumeKey

  const Keys: seq<Key> := [PlayKey, PauseKey, SkipKey, ReplayKey, DislikeKey, LikeKey, VolumeKey]

  function Index(k: Key): nat {
    match k
    case PlayKey => 0
    case PauseKey => 1
    case SkipKey => 2
    case ReplayKey => 3
    case DislikeKey => 4
    case LikeKey => 5
    case VolumeKey => 6
  }

  /** The value under one key: a single control, or the three-slot volume array. */
  datatype Field = Single(elm: Option<Element>) | Slots(elms: seq<Option<Element>>)

  /** JavaScript truthiness: null is falsy, an element and an array are truthy. */
  predicate Truthy(f: Field) {
    f.Slots? || f.elm.Some?
  }

  /** The value's `disabled` property: an element's own flag; an array has none. */
  predicate DisabledProperty(f: Field) {
    f.Single? && f.elm.Some? && f.elm.value.disabled
  }

  /** What the disabled filter leaves under one key. */
  function Filtered(f: Field): Field {
    if Truthy(f) && DisabledProperty(f) then Single(None) else f
  }

  /** The resolution object: the candidate controls and the volume slots. */
  datatype Controls = Controls(
    play: Option<Element>,
    pause: Option<Element>,
    skip: Option<Element>,
    replay: Option<Element>,
    dislike: Option<Element>,
    like: Option<Element>,
    volume: seq<Option<Element>>)  // duration text, slider container, click target
  {
    function Get(k: Key): Field {
      match k
      case PlayKey => Single(play)
      case PauseKey => Single(pause)
      case SkipKey => Single(skip)
      case ReplayKey => Single(replay)
      case DislikeKey => Single(dislike)
      case LikeKey => Single(like)
      case VolumeKey => Slots(volume)
    }

    /** The object after `null` is stored under a single-control key. */
    function Cleared(k: Key): (c: Controls)
      requires k != VolumeKey
      ensures c.Get(k) == Single(None)
      ensures forall j :: j != k ==> c.Get(j) == Get(j)
    {
      match k
      case PlayKey => this.(play := None)
      case PauseKey => this.(pause := None)
      case SkipKey => this.(skip := None)
      case ReplayKey => this.(replay := None)
      case DislikeKey => this.(dislike := None)
      case LikeKey => this.(like := None)
    }
  }

  /** A resolution together with the playback state derived from it. */
  datatype ElementSet = ElementSet(controls: Controls, state: PlaybackState)

  /** The selectors behind the three volume slots, in slot order. */
  const VolumeSelectors: seq<Selector> := [VolumeDuration, VolumeSlider, VolumeClickTracker]

  /**
    What resolving the page yields, stated declaratively: each button is its
    selector's element unless that is disabled, the enabled play button goes
    to the pause slot when it is pause-styled, and the volume slots are taken
    as found.
   */
  function Resolve(dom: Dom): (r: ElementSet)
    // no disabled button survives
    ensures r.controls.play.Some? ==> !r.controls.play.value.disabled
    ensures r.controls.pause.Some? ==> !r.controls.pause.value.disabled
    ensures r.controls.skip == Usable(dom, SkipButton)
    ensures r.controls.replay == Usable(dom, ReplayButton)
    ensures r.controls.dislike == Usable(dom, ThumbDownButton)
    ensures r.controls.like == Usable(dom, ThumbUpButton)
    // the volume slots are never filtered
    ensures |r.controls.volume| == 3
    ensures forall i :: 0 <= i < 3 ==> r.controls.volume[i] == QuerySelector(dom, VolumeSelectors[i])
    // the play/pause split
    ensures r.controls.play.Some? <==> Usable(dom, PlayButton).Some? && !PauseStyled(dom[PlayButton])
    ensures r.controls.pause.Some? <==> Usable(dom, PlayButton).Some? && PauseStyled(dom[PlayButton])
    ensures r.controls.play.Some? ==> r.controls.play.value == dom[PlayButton]
    ensures r.controls.pause.Some? ==> r.controls.pause.value == dom[PlayButton]
    ensures !(r.controls.play.Some? && r.controls.pause.Some?)
    // the state agrees with the slots
    ensures r.state == Paused <==> r.controls.play.Some?
    ensures r.state == Playing <==> r.controls.play.None? && r.controls.pause.Some?
    ensures r.state == Unknown <==> r.controls.play.None? && r.controls.pause.None?
  {
    var button := Usable(dom, PlayButton);
    var pauseStyled := button.Some? && PauseStyled(button.value);
    var play := if pauseStyled then None else button;
    var pause := if pauseStyled then button else None;
    var volume := [QuerySelector(dom, VolumeDuration), QuerySelector(dom, VolumeSlider),
                   QuerySelector(dom, VolumeClickTracker)];
    var c := Controls(play, pause, Usable(dom, SkipButton), Usable(dom, ReplayButton),
                      Usable(dom, ThumbDownButton), Usable(dom, ThumbUpButton), volume);
    ElementSet(c, StateOf(play, pause))
  }

  /**
    The disabled filter: visits every key of the resolution object in order
    and stores `null` under each one whose value is truthy and disabled.
   */
  method ClearDisabled(elms: Controls) returns (r: Controls)
    ensures forall k :: r.Get(k) == Filtered(elms.Get(k))
    ensures r.volume == elms.volume  // the volume array itself has no `disabled` property
  {
    r := elms;
    var i := 0;
    while i < |Keys|
      invariant 0 <= i <= |Keys|
      invariant forall k :: r.Get(k) == if Index(k) < i then Filtered(elms.Get(k)) else elms.Get(k)
    {
      var key := Keys[i];
      assert Index(key) == i;
      var value := r.Get(key);
      if Truthy(value) && DisabledProperty(value) {
        r := r.Cleared(key);
      }
      i := i + 1;
    }
    assert r.Get(VolumeKey) == Filtered(elms.Get(VolumeKey));
  }

  /**
    Resolution as the adapter performs it: build the object with `pause`
    empty, run the disabled filter over its keys, move a pause-styled play
    button to `pause`, then attach the state.
   */
  method GetElements(dom: Dom) returns (r: ElementSet)
    ensures r == Resolve(dom)
  {
    var elms := Controls(
      QuerySelector(dom, PlayButton), None,
      QuerySelector(dom, SkipButton), QuerySelector(dom, ReplayButton),
      QuerySelector(dom, ThumbDownButton), QuerySelector(dom, ThumbUpButton),
      [QuerySelector(dom, VolumeDuration), QuerySelector(dom, VolumeSlider),
       QuerySelector(dom, VolumeClickTracker)]);
    ghost var built := elms;
    elms := ClearDisabled(elms);
    assert elms.Get(PauseKey) == Single(None);
    assert elms.Get(VolumeKey) == built.Get(VolumeKey);
    assert elms.Get(PlayKey) == Single(Usable(dom, PlayButton));
    assert elms.Get(SkipKey) == Single(Usable(dom, SkipButton));
    assert elms.Get(ReplayKey) == Single(Usable(dom, ReplayButton));
    assert elms.Get(DislikeKey) == Single(Usable(dom, ThumbDownButton));
    assert elms.Get(LikeKey) == Single(Usable(dom, ThumbUpButton));
    if elms.play.Some? && PauseStyled(elms.play.value) {
      elms := elms.(pause := elms.play, play := None);
    }
    r := ElementSet(elms, StateOf(elms.play, elms.pause));
  }

  /**
    The elapsed and total time nodes: the first and third child of the
    duration element, available only when it has exactly three children.
   */
  function GetTime(dom: Dom): (r: Option<(ChildNode, ChildNode)>)
    ensures r.Some? <==> VolumeDuration in dom && |dom[VolumeDuration].childNodes| == 3
    ensures r.Some? ==>
      r.value.0 == dom[VolumeDuration].childNodes[0] && r.value.1 == dom[VolumeDuration].childNodes[2]
  {
    match QuerySelector(dom, VolumeDuration)
    case Some(elm) =>
      if |elm.childNodes| == 3 then Some((elm.childNodes[0], elm.childNodes[2])) else None
    case None => None
  }
}
