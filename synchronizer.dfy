/**
  The state synchronizer: one poll tick samples the page into a track and a
  set of flags and publishes them to the host in a fixed order. The host's
  player and action registry are one sink whose received calls are logged.
 */
module Synchronizer {
  import opened Dom
  import opened Locator
  import opened ActionNames

  /** Track metadata as published to the host; art and rating are never known. */
  datatype Track = Track(
    title: Option<string>,
    artist: Option<string>,
    album: Option<string>,
    artLocation: Option<string>,
    rating: Option<real>,
    length: Option<string>)

  /** What the volume query yields: no handle, or the handle's raw `aria-valuenow`. */
  datatype VolumeReading = NoHandle | Handle(ariaValueNow: Option<string>)

  /** One call the adapter makes on the host. */
  datatype HostCall =
    | SetTrack(track: Track)
    | SetPlaybackState(state: PlaybackState)
    | SetCanGoPrev(canGoPrev: bool)
    | SetCanGoNext(canGoNext: bool)
    | SetCanPlay(canPlay: bool)
    | SetCanPause(canPause: bool)
    | SetCanSeek(canSeek: bool)
    | SetCanChangeVolume(canChangeVolume: bool)
    | UpdateEnabledFlags(enabled: map<string, bool>)
    | UpdateStates(states: map<string, Option<bool>>)  // None is a JavaScript null
    | SetTrackPosition(position: Option<string>)
    | UpdateVolume(volume: VolumeReading)

  /** The host side: it only records what it is told. */
  class Host {
    var log: seq<HostCall>

    constructor ()
      ensures log == []
    {
      log := [];
    }

    method Receive(call: HostCall)
      modifies this
      ensures log == old(log) + [call]
    {
      log := log + [call];
    }
  }

  /**
    The value of `a || b` for two string-or-null operands: the first one
    when it is a non-empty string, otherwise the second, whatever it is.
   */
  function FirstNonEmpty(a: Option<string>, b: Option<string>): (r: Option<string>)
    ensures a.Some? && a.value != "" ==> r == a
    ensures a.None? || a.value == "" ==> r == b
  {
    if a.Some? && a.value != "" then a else b
  }

  /** A text with the empty string read as absent. */
  function NonEmpty(s: string): (r: Option<string>)
    ensures r.None? <==> s == ""
    ensures r.Some? ==> r.value == s
  {
    if s == "" then None else Some(s)
  }

  /** The text of one time node when the time pair exists and the text is not empty. */
  function TimeText(time: Option<(ChildNode, ChildNode)>, total: bool): Option<string> {
    match time
    case None => None
    case Some(pair) => NonEmpty(if total then pair.1.textContent else pair.0.textContent)
  }

  /**
    The track one tick publishes. The title (and likewise the artist) is the
    current layout's text when that is non-empty, and otherwise whatever the
    Tuner layout gives; the album comes from the current layout only; the
    length is the text of the duration element's third child, present only
    when it has exactly three children and that text is not empty.
   */
  function TrackOf(dom: Dom): (t: Track)
    ensures TitleCurrent in dom && dom[TitleCurrent].textContent != "" ==>
              t.title == Some(dom[TitleCurrent].textContent)
    ensures !(TitleCurrent in dom && dom[TitleCurrent].textContent != "") ==>
              (t.title.Some? <==> TitleTuner in dom)
              && (t.title.Some? ==> t.title.value == dom[TitleTuner].textContent)
    ensures ArtistCurrent in dom && dom[ArtistCurrent].textContent != "" ==>
              t.artist == Some(dom[ArtistCurrent].textContent)
    ensures !(ArtistCurrent in dom && dom[ArtistCurrent].textContent != "") ==>
              (t.artist.Some? <==> ArtistTuner in dom)
              && (t.artist.Some? ==> t.artist.value == dom[ArtistTuner].textContent)
    ensures t.album.Some? <==> AlbumCurrent in dom
    ensures t.album.Some? ==> t.album.value == dom[AlbumCurrent].textContent
    ensures t.artLocation.None? && t.rating.None?
    ensures t.length.Some? <==>
              VolumeDuration in dom && |dom[VolumeDuration].childNodes| == 3
              && dom[VolumeDuration].childNodes[2].textContent != ""
    ensures t.length.Some? ==> t.length.value == dom[VolumeDuration].childNodes[2].textContent
  {
    Track(
      FirstNonEmpty(QueryText(dom, TitleCurrent), QueryText(dom, TitleTuner)),
      FirstNonEmpty(QueryText(dom, ArtistCurrent), QueryText(dom, ArtistTuner)),
      QueryText(dom, AlbumCurrent),
      None, None,
      TimeText(GetTime(dom), true))
  }

  /** The checked state of a rating control: null when it is absent. */
  function CheckedState(elm: Option<Element>): (r: Option<bool>)
    ensures r.None? <==> elm.None?
    ensures r == Some(true) <==> elm.Some? && elm.value.ariaChecked == Some("true")
  {
    match elm
    case None => None
    case Some(e) => Some(e.ariaChecked == Some("true"))
  }

  function EnabledFlags(c: Controls): map<string, bool> {
    map[ThumbsUp := c.like.Some?, ThumbsDown := c.dislike.Some?]
  }

  function CheckedStates(c: Controls): map<string, Option<bool>> {
    map[ThumbsUp := CheckedState(c.like), ThumbsDown := CheckedState(c.dislike)]
  }

  function VolumeOf(dom: Dom): VolumeReading {
    if VolumeHandle in dom then Handle(dom[VolumeHandle].ariaValueNow) else NoHandle
  }

  /** The player calls for one resolution: the playback state, then the capability flags. */
  function PlayerCalls(e: ElementSet): seq<HostCall>
    requires |e.controls.volume| == 3
  {
    [ SetPlaybackState(e.state),
      SetCanGoPrev(e.controls.replay.Some?),
      SetCanGoNext(e.controls.skip.Some?),
      SetCanPlay(e.controls.play.Some?),
      SetCanPause(e.controls.pause.Some?),
      SetCanSeek(false),
      SetCanChangeVolume(e.controls.volume[2].Some?) ]
  }

  /** The action-registry calls: the rating actions' enabled flags, then their states. */
  function ActionCalls(c: Controls): seq<HostCall> {
    [UpdateEnabledFlags(EnabledFlags(c)), UpdateStates(CheckedStates(c))]
  }

  /**
    The calls one tick makes, in order: track, playback state, the six
    capability flags, the rating actions' enabled flags and states, the
    position, the volume. Every capability flag is stated against the page
    itself; the rating actions' flags are stated in `RatingFlags`.
   */
  function TickCalls(dom: Dom): (calls: seq<HostCall>)
    ensures |calls| == 12
    ensures calls[0] == SetTrack(TrackOf(dom))
    ensures calls[1] == SetPlaybackState(Resolve(dom).state)
    ensures calls[2] == SetCanGoPrev(Usable(dom, ReplayButton).Some?)
    ensures calls[3] == SetCanGoNext(Usable(dom, SkipButton).Some?)
    ensures calls[4] == SetCanPlay(Usable(dom, PlayButton).Some? && !PauseStyled(dom[PlayButton]))
    ensures calls[5] == SetCanPause(Usable(dom, PlayButton).Some? && PauseStyled(dom[PlayButton]))
    ensures calls[6] == SetCanSeek(false)
    ensures calls[7] == SetCanChangeVolume(VolumeClickTracker in dom)
    ensures calls[8].UpdateEnabledFlags? && calls[9].UpdateStates?
    ensures calls[10] == SetTrackPosition(TimeText(GetTime(dom), false))
    ensures calls[11] == UpdateVolume(VolumeOf(dom))
  {
    [SetTrack(TrackOf(dom))] + PlayerCalls(Resolve(dom)) + ActionCalls(Resolve(dom).controls)
    + [SetTrackPosition(TimeText(GetTime(dom), false))] + [UpdateVolume(VolumeOf(dom))]
  }

  lemma ConcatAssoc(a: seq<HostCall>, b: seq<HostCall>, c: seq<HostCall>)
    ensures a + b + c == a + (b + c)
  {
  }

  /** Tells the player the state and capabilities of one resolution. */
  method PublishPlayer(elms: ElementSet, host: Host)
    requires |elms.controls.volume| == 3
    modifies host
    ensures host.log == old(host.log) + PlayerCalls(elms)
  {
    host.Receive(SetPlaybackState(elms.state));
    host.Receive(SetCanGoPrev(elms.controls.replay.Some?));
    host.Receive(SetCanGoNext(elms.controls.skip.Some?));
    host.Receive(SetCanPlay(elms.controls.play.Some?));
    host.Receive(SetCanPause(elms.controls.pause.Some?));
    host.Receive(SetCanSeek(false));
    host.Receive(SetCanChangeVolume(elms.controls.volume[2].Some?));
  }

  /** Fills the enabled and state dictionaries of the rating actions and sends both. */
  method PublishActions(c: Controls, host: Host)
    modifies host
    ensures host.log == old(host.log) + ActionCalls(c)
  {
    var actionsEnabled: map<string, bool> := map[];
    var actionsStates: map<string, Option<bool>> := map[];
    actionsEnabled := actionsEnabled[ThumbsUp := c.like.Some?];
    actionsStates := actionsStates[ThumbsUp := CheckedState(c.like)];
    actionsEnabled := actionsEnabled[ThumbsDown := c.dislike.Some?];
    actionsStates := actionsStates[ThumbsDown := CheckedState(c.dislike)];
    host.Receive(UpdateEnabledFlags(actionsEnabled));
    host.Receive(UpdateStates(actionsStates));
  }

  /**
    One poll tick (the rescheduling left aside): build the track, fill in its
    length from the time pair, resolve the controls and publish.
   */
  method Update(dom: Dom, host: Host)
    modifies host
    ensures host.log == old(host.log) + TickCalls(dom)
  {
    var track := Track(
      FirstNonEmpty(QueryText(dom, TitleCurrent), QueryText(dom, TitleTuner)),
      FirstNonEmpty(QueryText(dom, ArtistCurrent), QueryText(dom, ArtistTuner)),
      QueryText(dom, AlbumCurrent),
      None, None, None);
    var time := GetTime(dom);
    track := track.(length := if time.Some? then NonEmpty(time.value.1.textContent) else None);

    var elms := GetElements(dom);
    ghost var before := host.log;
    host.Receive(SetTrack(track));
    PublishPlayer(elms, host);
    ConcatAssoc(before, [SetTrack(track)], PlayerCalls(elms));
    PublishActions(elms.controls, host);
    ConcatAssoc(before, [SetTrack(track)] + PlayerCalls(elms), ActionCalls(elms.controls));
    ghost var published := [SetTrack(track)] + PlayerCalls(elms) + ActionCalls(elms.controls);
    host.Receive(SetTrackPosition(if time.Some? then NonEmpty(time.value.0.textContent) else None));
    ConcatAssoc(before, published, [SetTrackPosition(TimeText(time, false))]);
    host.Receive(UpdateVolume(if VolumeHandle in dom then Handle(dom[VolumeHandle].ariaValueNow) else NoHandle));
    ConcatAssoc(before, published + [SetTrackPosition(TimeText(time, false))], [UpdateVolume(VolumeOf(dom))]);
  }

  /** A tick never announces both play and pause, and the state matches the flags. */
  lemma PlayPauseFlagsAgree(dom: Dom)
    ensures !(TickCalls(dom)[4].canPlay && TickCalls(dom)[5].canPause)
    ensures TickCalls(dom)[1].state == Paused <==> TickCalls(dom)[4].canPlay
    ensures TickCalls(dom)[1].state == Playing <==> !TickCalls(dom)[4].canPlay && TickCalls(dom)[5].canPause
    ensures TickCalls(dom)[1].state == Unknown <==> !TickCalls(dom)[4].canPlay && !TickCalls(dom)[5].canPause
  {
  }

  /**
    Each rating action is enabled exactly when its button is usable, and is
    checked only when the button is usable and carries `aria-checked="true"`.
   */
  lemma RatingFlags(dom: Dom)
    ensures TickCalls(dom)[8].enabled.Keys == {ThumbsUp, ThumbsDown}
    ensures TickCalls(dom)[8].enabled[ThumbsUp] == Usable(dom, ThumbUpButton).Some?
    ensures TickCalls(dom)[8].enabled[ThumbsDown] == Usable(dom, ThumbDownButton).Some?
    ensures TickCalls(dom)[9].states.Keys == {ThumbsUp, ThumbsDown}
    ensures TickCalls(dom)[9].states[ThumbsUp] == Some(true) <==>
              Usable(dom, ThumbUpButton).Some? && dom[ThumbUpButton].ariaChecked == Some("true")
    ensures TickCalls(dom)[9].states[ThumbsDown] == Some(true) <==>
              Usable(dom, ThumbDownButton).Some? && dom[ThumbDownButton].ariaChecked == Some("true")
    ensures TickCalls(dom)[9].states[ThumbsUp].None? <==> Usable(dom, ThumbUpButton).None?
    ensures TickCalls(dom)[9].states[ThumbsDown].None? <==> Usable(dom, ThumbDownButton).None?
  {
  }

  /**
    The position comes from the first child of the duration element, only
    when it has exactly three children and that text is not empty.
   */
  lemma TrackPosition(dom: Dom)
    ensures TickCalls(dom)[10].position.Some? <==>
              VolumeDuration in dom && |dom[VolumeDuration].childNodes| == 3
              && dom[VolumeDuration].childNodes[0].textContent != ""
    ensures TickCalls(dom)[10].position.Some? ==>
              TickCalls(dom)[10].position.value == dom[VolumeDuration].childNodes[0].textContent
  {
  }

  /**
    An enabled play button without the pause marker, with skip and replay
    buttons present: the page is paused, prev/next/play are offered and
    pause is not.
   */
  lemma PausedPageExample(play: Element, skip: Element, replay: Element)
    requires !play.disabled && play.dataQa.None? && !skip.disabled && !replay.disabled
    ensures var calls := TickCalls(map[PlayButton := play, SkipButton := skip, ReplayButton := replay]);
      calls[1..6] == [SetPlaybackState(Paused), SetCanGoPrev(true), SetCanGoNext(true),
                      SetCanPlay(true), SetCanPause(false)]
  {
  }
}
