/**
  The command handler: maps an action name to the interaction it performs on
  the page, using a fresh resolution of the controls. Clicks and class
  additions are returned as recorded effects; clicking nothing records nothing.
 */
module Commands {
  import opened Dom
  import opened Locator
  import opened ActionNames

  /** The command's parameter, passed through untouched (the requested volume for change-volume). */
  type Param = Option<real>

  /** How a click is issued: plainly, or at a relative position inside the element. */
  datatype ClickArgs = Plain | At(x: Param, y: real)

  /** An interaction with the page, naming the selector of the control it lands on. */
  datatype Effect =
    | Click(on: Selector, target: Element, args: ClickArgs)
    | AddClass(on: Selector, target: Element, cls: string)

  const LeftShiftClass: string := "VolumeDurationControl__Duration--leftShift"
  const VisibleClass: string := "VolumeDurationControl__VolumeSlider--visible"

  /** The number of clicks among the effects. */
  function Clicks(effects: seq<Effect>): nat {
    if effects == [] then 0
    else (if effects[0].Click? then 1 else 0) + Clicks(effects[1..])
  }

  /** A plain click on a possibly absent control. */
  function ClickOn(on: Selector, elm: Option<Element>): (r: seq<Effect>)
    ensures elm.None? ==> r == []
    ensures elm.Some? ==> r == [Click(on, elm.value, Plain)]
    ensures Clicks(r) == if elm.Some? then 1 else 0
  {
    if elm.Some? then [Click(on, elm.value, Plain)] else []
  }

  lemma {:induction false} ClicksAppend(a: seq<Effect>, b: seq<Effect>)
    ensures Clicks(a + b) == Clicks(a) + Clicks(b)
  {
    if a == [] {
      assert a + b == b;
    } else {
      assert (a + b)[1..] == a[1..] + b;
      ClicksAppend(a[1..], b);
    }
  }

  /**
    The change-volume case: shift the duration text and show the slider,
    each only when present, then click the click target at the requested
    horizontal offset and half its height, only when present.
   */
  method ChangeVolumeEffects(volume: seq<Option<Element>>, param: Param) returns (effects: seq<Effect>)
    requires |volume| == 3
    ensures effects == (if volume[0].Some? then [AddClass(VolumeDuration, volume[0].value, LeftShiftClass)] else [])
                     + (if volume[1].Some? then [AddClass(VolumeSlider, volume[1].value, VisibleClass)] else [])
                     + (if volume[2].Some? then [Click(VolumeClickTracker, volume[2].value, At(param, 0.5))] else [])
    ensures Clicks(effects) == if volume[2].Some? then 1 else 0
  {
    effects := [];
    if volume[0].Some? {
      effects := effects + [AddClass(VolumeDuration, volume[0].value, LeftShiftClass)];
    }
    if volume[1].Some? {
      ClicksAppend(effects, [AddClass(VolumeSlider, volume[1].value, VisibleClass)]);
      effects := effects + [AddClass(VolumeSlider, volume[1].value, VisibleClass)];
    }
    if volume[2].Some? {
      ClicksAppend(effects, [Click(VolumeClickTracker, volume[2].value, At(param, 0.5))]);
      effects := effects + [Click(VolumeClickTracker, volume[2].value, At(param, 0.5))];
    }
  }

  /**
    Handles one activated action. Every handled name but change-volume
    clicks at most its one mapped control; toggle-play prefers play over
    pause; change-volume reveals the slider and clicks its click target at
    the requested offset; any other name does nothing.
   */
  method ActionActivated(dom: Dom, name: string, param: Param) returns (effects: seq<Effect>)
    // the table, in terms of the resolved controls
    ensures var c := Resolve(dom).controls;
      name == TogglePlay ==>
        effects == (if c.play.Some? then ClickOn(PlayButton, c.play) else ClickOn(PlayButton, c.pause))
    ensures name == Play ==> effects == ClickOn(PlayButton, Resolve(dom).controls.play)
    ensures name == Pause || name == Stop ==> effects == ClickOn(PlayButton, Resolve(dom).controls.pause)
    ensures name == PrevSong ==> effects == ClickOn(ReplayButton, Resolve(dom).controls.replay)
    ensures name == NextSong ==> effects == ClickOn(SkipButton, Resolve(dom).controls.skip)
    ensures name == ThumbsUp ==> effects == ClickOn(ThumbUpButton, Resolve(dom).controls.like)
    ensures name == ThumbsDown ==> effects == ClickOn(ThumbDownButton, Resolve(dom).controls.dislike)
    ensures var v := Resolve(dom).controls.volume;
      name == ChangeVolume ==>
        effects == (if v[0].Some? then [AddClass(VolumeDuration, v[0].value, LeftShiftClass)] else [])
                 + (if v[1].Some? then [AddClass(VolumeSlider, v[1].value, VisibleClass)] else [])
                 + (if v[2].Some? then [Click(VolumeClickTracker, v[2].value, At(param, 0.5))] else [])
    ensures name !in Handled ==> effects == []
    // one command, at most one click
    ensures Clicks(effects) <= 1
  {
    var elms := GetElements(dom);
    var c := elms.controls;
    effects := [];
    if name == TogglePlay {
      if c.play.Some? {
        effects := ClickOn(PlayButton, c.play);
      } else if c.pause.Some? {
        effects := ClickOn(PlayButton, c.pause);
      }
    } else if name == Play {
      effects := ClickOn(PlayButton, c.play);
    } else if name == Pause || name == Stop {
      effects := ClickOn(PlayButton, c.pause);
    } else if name == PrevSong {
      effects := ClickOn(ReplayButton, c.replay);
    } else if name == NextSong {
      effects := ClickOn(SkipButton, c.skip);
    } else if name == ThumbsUp {
      effects := ClickOn(ThumbUpButton, c.like);
    } else if name == ThumbsDown {
      effects := ClickOn(ThumbDownButton, c.dislike);
    } else if name == ChangeVolume {
      effects := ChangeVolumeEffects(c.volume, param);
    }
  }

  /**
    What the transport commands click, against the page: toggle-play, play
    and pause/stop all land on the one play button, each only in the states
    where the handler picks it; next, prev and the rating commands land on
    their own buttons when usable; the volume command clicks exactly when the
    click target exists, disabled or not.
   */
  lemma ClickTargetsOnPage(dom: Dom, param: Param)
    ensures var c := Resolve(dom).controls;
      (if c.play.Some? then ClickOn(PlayButton, c.play) else ClickOn(PlayButton, c.pause))
      == (if Usable(dom, PlayButton).Some? then [Click(PlayButton, dom[PlayButton], Plain)] else [])
    ensures ClickOn(PlayButton, Resolve(dom).controls.play)
      == (if Usable(dom, PlayButton).Some? && !PauseStyled(dom[PlayButton])
          then [Click(PlayButton, dom[PlayButton], Plain)] else [])
    ensures ClickOn(PlayButton, Resolve(dom).controls.pause)
      == (if Usable(dom, PlayButton).Some? && PauseStyled(dom[PlayButton])
          then [Click(PlayButton, dom[PlayButton], Plain)] else [])
    ensures ClickOn(SkipButton, Resolve(dom).controls.skip)
      == (if Usable(dom, SkipButton).Some? then [Click(SkipButton, dom[SkipButton], Plain)] else [])
    ensures ClickOn(ReplayButton, Resolve(dom).controls.replay)
      == (if Usable(dom, ReplayButton).Some? then [Click(ReplayButton, dom[ReplayButton], Plain)] else [])
    ensures ClickOn(ThumbUpButton, Resolve(dom).controls.like)
      == (if Usable(dom, ThumbUpButton).Some? then [Click(ThumbUpButton, dom[ThumbUpButton], Plain)] else [])
    ensures ClickOn(ThumbDownButton, Resolve(dom).controls.dislike)
      == (if Usable(dom, ThumbDownButton).Some? then [Click(ThumbDownButton, dom[ThumbDownButton], Plain)] else [])
    ensures Resolve(dom).controls.volume[2].Some? <==> VolumeClickTracker in dom
  {
  }
}
