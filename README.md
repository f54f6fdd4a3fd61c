# Pandora playback adapter for Nuvola, modelled in Dafny

This project models the decision logic of the Pandora web-app integration for
the Nuvola player (`integrate.js`). On every poll tick the integration reads
the Pandora page and publishes a normalised player state to the host. It also
turns the host's playback commands into clicks on the page. The page is
abstracted as a finite map from the fixed selectors the script queries to the
one element each matches. The host is a sink that logs the calls it receives.

Modules, one per component:

- `Dom` (`dom.dfy`): the element record (`disabled`, `data-qa`,
  `aria-checked`, `aria-valuenow`, text content, child nodes), the selectors
  with their CSS text, and the query helpers.
- `ActionNames` (`actions.dfy`): the action names. The two rating actions are
  defined by the script. The transport names are the host's player actions.
- `Locator` (`locator.dfy`): element resolution (`_getElements`) and time
  extraction (`_getTime`). `GetElements` is imperative, like the source. It
  builds the resolution object, and `ClearDisabled` walks its keys in for-in order, clearing
  each truthy disabled value. It then moves a pause-styled play button into
  the pause slot. It is proved equal to the declarative `Resolve`, and the
  source's invariants are proved about `Resolve`. The for-in quirk is
  modelled exactly: the value under `volume` is an array, which is truthy and
  has no `disabled` property, so the three volume slots are never filtered.
  `pause` is still empty when the filter runs.
- `Synchronizer` (`synchronizer.dfy`): the snapshot of one `update` tick.
  `Update` appends the tick's calls to the `Host` log in the source's order.
  It is proved equal to the specification function `TickCalls`, whose
  contract states every capability flag against the page itself. The rating
  actions' enabled flags and states are stated against the page in
  `RatingFlags`.
- `Commands` (`commands.dfy`): `_onActionActivated`. It returns the effects
  it causes, as `Click(selector, element, args)` and
  `AddClass(selector, element, class)`; the selector names the control the
  effect lands on.

## Model

| member | source | states |
|---|---|---|
| `Locator.StateOf` | integrate.js:175 | PAUSED exactly when a play control exists; PLAYING exactly when there is no play control but a pause control; UNKNOWN exactly when neither exists |
| `Locator.Resolve` | integrate.js:152-176 | No surviving play, pause, skip, replay, like or dislike control is disabled. The three volume slots are the raw query results, never filtered. Play holds the usable `.PlayButton` exactly when it is not marked `data-qa="pause_button"`, and pause holds it exactly when it is. So the two slots are never both filled, and a disabled pause-styled button leaves both empty. The state agrees with the slots |
| `Locator.ClearDisabled` | integrate.js:166-170 | The for-in filter leaves each key's value as it was, except that a present, disabled single control becomes null. The volume array is left untouched, since an array has no `disabled` property |
| `Locator.GetElements` | integrate.js:152-177 | The imperative resolution (build the object, run the for-in disabled filter, split play/pause, attach the state) yields exactly `Resolve(dom)` |
| `Locator.GetTime` | integrate.js:179-185 | A time pair exists if and only if the duration element exists and has exactly three child nodes; the pair is then its first and third child |
| `Synchronizer.FirstNonEmpty` | integrate.js:67-72 | String-or-null `a \|\| b`: the first operand when it is a non-empty string, otherwise the second operand, whatever it is |
| `Synchronizer.NonEmpty` | integrate.js:79 | `text \|\| null`: absent exactly when the text is empty, otherwise the text |
| `Synchronizer.TrackOf` | integrate.js:66-79 | Against the page: title and artist are the current layout's text when it is non-empty, and otherwise the Tuner layout's text, present exactly when that element exists. The album is present exactly when its current-layout element exists, and is its text. Art and rating are always null. The length is the duration element's third child's text, present exactly when that element has exactly three children and the text is non-empty |
| `Synchronizer.CheckedState` | integrate.js:94-96 | A rating state is null exactly when its control is absent, and true exactly when the control is present with `aria-checked="true"` |
| `Synchronizer.TickCalls` | integrate.js:82-102 | One tick makes exactly twelve calls, in this order: track, state, prev, next, play, pause, seek, change-volume, enabled flags, states, position, volume. canGoPrev/canGoNext/canPlay/canPause are the usable replay/skip/play/pause controls, from the page. canSeek is always false. canChangeVolume is the click tracker's mere presence |
| `Synchronizer.PublishPlayer` | integrate.js:83-89 | Appends the playback state and the six capability flags, in source order, to the host log |
| `Synchronizer.PublishActions` | integrate.js:91-98 | Fills the enabled and state dictionaries of both rating actions and appends the two registry calls to the host log |
| `Synchronizer.Update` | integrate.js:65-103 | One tick appends exactly `TickCalls(dom)` to the host log, and nothing else changes |
| `Synchronizer.PlayPauseFlagsAgree` | integrate.js:83-87 | A tick never offers both play and pause. The published state is PAUSED exactly when play is offered, PLAYING exactly when only pause is offered, and UNKNOWN otherwise |
| `Synchronizer.RatingFlags` | integrate.js:91-98 | Each rating action is enabled exactly when its button is usable. It is checked exactly when the button is usable and `aria-checked="true"`. Its state is null exactly when the button is absent, so it is never true for an absent button |
| `Synchronizer.TrackPosition` | integrate.js:100 | The published position is the duration element's first child's text, present exactly when that element has exactly three children and the text is non-empty |
| `Synchronizer.PausedPageExample` | integrate.js:82-87 | A page with an enabled `.PlayButton` without the pause marker, plus enabled skip and replay buttons. It publishes PAUSED, prev, next and play offered, and pause not offered |
| `Commands.ClickOn` | integrate.js:119-136 | A click on an absent control records nothing; on a present one it records one plain click on that element, tagged with the control's selector |
| `Commands.ChangeVolumeEffects` | integrate.js:138-148 | change-volume adds the left-shift class to the duration element, then the visible class to the slider, each only if present. It then clicks the click target at `(param, 0.5)` only if present. It makes exactly one click when the click target exists, and none otherwise |
| `Commands.ActionActivated` | integrate.js:109-150 | toggle-play clicks play if present, else pause if present, else nothing. play, pause/stop, prev-song, next-song, thumbs-up and thumbs-down each click only their one slot: play, pause, replay, skip, like, dislike. change-volume adds the left-shift class to volume[0] and the visible class to volume[1], each only when present, then clicks volume[2] at `(param, 0.5)` only when present. Any other name has no effect. Every command performs at most one click |
| `Commands.ClickTargetsOnPage` | integrate.js:112-146 | Against the page: toggle-play clicks the `.PlayButton` element exactly when it is usable. play clicks it only when it is not pause-styled, and pause/stop only when it is. next/prev and thumbs-up/thumbs-down click their own buttons exactly when usable. The volume click happens exactly when the click tracker exists, even if disabled |

## Left out

- Bootstrap and lifecycle (integrate.js:39-63 and 187) are left out. This covers registering the rating actions with translated labels, the document-ready check, the `DOMContentLoaded` subscription, connecting to `ActionActivated` and `WebApp.start`. All of it is host and framework wiring.
- The 500 ms rescheduling by `setTimeout` (integrate.js:105) is left out. One call of `Update` is one tick.
- CSS selector matching, `document.querySelector` and the library's `queryText`/`queryAttribute` are replaced by the selector map. `queryText` is taken to give the matched element's text content unchanged. The library code is not part of this model.
- The volume is not converted. The sink receives the handle's raw `aria-valuenow` attribute (`VolumeReading`). The division by 100 involves string-to-number coercion and floating point.
- What a click does on the page (synthetic mouse events) is left out. A click is only a recorded effect, and a click on null records nothing. A class addition is likewise recorded and not applied to the page snapshot.
- Elements are compared by value: two distinct DOM nodes with identical attributes are not told apart. Effects carry the selector of the control they land on, so commands on different controls stay distinguishable.
- The string values of the host's player actions (`toggle-play`, `play`, `pause`, `stop`, `prev-song`, `next-song`, `change-volume`) are defined by the Nuvola library. That library is not part of this model.
- The command parameter is carried as an optional number and never interpreted.
- Repeated resolution giving the same result holds because `Resolve` is a function of the page snapshot, so it needs no lemma.
- Exceptions thrown during a tick, and their halting of rescheduling, are not modelled. Nothing in the modelled logic throws.
- Behaviours of the code that are easy to miss, which the model follows:
  - change-volume gates each of its three effects on its own volume slot (integrate.js:139-147).
  - change-volume can therefore add two classes besides its one click (integrate.js:140-146).
  - The volume slots are never removed by the disabled filter, because the filter's value under `volume` is the array itself (integrate.js:160-170).
  - Under the `queryText` assumption above, a title or artist fallback to the Tuner layout yields an empty string when the Tuner element exists with empty text (integrate.js:67-72).
  - A rating state is null, not false, when the button is absent (integrate.js:94-96).
