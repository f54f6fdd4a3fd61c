/**
  The names of the actions the adapter publishes and handles. The two rating
  actions are its own; the transport actions are the host's standard player
  actions, identified by these names.
 */
module ActionNames {

  const ThumbsUp: string := "thumbs-up"
  const ThumbsDown: string := "thumbs-down"

  const TogglePlay: string := "toggle-play"
  const Play: string := "play"
  const Pause: string := "pause"
  const Stop: string := "stop"
  const PrevSong: string := "prev-song"
  const NextSong: string := "next-song"
  const ChangeVolume: string := "change-volume"

  /** Every action name the command handler reacts to. */
  const Handled: set<string> :=
    {TogglePlay, Play, Pause, Stop, PrevSong, NextSong, ThumbsUp, ThumbsDown, ChangeVolume}
}
