/** Side effects the timer asks its collaborators for, recorded as data.

    The notification tone and the two music-service requests are
    fire-and-forget calls whose outcome never feeds back into the timer, so
    the model records each request as an `Event` in the order it is made.
 */
module Effects {

  /** The playlist chosen in the sidebar. The "Choose a playlist" option
      stores the empty string, which the timer's truthiness test treats
      exactly like no selection at all. */
  datatype Selection = NoSelection | Chosen(id: string)

  /** True when a playlist that can be played is selected. */
  predicate HasPlaylist(sel: Selection) {
    sel.Chosen? && sel.id != ""
  }

  /** One request made to a collaborator: the notification tone, a request
      to start a playlist, or a request to pause playback. */
  datatype Event = Notify | Play(playlist: string) | Pause

  /** True when some request in `evs` starts playback. */
  predicate Plays(evs: seq<Event>) {
    exists e :: e in evs && e.Play?
  }

  /** True when the last request in `evs` is a pause. */
  predicate EndsWithPause(evs: seq<Event>) {
    |evs| > 0 && evs[|evs| - 1] == Pause
  }

  /** Number of notification cues in `evs`. */
  function Cues(evs: seq<Event>): nat
    decreases |evs|
  {
    if evs == [] then 0
    else (if evs[0] == Notify then 1 else 0) + Cues(evs[1..])
  }

  /** Cues in a concatenation add up. */
  lemma {:induction false} CuesConcat(a: seq<Event>, b: seq<Event>)
    ensures Cues(a + b) == Cues(a) + Cues(b)
    decreases |a|
  {
    if a == [] {
      assert [] + b == b;
    } else {
      assert (a + b)[1..] == a[1..] + b;
      CuesConcat(a[1..], b);
    }
  }

  /** The play request made for the current selection: one request for a
      selected playlist, none otherwise. */
  function PlayRequest(sel: Selection): (evs: seq<Event>)
    ensures HasPlaylist(sel) ==> evs == [Play(sel.id)]
    ensures !HasPlaylist(sel) ==> evs == []
    ensures Plays(evs) <==> HasPlaylist(sel)
  {
    if HasPlaylist(sel) then
      assert Play(sel.id) in [Play(sel.id)];
      [Play(sel.id)]
    else []
  }

  /** A concatenation starts playback exactly when one of its parts does. */
  lemma PlaysConcat(a: seq<Event>, b: seq<Event>)
    ensures Plays(a + b) <==> Plays(a) || Plays(b)
  {
  }

  /** The notification cues of `evs`, in order; music requests are dropped. */
  function CuesOnly(evs: seq<Event>): (out: seq<Event>)
    ensures forall i :: 0 <= i < |out| ==> out[i] == Notify
    ensures Cues(out) == Cues(evs)
    ensures |out| == Cues(evs)
    decreases |evs|
  {
    if evs == [] then []
    else
      var head: seq<Event> := if evs[0] == Notify then [Notify] else [];
      var tail := CuesOnly(evs[1..]);
      CuesConcat(head, tail);
      head + tail
  }

  /** What actually reaches the collaborators: both music requests return
      early when there is no access token, while the tone always plays. */
  function Deliver(evs: seq<Event>, authorized: bool): (out: seq<Event>)
    ensures authorized ==> out == evs
    ensures !authorized ==> !Plays(out) && Pause !in out
    ensures Cues(out) == Cues(evs)
  {
    if authorized then evs else CuesOnly(evs)
  }
}
