/**
 * The bot's music globals as one object whose handlers update its fields in
 * place.  Each handler is proved to perform the matching step of
 * MusicQueue, so every property proved there about the steps holds of it.
 */
module Bot {
  import opened MusicQueue

  class Session {
    var queue: seq<Track>
    var current: Current
    var sink: Sink
    var status: Option<bool>
    var history: seq<Track>

    /** The object's fields as a value. */
    function State(): BotState
      reads this
    {
      BotState(queue, current, sink, status, history)
    }

    /**
     * The invariant the handlers keep (MusicQueue.Consistent).  No handler
     * needs it to run; each promises to keep it, the callback only when the
     * player had stopped before it.
     */
    ghost predicate Valid()
      reads this
    {
      Consistent(State())
    }

    /** The globals at start-up: an empty queue, the placeholder song, no history. */
    constructor ()
      ensures State() == Initial && Valid()
      ensures current.Title() == IdleTitle && current.User() == ""
    {
      queue := [];
      current := Placeholder;
      sink := Idle;
      status := None;
      history := [];
    }

    /**
     * add_to_queue_internal, once the extractor has answered `e`.  The
     * returned failure is the error the handler prints; the state is as
     * AddStep says, so a failed start still leaves the song current.
     */
    method AddToQueue(e: Extracted, username: string, startOk: bool) returns (error: Option<Failure>)
      modifies this
      ensures State() == AddStep(old(State()), e, username, startOk)
      ensures MakeTrack(e, username).Err? ==> error == Some(MakeTrack(e, username).failure)
      ensures MakeTrack(e, username).Ok? ==>
                error == (if !old(sink).Busy() && !startOk then Some(StartFailed) else None)
      ensures old(Valid()) ==> Valid()
    {
      ghost var s := State();
      var song := MakeTrack(e, username);
      if song.Err? {
        error := Some(song.failure);
        return;
      }
      error := None;
      if sink.Busy() {
        queue := queue + [song.value];
      } else {
        current := Loaded(song.value);
        if startOk {
          sink := Playing(song.value);
          status := Some(true);
        } else {
          error := Some(StartFailed);
        }
      }
      if Consistent(s) {
        AddPreservesConsistent(s, e, username, startOk);
      }
    }

    /**
     * check_queue_internal, run as the player's after-callback.  A failed
     * start is an exception that escapes the callback after the head has
     * already been popped into the current song.
     */
    method OnPlaybackEnded(startOk: bool) returns (error: Option<Failure>)
      modifies this
      ensures State() == EndedStep(old(State()), startOk)
      ensures error == (if |old(queue)| > 0 && !StartsHead(old(State()), startOk) then Some(StartFailed) else None)
      ensures old(Valid()) && old(sink).Idle? ==> Valid()
    {
      ghost var s := State();
      error := None;
      if |queue| > 0 {
        current := Loaded(queue[0]);
        queue := queue[1..];
        if startOk && !sink.Playing? {
          sink := Playing(current.track);
          status := Some(true);
        } else {
          error := Some(StartFailed);
        }
      } else {
        current := Placeholder;
        status := Some(false);
      }
      if Consistent(s) && s.sink.Idle? {
        EndedPreservesConsistent(s, startOk);
      }
    }

    /** The stop command: `queue.clear()`, then, with a voice client, disconnect and idle presence. */
    method Stop(hasVoiceClient: bool)
      modifies this
      ensures State() == StopStep(old(State()), hasVoiceClient)
      ensures old(Valid()) ==> Valid()
    {
      queue := [];
      if hasVoiceClient {
        sink := Idle;
        status := Some(false);
      }
    }

    /** The skip command: with a voice client, stop the player and nothing else. */
    method Skip(hasVoiceClient: bool)
      modifies this
      ensures State() == SkipStep(old(State()), hasVoiceClient)
      ensures old(Valid()) ==> Valid()
    {
      if hasVoiceClient {
        sink := Idle;
      }
    }
  }

  /**
   * Two requests while a track plays, then two skips: the queued songs
   * become current in the order they were requested, and the session
   * stays valid throughout.
   */
  method PlayInRequestOrder(a: Track, b: Track, playing: Track) returns (first: Current, second: Current)
    ensures first == Loaded(a) && second == Loaded(b)
  {
    var session := new Session();
    assert session.Valid();
    var err := session.AddToQueue(Request(playing), playing.user, true);
    RequestRoundTrip(playing, []);
    RequestRoundTrip(a, []);
    RequestRoundTrip(b, []);
    err := session.AddToQueue(Request(a), a.user, true);
    err := session.AddToQueue(Request(b), b.user, true);
    session.Skip(true);
    err := session.OnPlaybackEnded(true);
    first := session.current;
    session.Skip(true);
    err := session.OnPlaybackEnded(true);
    second := session.current;
    assert session.Valid() && session.sink == Playing(b);
  }
}
