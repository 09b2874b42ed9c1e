/**
 * The music-queue state of the bot as values: the records it stores, the
 * result of a search, and one step function per handler that changes the
 * queue, the current song or the voice sink.  The class in bot.dfy is proved
 * to perform exactly these steps.
 */
module MusicQueue {

  datatype Option<T> = None | Some(value: T)

  /** Title of the placeholder current song shown while nothing is loaded. */
  const IdleTitle: string := "Nekas neskan"

  /** A song record `{'url': ..., 'title': ..., 'user': ...}`. */
  datatype Track = Track(url: string, title: string, user: string)

  /**
   * `current_song`: either the placeholder `{"title": "Nekas neskan", "user": ""}`,
   * which has no url, or a song record.
   */
  datatype Current = Placeholder | Loaded(track: Track)
  {
    function Title(): string
    {
      if Placeholder? then IdleTitle else track.title
    }

    function User(): string
    {
      if Placeholder? then "" else track.user
    }
  }

  /** The voice connection's player, and the track it was started on. */
  datatype Sink = Idle | Playing(track: Track) | Paused(track: Track)
  {
    /** `voice.is_playing() or voice.is_paused()` */
    predicate Busy()
    {
      !Idle?
    }
  }

  /** The fields of an extracted info dict that the bot reads. */
  datatype Info = Info(url: Option<string>, title: Option<string>)

  /**
   * What the extractor hands back for a search: nothing (it raised, or
   * returned None as it does when errors are ignored), one info dict, or a
   * dict with an `entries` list whose items may themselves be None.
   */
  datatype Extracted = NoResult | Single(info: Info) | Entries(entries: seq<Option<Info>>)

  /** Why a play request or a start of the player failed. */
  datatype Failure = ExtractFailed | NoEntries | NullEntry | MissingUrl | MissingTitle | StartFailed

  datatype Result<T> = Ok(value: T) | Err(failure: Failure)

  /** The module-level globals, plus the player and the last presence flag. */
  datatype BotState = BotState(
    queue: seq<Track>,
    current: Current,
    sink: Sink,
    status: Option<bool>,   // last argument given to update_bot_status, None before the first call
    history: seq<Track>)

  /** The state at start-up. */
  const Initial: BotState := BotState([], Placeholder, Idle, None, [])

  /** The info dict the bot ends up reading, if there is one. */
  function FirstCandidate(e: Extracted): Option<Info>
  {
    match e
    case NoResult => None
    case Single(i) => Some(i)
    case Entries(es) => if |es| == 0 then None else es[0]
  }

  /**
   * Builds the song record from an extraction result: only the first entry
   * of a result with entries is used, and every missing piece is an error.
   */
  function MakeTrack(e: Extracted, user: string): (r: Result<Track>)
    ensures r.Ok? ==> r.value.user == user
    ensures r.Ok? ==> FirstCandidate(e) == Some(Info(Some(r.value.url), Some(r.value.title)))
    ensures r.Err? ==> FirstCandidate(e).None? || FirstCandidate(e).value.url.None?
                       || FirstCandidate(e).value.title.None?
  {
    var info :=
      match e
      case NoResult => Err(ExtractFailed)
      case Single(i) => Ok(i)
      case Entries(es) =>
        if |es| == 0 then Err(NoEntries)
        else if es[0].None? then Err(NullEntry)
        else Ok(es[0].value);
    if info.Err? then Err(info.failure)
    else if info.value.url.None? then Err(MissingUrl)
    else if info.value.title.None? then Err(MissingTitle)
    else Ok(Track(info.value.url.value, info.value.title.value, user))
  }

  /** An extraction result that yields exactly `t` when requested by `t.user`. */
  function Request(t: Track): Extracted
  {
    Single(Info(Some(t.url), Some(t.title)))
  }

  /**
   * add_to_queue_internal: a failed extraction changes nothing; a busy
   * player gets the song appended to the queue; an idle one gets it as the
   * current song and, when starting succeeds, plays it and sets the presence
   * to playing.  `startOk` says whether building the audio source and
   * `voice.play` succeed.
   */
  function AddStep(s: BotState, e: Extracted, user: string, startOk: bool): (s': BotState)
    ensures MakeTrack(e, user).Err? ==> s' == s
    ensures MakeTrack(e, user).Ok? && s.sink.Busy() ==>
              && s'.queue == s.queue + [MakeTrack(e, user).value]
              && s'.current == s.current && s'.sink == s.sink && s'.status == s.status
    ensures MakeTrack(e, user).Ok? && !s.sink.Busy() ==>
              && s'.current == Loaded(MakeTrack(e, user).value)
              && s'.queue == s.queue
              && (startOk ==> s'.sink == Playing(MakeTrack(e, user).value) && s'.status == Some(true))
              && (!startOk ==> s'.sink == s.sink && s'.status == s.status)
    ensures s'.history == s.history
  {
    match MakeTrack(e, user)
    case Err(_) => s
    case Ok(t) =>
      if s.sink.Busy() then s.(queue := s.queue + [t])
      else if startOk then s.(current := Loaded(t), sink := Playing(t), status := Some(true))
      else s.(current := Loaded(t))
  }

  /** Whether the callback's `voice.play` of the queue's head succeeds. */
  predicate StartsHead(s: BotState, startOk: bool)
  {
    startOk && !s.sink.Playing?
  }

  /**
   * check_queue_internal, the player's after-callback: the queue's head
   * becomes the current song and is played, or, on an empty queue, the
   * current song goes back to the placeholder and the presence to idle.
   * `startOk` says whether building the audio source succeeds; `voice.play`
   * itself refuses to start while the player is already playing.
   */
  function EndedStep(s: BotState, startOk: bool): (s': BotState)
    ensures |s.queue| > 0 ==>
              && s'.current == Loaded(s.queue[0])
              && s'.queue == s.queue[1..]
              && (StartsHead(s, startOk) ==> s'.sink == Playing(s.queue[0]) && s'.status == Some(true))
              && (!StartsHead(s, startOk) ==> s'.sink == s.sink && s'.status == s.status)
    ensures |s.queue| == 0 ==>
              && s'.current == Placeholder && s'.current.Title() == IdleTitle && s'.current.User() == ""
              && s'.queue == [] && s'.sink == s.sink && s'.status == Some(false)
    ensures s'.history == s.history
  {
    if |s.queue| > 0 then
      var head := s.queue[0];
      if StartsHead(s, startOk) then s.(current := Loaded(head), queue := s.queue[1..], sink := Playing(head), status := Some(true))
      else s.(current := Loaded(head), queue := s.queue[1..])
    else
      s.(current := Placeholder, status := Some(false))
  }

  /**
   * The stop command: the queue is emptied in every case; only when the bot
   * has a voice client is it disconnected (the player stops) and the
   * presence set to idle.  The current song is left to the after-callback.
   */
  function StopStep(s: BotState, hasVoiceClient: bool): (s': BotState)
    ensures s'.queue == []
    ensures s'.current == s.current && s'.history == s.history
    ensures hasVoiceClient ==> s'.sink == Idle && s'.status == Some(false)
    ensures !hasVoiceClient ==> s'.sink == s.sink && s'.status == s.status
  {
    if hasVoiceClient then s.(queue := [], sink := Idle, status := Some(false))
    else s.(queue := [])
  }

  /**
   * The skip command: it only stops the player, when there is a voice
   * client; the queue and the current song move on in the after-callback.
   */
  function SkipStep(s: BotState, hasVoiceClient: bool): (s': BotState)
    ensures s'.queue == s.queue && s'.current == s.current
    ensures s'.status == s.status && s'.history == s.history
    ensures s'.sink == if hasVoiceClient then Idle else s.sink
  {
    if hasVoiceClient then s.(sink := Idle) else s
  }

  /** The events that drive the state, each handled as one atomic step. */
  datatype Event =
    | Play(e: Extracted, user: string, startOk: bool)
    | Ended(startOk: bool)
    | Stop(hasVoiceClient: bool)
    | Skip(hasVoiceClient: bool)

  function Apply(s: BotState, ev: Event): BotState
  {
    match ev
    case Play(e, user, ok) => AddStep(s, e, user, ok)
    case Ended(ok) => EndedStep(s, ok)
    case Stop(v) => StopStep(s, v)
    case Skip(v) => SkipStep(s, v)
  }

  function Run(s: BotState, evs: seq<Event>): BotState
    decreases |evs|
  {
    if |evs| == 0 then s else Run(Apply(s, evs[0]), evs[1..])
  }

  /**
   * The player calls its after-callback only once it has stopped: every
   * Ended event of the run finds the sink idle.
   */
  predicate CallbacksWhenIdle(s: BotState, evs: seq<Event>)
    decreases |evs|
  {
    |evs| == 0 ||
    ((evs[0].Ended? ==> s.sink.Idle?) && CallbacksWhenIdle(Apply(s, evs[0]), evs[1..]))
  }

  /**
   * What a reader of the state may rely on: a busy player is playing the
   * current song, a playing one has set the presence to playing, and the
   * history is never filled.
   */
  predicate Consistent(s: BotState)
  {
    && (s.sink.Busy() ==> s.current == Loaded(s.sink.track))
    && (s.sink.Playing? ==> s.status == Some(true))
    && s.history == []
  }

  // ---------------------------------------------------------------------
  // Properties of the resolution step

  /** A result with entries is decided by its first entry alone. */
  lemma OnlyFirstEntryUsed(x: Option<Info>, rest1: seq<Option<Info>>, rest2: seq<Option<Info>>, user: string)
    ensures MakeTrack(Entries([x] + rest1), user) == MakeTrack(Entries([x] + rest2), user)
    ensures MakeTrack(Entries([x] + rest1), user) == MakeTrack(Entries([x]), user)
  {
  }

  /** A search that resolves to a song's url and title yields that song, also as the first of several entries. */
  lemma RequestRoundTrip(t: Track, rest: seq<Option<Info>>)
    ensures MakeTrack(Request(t), t.user) == Ok(t)
    ensures MakeTrack(Entries([Some(Request(t).info)] + rest), t.user) == Ok(t)
  {
  }

  /** The failing shapes of an extraction result, each with its error. */
  lemma ResolutionFailures(i: Info, rest: seq<Option<Info>>, user: string)
    ensures MakeTrack(NoResult, user) == Err(ExtractFailed)
    ensures MakeTrack(Entries([]), user) == Err(NoEntries)
    ensures MakeTrack(Entries([None] + rest), user) == Err(NullEntry)
    ensures i.url.None? ==> MakeTrack(Single(i), user) == Err(MissingUrl)
    ensures i.url.Some? && i.title.None? ==> MakeTrack(Single(i), user) == Err(MissingTitle)
  {
  }

  // ---------------------------------------------------------------------
  // Invariants

  lemma InitialConsistent()
    ensures Consistent(Initial)
    ensures Initial.current.Title() == IdleTitle && Initial.current.User() == ""
  {
  }

  lemma AddPreservesConsistent(s: BotState, e: Extracted, user: string, startOk: bool)
    requires Consistent(s)
    ensures Consistent(AddStep(s, e, user, startOk))
  {
  }

  /** The callback keeps the invariant when the player has stopped before it runs. */
  lemma EndedPreservesConsistent(s: BotState, startOk: bool)
    requires Consistent(s) && s.sink.Idle?
    ensures Consistent(EndedStep(s, startOk))
  {
  }

  lemma StopPreservesConsistent(s: BotState, hasVoiceClient: bool)
    requires Consistent(s)
    ensures Consistent(StopStep(s, hasVoiceClient))
  {
  }

  lemma SkipPreservesConsistent(s: BotState, hasVoiceClient: bool)
    requires Consistent(s)
    ensures Consistent(SkipStep(s, hasVoiceClient))
  {
  }

  /** Every run whose callbacks arrive after the player stopped keeps the invariant. */
  lemma {:induction false} RunPreservesConsistent(s: BotState, evs: seq<Event>)
    requires Consistent(s) && CallbacksWhenIdle(s, evs)
    ensures Consistent(Run(s, evs))
    decreases |evs|
  {
    if |evs| > 0 {
      var ev := evs[0];
      match ev {
        case Play(e, user, ok) => AddPreservesConsistent(s, e, user, ok);
        case Ended(ok) => EndedPreservesConsistent(s, ok);
        case Stop(v) => StopPreservesConsistent(s, v);
        case Skip(v) => SkipPreservesConsistent(s, v);
      }
      RunPreservesConsistent(Apply(s, ev), evs[1..]);
    }
  }

  /** No handler writes the history: it is the same after any run. */
  lemma {:induction false} RunKeepsHistory(s: BotState, evs: seq<Event>)
    ensures Run(s, evs).history == s.history
    decreases |evs|
  {
    if |evs| > 0 {
      RunKeepsHistory(Apply(s, evs[0]), evs[1..]);
    }
  }

  /**
   * When the callback instead runs while a track started in the meantime
   * is playing (a skip, then a play request handled before the callback),
   * the current song no longer names what the player plays: with an empty
   * queue it becomes the placeholder, and otherwise the popped head, whose
   * start fails because the player is already playing.
   */
  lemma LateCallbackDesyncs(s: BotState, startOk: bool)
    requires s.sink.Playing?
    ensures |s.queue| == 0 ==> !Consistent(EndedStep(s, startOk))
    ensures |s.queue| > 0 && s.queue[0] != s.sink.track ==> !Consistent(EndedStep(s, startOk))
  {
  }

  // ---------------------------------------------------------------------
  // Queue order

  /** Adds the songs `ts`, in order, each from a search that resolves to it. */
  function AddAll(s: BotState, ts: seq<Track>): BotState
    decreases |ts|
  {
    if |ts| == 0 then s
    else AddAll(AddStep(s, Request(ts[0]), ts[0].user, true), ts[1..])
  }

  /** A skip followed by the callback it fires, with the next song starting. */
  function Advance(s: BotState): BotState
  {
    EndedStep(SkipStep(s, true), true)
  }

  /** The current song after each of `n` successive advances. */
  function Played(s: BotState, n: nat): seq<Current>
    decreases n
  {
    if n == 0 then [] else [Advance(s).current] + Played(Advance(s), n - 1)
  }

  /** While the player is busy, every request goes to the tail of the queue in request order. */
  lemma {:induction false} AddAllAppends(s: BotState, ts: seq<Track>)
    requires s.sink.Busy()
    ensures AddAll(s, ts).queue == s.queue + ts
    ensures AddAll(s, ts).current == s.current && AddAll(s, ts).sink == s.sink
    decreases |ts|
  {
    if |ts| > 0 {
      RequestRoundTrip(ts[0], []);
      var s1 := AddStep(s, Request(ts[0]), ts[0].user, true);
      AddAllAppends(s1, ts[1..]);
      assert s.queue + [ts[0]] + ts[1..] == s.queue + ts;
    }
  }

  /** Successive advances make the queued songs current in queue order. */
  lemma {:induction false} PlayedInQueueOrder(s: BotState, n: nat)
    requires n <= |s.queue|
    ensures |Played(s, n)| == n
    ensures forall k :: 0 <= k < n ==> Played(s, n)[k] == Loaded(s.queue[k])
    decreases n
  {
    if n > 0 {
      var s1 := Advance(s);
      assert s1.queue == s.queue[1..];
      PlayedInQueueOrder(s1, n - 1);
      forall k | 0 <= k < n
        ensures Played(s, n)[k] == Loaded(s.queue[k])
      {
        if k > 0 {
          assert Played(s, n)[k] == Played(s1, n - 1)[k - 1];
        }
      }
    }
  }

  /**
   * The queue is first in, first out: songs requested in order while a
   * track plays become current in that same order.
   */
  lemma Fifo(s: BotState, ts: seq<Track>)
    requires s.sink.Busy()
    ensures |Played(AddAll(s, ts), |s.queue| + |ts|)| == |s.queue| + |ts|
    ensures forall k :: 0 <= k < |ts| ==>
              Played(AddAll(s, ts), |s.queue| + |ts|)[|s.queue| + k] == Loaded(ts[k])
  {
    AddAllAppends(s, ts);
    PlayedInQueueOrder(AddAll(s, ts), |s.queue| + |ts|);
  }

  /** Two songs A then B requested while a track plays are played A then B. */
  lemma FifoTwoSongs(s: BotState, a: Track, b: Track)
    requires s.sink.Busy() && s.queue == []
    ensures Advance(AddStep(AddStep(s, Request(a), a.user, true), Request(b), b.user, true)).current == Loaded(a)
    ensures Advance(Advance(AddStep(AddStep(s, Request(a), a.user, true), Request(b), b.user, true))).current == Loaded(b)
  {
  }

  // ---------------------------------------------------------------------
  // stop and skip

  /**
   * Stopping twice is the same as stopping once, whether or not the second
   * stop still finds the voice client the first one disconnected.
   */
  lemma StopIdempotent(s: BotState, first: bool, second: bool)
    ensures StopStep(StopStep(s, first), second) == StopStep(s, first || second)
    ensures StopStep(StopStep(s, first), first) == StopStep(s, first)
    ensures StopStep(StopStep(s, true), false) == StopStep(s, true)
  {
  }

  /**
   * After a stop with a voice client, the callback of the stopped player
   * finds the queue empty: the placeholder becomes current and the presence idle.
   */
  lemma StopThenCallback(s: BotState, startOk: bool)
    ensures EndedStep(StopStep(s, true), startOk)
              == s.(queue := [], current := Placeholder, sink := Idle, status := Some(false))
  {
  }

  /** A skip hands the queue's head to the callback it fires; the rest of the queue waits. */
  lemma SkipThenCallback(s: BotState, startOk: bool)
    requires |s.queue| > 0
    ensures EndedStep(SkipStep(s, true), startOk).current == Loaded(s.queue[0])
    ensures EndedStep(SkipStep(s, true), startOk).queue == s.queue[1..]
    ensures startOk ==> EndedStep(SkipStep(s, true), startOk).sink == Playing(s.queue[0])
  {
  }
}
