# Music queue of a Discord bot, in Dafny

The bot plays songs in a voice channel. Its music state is three module-level
globals in `bot.py`:
- `queue`, a FIFO list of song records `{url, title, user}`;
- `current_song`, either such a record or the placeholder
  `{"title": "Nekas neskan", "user": ""}`;
- `history`, which nothing ever writes.

Three handlers change that state:
- `add_to_queue_internal` handles a play request. It resolves the search and
  takes the first entry of a result with entries. If the voice player is busy,
  the song goes to the tail of the queue. Otherwise the song becomes current
  and starts playing.
- `check_queue_internal` is the player's after-callback. It pops the queue's
  head into `current_song` and plays it. On an empty queue it falls back to
  the placeholder.
- The `stop` command clears the queue and disconnects. The `skip` command only
  stops the player, which fires the callback.

This model has two parts:
- `music_queue.dfy` (module `MusicQueue`) holds the state as a value
  (`BotState`) and one step function per handler, with the lemmas about them:
  how a search result resolves, the invariant the handlers keep, FIFO order,
  and what stop and skip do.
- `bot.dfy` (module `Bot`) holds the class `Session`. It has the globals as
  fields, plus the player's state and the last presence flag. Each of its
  methods updates the fields in place and is proved to perform the matching
  step.

Design decisions:
- The player (`voice`) is an abstract sink: `Idle`, `Playing(t)` or
  `Paused(t)`, where `t` is the track it was started on.
- Whether building the audio source and calling `voice.play` succeed is the
  parameter `startOk`. In the callback, `voice.play` also fails whatever
  `startOk` says when the player is already playing (`StartsHead`).
- Whether the command's context has a voice client is the parameter
  `hasVoiceClient`.
- `update_bot_status` is kept only as its boolean argument, in `status`.
  `status` is `None` until the first call.

The invariant `Consistent` has three parts:
- a busy player plays the current song;
- a playing player has set the presence to playing;
- the history is empty.

Every handler keeps `Consistent`. The callback keeps it only if it runs after
the player has stopped, which is how discord.py delivers it.
`LateCallbackDesyncs` shows what happens when the callback arrives late: a
`skip`, then a play request handled before the skip's callback. That callback
then overwrites `current_song` while a different track is playing.

What the code does, and the model with it, in places where one might expect otherwise:
- The code keeps no bounded, prepended play history. `history` stays `[]`.
- State is one global, not one per guild.
- A failed start leaves the new song in `current_song`.
- There are no pause or resume commands. The `Paused` sink state is kept
  because line 146 tests `voice.is_paused()`.

## Model

| member | source | states |
|---|---|---|
| MusicQueue.MakeTrack | bot.py:141-144 | a song is built exactly when the chosen info dict (the result itself, or entry 0 of a result with entries) has both url and title; it carries those and the requesting user; otherwise an error |
| MusicQueue.OnlyFirstEntryUsed | bot.py:142 | only `entries[0]` matters: the rest of the entries list never changes the outcome |
| MusicQueue.RequestRoundTrip | bot.py:142-144 | a search resolving to a song's url and title (alone or as first entry) yields exactly that song for its user |
| MusicQueue.ResolutionFailures | bot.py:141-144 | no result, an empty entries list, a None first entry, a missing url and a missing title each fail, with their own error |
| MusicQueue.AddStep | bot.py:137-153 | failed resolution leaves the state unchanged; a busy player gets the song appended at the queue's tail with current song, player and presence unchanged; an idle one gets it as current song with the queue unchanged, playing and presence true when the start succeeds, and the song still current when it fails |
| MusicQueue.EndedStep | bot.py:155-164 | with a non-empty queue the old head becomes current and the queue is the old tail, playing with presence true when the start succeeds, which it never does on a player that is already playing; with an empty queue the current song is the placeholder "Nekas neskan" with user "" and presence false; history untouched |
| MusicQueue.StopStep | bot.py:117-123 | the queue is emptied unconditionally, the current song is not assigned; the player is stopped and presence set false only with a voice client |
| MusicQueue.SkipStep | bot.py:111-115 | skip leaves queue, current song, presence and history alone and only stops the player when there is a voice client |
| MusicQueue.InitialConsistent | bot.py:25-27 | the start-up state (empty queue, placeholder song, empty history) satisfies the invariant |
| MusicQueue.AddPreservesConsistent | bot.py:144-152 | a play request keeps the invariant |
| MusicQueue.EndedPreservesConsistent | bot.py:155-164 | the callback keeps the invariant when the player has stopped before it runs |
| MusicQueue.StopPreservesConsistent | bot.py:118-122 | stop keeps the invariant |
| MusicQueue.SkipPreservesConsistent | bot.py:112-114 | skip keeps the invariant |
| MusicQueue.RunPreservesConsistent | bot.py:137-164 | any sequence of play requests, callbacks, stops and skips, whose callbacks find the player stopped, keeps the invariant |
| MusicQueue.RunKeepsHistory | bot.py:27 | no sequence of handler events ever changes `history` |
| MusicQueue.LateCallbackDesyncs | bot.py:157-164 | a callback that runs while a track is already playing breaks the invariant: the placeholder, or a popped head that cannot start, becomes current while another track plays, whatever the outcome of building the audio source |
| MusicQueue.AddAllAppends | bot.py:146-147 | while the player is busy, successive requests append their songs to the queue in request order, leaving current song and player alone |
| MusicQueue.PlayedInQueueOrder | bot.py:157-158 | successive skip-and-callback steps make the queued songs current one by one in queue order |
| MusicQueue.Fifo | bot.py:146-158 | songs requested in order while a track plays become current in that order, after the songs already queued |
| MusicQueue.FifoTwoSongs | bot.py:147-158 | songs A then B requested while a track plays become current A, then B |
| MusicQueue.StopIdempotent | bot.py:118-122 | two stops equal one stop with either voice-client flag, so stopping twice, including a second stop that finds the voice client already gone, has the same effect as stopping once |
| MusicQueue.StopThenCallback | bot.py:118-122 | after a stop with a voice client, the stopped player's callback finds the queue empty and sets the placeholder with presence false |
| MusicQueue.SkipThenCallback | bot.py:113-114 | a skip's only effect on the queue comes through its callback, which makes the head current and leaves the tail queued |
| Bot.Session.constructor | bot.py:25-27 | the globals start as an empty queue, the placeholder song and an empty history |
| Bot.Session.AddToQueue | bot.py:137-153 | updates the fields exactly as AddStep, reports the printed error (resolution failure, or failed start) and keeps the invariant |
| Bot.Session.OnPlaybackEnded | bot.py:155-164 | updates the fields exactly as EndedStep, reports a failed start of the popped head (including a start refused by a player already playing), and keeps the invariant when the player had stopped |
| Bot.Session.Stop | bot.py:117-123 | updates the fields exactly as StopStep and keeps the invariant |
| Bot.Session.Skip | bot.py:111-115 | updates the fields exactly as SkipStep and keeps the invariant |
| Bot.PlayInRequestOrder | bot.py:146-160 | on a session object, two songs requested during playback become current in request order on two skips |

## Left out

- Web routes (`/`, `/now_playing`, `/get_online_users`, `/get_lyrics`): HTTP I/O. `/now_playing` only reads `current_song` and `history`, whose values the model states.
- AI chat and lyrics: an external text-generation service.
- The `salvis` and `raitis` commands: they only send files.
- Search extraction and building the FFmpeg audio source: library calls. They become the `Extracted` input and the `startOk` flag.
- Joining the voice channel and the check that the author is in one, done by the `play` command: Discord I/O.
- Running extraction in an executor, the event loop, and the web server's thread: concurrency. Each handler is one atomic step, and a callback is an explicit event.
- The presence text and `change_presence`: only the boolean argument of `update_bot_status` is kept. Its swallowed exception cannot change the state.
- The tracks themselves running out: the model has no separate event for a track ending on its own. `SkipStep` with a voice client has the same effect on the player, setting it `Idle` before the callback.
