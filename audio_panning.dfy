/** The native stereo player of modules/AudioPanning/AudioEngine.swift.

    `AudioEngine` plays one file panned hard left or hard right and settles the
    JavaScript promise of the latest `playFile` call when playback ends.  The
    AVFoundation objects it drives are abstract state here: the shared audio
    session is a category and an `active` flag, the player is a record of its
    URL, pan and prepared/playing flags, and the promise blocks are replaced by
    a log of the resolve and reject calls the engine makes.  Every call into
    AVFoundation that can fail is decided by a parameter.

    The behaviour is written twice: once as functions on an `EngineState` value
    (`PlayFileStep`, `StopStep`, ...), which the trace lemmas reason about, and
    once as the class `AudioEngine`, whose methods change their fields step by
    step as the Swift code does and are proved to end in the state the
    corresponding function gives. */
module AudioPanning {
  import opened Wrappers

  /** Identifies the resolve/reject block pair handed to one `playFile` call. */
  type PromiseId = nat

  const ErrInvalidUrl := "ERROR_INVALID_URL"
  const ErrPlayerNotPrepared := "ERROR_PLAYER_NOT_PREPARED"
  const ErrPlaybackFailed := "ERROR_PLAYBACK_FAILED"
  const ErrPlaybackIncomplete := "ERROR_PLAYBACK_INCOMPLETE"
  const ErrDecode := "ERROR_DECODE"

  /** The two categories of `AVAudioSession` the engine uses. */
  datatype Category = Playback | PlayAndRecord

  datatype Session = Session(category: Category, active: bool)

  /** The configuration `resetAudioSession` aims for: recording allowed, session released. */
  const RecordReady := Session(PlayAndRecord, false)

  /** An `AVAudioPlayer`, reduced to what the engine sets and reads. `pan` is
      -1 for hard left, +1 for hard right and 0 for a player not yet panned. */
  datatype Player = Player(url: string, pan: int, prepared: bool, playing: bool)

  /** One call of a stored promise block: `resolve(nil)` or `reject(code, message, error)`. */
  datatype Settlement =
    | Resolved(promise: PromiseId)
    | Rejected(promise: PromiseId, code: string, message: string)

  /** The `NSError` a decode-error callback may carry. */
  datatype ErrorInfo = ErrorInfo(domain: string, description: string)

  /** How the fallible part of `playFile` goes: the first step that fails, or
      `Prepared` when `URL(string:)`, both session calls and the player's
      initialiser succeed and `prepareToPlay()` returns true. */
  datatype SetupOutcome =
    | UrlRejected
    | SetCategoryThrows
    | SetActiveThrows
    | PlayerInitThrows
    | PrepareFails
    | Prepared

  /** How `resetAudioSession` goes: both calls succeed, `setCategory` throws
      (nothing changes), or `setActive(false)` throws after the category was set. */
  datatype ResetOutcome = ResetOk | SetCategoryFails | SetInactiveFails

  /** Everything the engine can change or observe. */
  datatype EngineState = EngineState(
    player: Option<Player>,
    resolver: Option<PromiseId>,
    rejecter: Option<PromiseId>,
    session: Session,
    log: seq<Settlement>)

  /** The pan `playFile` gives a player for a side string. */
  function PanFor(side: string): (pan: int)
    ensures pan == -1 || pan == 1
    ensures pan == -1 <==> side == "left"
  {
    if side == "left" then -1 else 1
  }

  /** `player?.stop()`: playback stops and the preparation is undone. */
  function StopPlayer(player: Option<Player>): (r: Option<Player>)
    ensures r.Some? <==> player.Some?
    ensures r.Some? ==> !r.value.playing && r.value.url == player.value.url && r.value.pan == player.value.pan
  {
    match player
    case None => None
    case Some(p) => Some(p.(prepared := false, playing := false))
  }

  /** The session after `resetAudioSession`, which swallows its own errors. */
  function ResetSession(s: Session, outcome: ResetOutcome): (r: Session)
    ensures outcome == ResetOk ==> r == RecordReady
    ensures r.category == (if outcome == SetCategoryFails then s.category else PlayAndRecord)
    ensures r.active == (if outcome == ResetOk then false else s.active)
  {
    match outcome
    case ResetOk => RecordReady
    case SetCategoryFails => s
    case SetInactiveFails => s.(category := PlayAndRecord)
  }

  /** `promiseResolver?(nil)`: a resolve when a resolver is stored, nothing otherwise. */
  function CallResolver(resolver: Option<PromiseId>): (calls: seq<Settlement>)
    ensures |calls| == (if resolver.Some? then 1 else 0)
    ensures forall c | c in calls :: c == Resolved(resolver.value)
  {
    match resolver
    case None => []
    case Some(p) => [Resolved(p)]
  }

  /** `promiseRejecter?(code, message, error)`. */
  function CallRejecter(rejecter: Option<PromiseId>, code: string, message: string): (calls: seq<Settlement>)
    ensures |calls| == (if rejecter.Some? then 1 else 0)
    ensures forall c | c in calls :: c == Rejected(rejecter.value, code, message)
  {
    match rejecter
    case None => []
    case Some(p) => [Rejected(p, code, message)]
  }

  /** `playFile(atPath:side:resolver:rejecter:)` (AudioEngine.swift:20-57). */
  function PlayFileStep(st: EngineState, path: string, side: string, promise: PromiseId, outcome: SetupOutcome): (r: EngineState)
    // the new blocks are stored before anything can fail
    ensures r.resolver == Some(promise) && r.rejecter == Some(promise)
    // the call rejects its own promise at once exactly when setup does not
    // reach play(), with the code and message of the step that failed
    ensures outcome.Prepared? ==> r.log == st.log
    ensures outcome.UrlRejected? ==> r.log == st.log + [Rejected(promise, ErrInvalidUrl, "Invalid file URL")]
    ensures outcome.SetCategoryThrows? || outcome.SetActiveThrows? || outcome.PlayerInitThrows? ==>
      r.log == st.log + [Rejected(promise, ErrPlaybackFailed, "Failed to initialize player")]
    ensures outcome.PrepareFails? ==> r.log == st.log + [Rejected(promise, ErrPlayerNotPrepared, "Player not prepared")]
    // an unparseable path leaves the player and the session alone
    ensures outcome == UrlRejected ==> r.player == st.player && r.session == st.session
    // past the URL check, playback is running afterwards exactly when setup succeeded
    ensures outcome != UrlRejected ==> ((r.player.Some? && r.player.value.playing) <==> outcome == Prepared)
  {
    var stored := st.(resolver := Some(promise), rejecter := Some(promise));
    if outcome == UrlRejected then
      stored.(log := stored.log + [Rejected(promise, ErrInvalidUrl, "Invalid file URL")])
    else
      var stopped := stored.(player := StopPlayer(stored.player));
      var failed := Rejected(promise, ErrPlaybackFailed, "Failed to initialize player");
      if outcome == SetCategoryThrows then
        stopped.(log := stopped.log + [failed])
      else
        var categorised := stopped.(session := stopped.session.(category := Playback));
        if outcome == SetActiveThrows then
          categorised.(log := categorised.log + [failed])
        else
          var activated := categorised.(session := categorised.session.(active := true));
          if outcome == PlayerInitThrows then
            activated.(log := activated.log + [failed])
          else
            var created := activated.(player := Some(Player(path, PanFor(side), false, false)));
            if outcome == PrepareFails then
              created.(log := created.log + [Rejected(promise, ErrPlayerNotPrepared, "Player not prepared")])
            else
              created.(player := Some(created.player.value.(prepared := true, playing := true)))
  }

  /** The order of the setup steps, read off where each one can fail: the
      running player is stopped before the session is touched, the session
      takes the playback category and is activated before the new player is
      made, and the new player is panned before it is prepared. */
  lemma PlayFileSetupOrder(st: EngineState, path: string, side: string, promise: PromiseId)
    ensures PlayFileStep(st, path, side, promise, SetCategoryThrows).player == StopPlayer(st.player)
    ensures PlayFileStep(st, path, side, promise, SetCategoryThrows).session == st.session
    ensures PlayFileStep(st, path, side, promise, SetActiveThrows).player == StopPlayer(st.player)
    ensures PlayFileStep(st, path, side, promise, SetActiveThrows).session == Session(Playback, st.session.active)
    ensures PlayFileStep(st, path, side, promise, PlayerInitThrows).player == StopPlayer(st.player)
    ensures PlayFileStep(st, path, side, promise, PlayerInitThrows).session == Session(Playback, true)
    ensures PlayFileStep(st, path, side, promise, PrepareFails).player == Some(Player(path, PanFor(side), false, false))
    ensures PlayFileStep(st, path, side, promise, PrepareFails).session == Session(Playback, true)
    ensures PlayFileStep(st, path, side, promise, Prepared).player == Some(Player(path, PanFor(side), true, true))
    ensures PlayFileStep(st, path, side, promise, Prepared).session == Session(Playback, true)
  {
  }

  /** `player?.isPlaying`: nil when there is no player. */
  function PlayingChain(player: Option<Player>): (r: Option<bool>)
    ensures r.Some? <==> player.Some?
    ensures r.Some? ==> r.value == player.value.playing
  {
    match player
    case None => None
    case Some(p) => Some(p.playing)
  }

  /** `player?.isPlaying == true` (AudioEngine.swift:61): a missing player
      counts as not playing. */
  predicate IsPlaying(st: EngineState): (b: bool)
    ensures b <==> st.player.Some? && st.player.value.playing
  {
    PlayingChain(st.player) == Some(true)
  }

  /** `stop()` (AudioEngine.swift:60-67): acts only while the player is playing. */
  function StopStep(st: EngineState, reset: ResetOutcome): (r: EngineState)
    ensures !IsPlaying(st) ==> r == st
    ensures IsPlaying(st) ==>
      && r.player == StopPlayer(st.player)
      && r.session == ResetSession(st.session, reset)
      && r.log == st.log + CallResolver(st.resolver)
      && r.resolver == st.resolver && r.rejecter == st.rejecter
  {
    if IsPlaying(st) then
      st.(player := StopPlayer(st.player),
          session := ResetSession(st.session, reset),
          log := st.log + CallResolver(st.resolver))
    else
      st
  }

  /** `audioPlayerDidFinishPlaying(_:successfully:)` (AudioEngine.swift:71-79):
      the session is reset first, then the promise is resolved when `flag`
      holds and rejected otherwise. */
  function DidFinishStep(st: EngineState, flag: bool, reset: ResetOutcome): (r: EngineState)
    ensures r.player == st.player && r.resolver == st.resolver && r.rejecter == st.rejecter
    ensures r.session == ResetSession(st.session, reset)
    ensures flag ==> r.log == st.log + CallResolver(st.resolver)
    ensures !flag ==> r.log == st.log + CallRejecter(st.rejecter, ErrPlaybackIncomplete, "Playback incomplete")
  {
    var reset := st.(session := ResetSession(st.session, reset));
    if flag then
      reset.(log := reset.log + CallResolver(reset.resolver))
    else
      reset.(log := reset.log + CallRejecter(reset.rejecter, ErrPlaybackIncomplete, "Playback incomplete"))
  }

  /** The code a decode-error rejection carries: the error's domain, or `ERROR_DECODE`. */
  function DecodeErrorCode(error: Option<ErrorInfo>): (code: string)
    ensures error.Some? ==> code == error.value.domain
    ensures error.None? ==> code == ErrDecode
  {
    match error
    case Some(e) => e.domain
    case None => ErrDecode
  }

  /** The message a decode-error rejection carries. */
  function DecodeErrorMessage(error: Option<ErrorInfo>): (message: string)
    ensures error.Some? ==> message == error.value.description
    ensures error.None? ==> message == "Audio decode error"
  {
    match error
    case Some(e) => e.description
    case None => "Audio decode error"
  }

  /** `audioPlayerDecodeErrorDidOccur(_:error:)` (AudioEngine.swift:81-85). */
  function DecodeErrorStep(st: EngineState, error: Option<ErrorInfo>, reset: ResetOutcome): (r: EngineState)
    ensures r.player == st.player && r.resolver == st.resolver && r.rejecter == st.rejecter
    ensures r.session == ResetSession(st.session, reset)
    ensures r.log == st.log + CallRejecter(st.rejecter, DecodeErrorCode(error), DecodeErrorMessage(error))
  {
    st.(session := ResetSession(st.session, reset),
        log := st.log + CallRejecter(st.rejecter, DecodeErrorCode(error), DecodeErrorMessage(error)))
  }

  /** AVFoundation ends the playback of the current player, at the end of the
      file or on a decode error, before it calls the delegate: the player is no
      longer playing and nothing else changes. */
  function Halt(st: EngineState): (r: EngineState)
    ensures !IsPlaying(r)
    ensures r.player.Some? <==> st.player.Some?
    ensures r.player.Some? ==> r.player.value == st.player.value.(playing := false)
    ensures r.resolver == st.resolver && r.rejecter == st.rejecter && r.session == st.session && r.log == st.log
  {
    match st.player
    case None => st
    case Some(p) => st.(player := Some(p.(playing := false)))
  }

  /** `AVAudioSession.sharedInstance()`: one session shared by everything in the app. */
  class AudioSession {
    var category: Category
    var active: bool

    constructor (category: Category, active: bool)
      ensures this.category == category && this.active == active
    {
      this.category := category;
      this.active := active;
    }

    function Value(): Session
      reads this
    {
      Session(category, active)
    }
  }

  class AudioEngine {
    var player: Option<Player>
    var promiseResolver: Option<PromiseId>
    var promiseRejecter: Option<PromiseId>
    /** The calls made so far to the stored resolve and reject blocks. */
    var settlements: seq<Settlement>
    const audioSession: AudioSession

    function State(): EngineState
      reads this, audioSession
    {
      EngineState(player, promiseResolver, promiseRejecter, audioSession.Value(), settlements)
    }

    /** `AudioEngine.create()`: no player and no promise yet; the shared session is left as it is. */
    constructor (audioSession: AudioSession)
      ensures this.audioSession == audioSession
      ensures State() == EngineState(None, None, None, old(audioSession.Value()), [])
    {
      this.audioSession := audioSession;
      player := None;
      promiseResolver := None;
      promiseRejecter := None;
      settlements := [];
    }

    method Reject(promise: PromiseId, code: string, message: string)
      modifies this`settlements
      ensures settlements == old(settlements) + [Rejected(promise, code, message)]
    {
      settlements := settlements + [Rejected(promise, code, message)];
    }

    method PlayFile(path: string, side: string, promise: PromiseId, outcome: SetupOutcome)
      modifies this, audioSession
      ensures State() == PlayFileStep(old(State()), path, side, promise, outcome)
    {
      promiseResolver := Some(promise);
      promiseRejecter := Some(promise);

      if outcome == UrlRejected {
        Reject(promise, ErrInvalidUrl, "Invalid file URL");
        return;
      }

      if player.Some? {
        player := Some(player.value.(prepared := false, playing := false));
      }

      if outcome == SetCategoryThrows {
        Reject(promise, ErrPlaybackFailed, "Failed to initialize player");
        return;
      }
      audioSession.category := Playback;
      if outcome == SetActiveThrows {
        Reject(promise, ErrPlaybackFailed, "Failed to initialize player");
        return;
      }
      audioSession.active := true;

      if outcome == PlayerInitThrows {
        Reject(promise, ErrPlaybackFailed, "Failed to initialize player");
        return;
      }
      player := Some(Player(path, 0, false, false));

      if side == "left" {
        player := Some(player.value.(pan := -1));
      } else {
        player := Some(player.value.(pan := 1));
      }

      if outcome == PrepareFails {
        Reject(promise, ErrPlayerNotPrepared, "Player not prepared");
      } else {
        player := Some(player.value.(prepared := true));
        player := Some(player.value.(playing := true));
      }
    }

    method Stop(reset: ResetOutcome)
      modifies this, audioSession
      ensures State() == StopStep(old(State()), reset)
    {
      if player.Some? && player.value.playing {
        player := Some(player.value.(prepared := false, playing := false));
        ResetAudioSession(reset);
        if promiseResolver.Some? {
          settlements := settlements + [Resolved(promiseResolver.value)];
        }
      }
    }

    /** AVFoundation ends the playing player's playback, which `Halt` stands
        for, and then calls the delegate once; a stopped player, or one that
        never played, gets no callback. */
    method AudioPlayerDidFinishPlaying(flag: bool, reset: ResetOutcome)
      requires IsPlaying(State())
      modifies this, audioSession
      ensures State() == DidFinishStep(Halt(old(State())), flag, reset)
    {
      player := Some(player.value.(playing := false));
      ResetAudioSession(reset);
      if flag {
        if promiseResolver.Some? {
          settlements := settlements + [Resolved(promiseResolver.value)];
        }
      } else if promiseRejecter.Some? {
        Reject(promiseRejecter.value, ErrPlaybackIncomplete, "Playback incomplete");
      }
    }

    /** As for `AudioPlayerDidFinishPlaying`: playback halts, then the delegate runs. */
    method AudioPlayerDecodeErrorDidOccur(error: Option<ErrorInfo>, reset: ResetOutcome)
      requires IsPlaying(State())
      modifies this, audioSession
      ensures State() == DecodeErrorStep(Halt(old(State())), error, reset)
    {
      player := Some(player.value.(playing := false));
      ResetAudioSession(reset);
      if promiseRejecter.Some? {
        var code := if error.Some? then error.value.domain else ErrDecode;
        var message := if error.Some? then error.value.description else "Audio decode error";
        Reject(promiseRejecter.value, code, message);
      }
    }

    method ResetAudioSession(reset: ResetOutcome)
      modifies audioSession
      ensures audioSession.Value() == ResetSession(old(audioSession.Value()), reset)
    {
      if reset == SetCategoryFails {
        return;
      }
      audioSession.category := PlayAndRecord;
      if reset == SetInactiveFails {
        return;
      }
      audioSession.active := false;
    }
  }

  /** A playback that ends, followed by a `stop()` from JavaScript: the call
      is settled once, as the player's flag says, because the finished player
      is no longer playing and `stop()` then does nothing. */
  method FinishThenStop(initial: Session, path: string, side: string, p: PromiseId, flag: bool)
    returns (log: seq<Settlement>, session: Session)
    ensures log == [if flag then Resolved(p) else Rejected(p, ErrPlaybackIncomplete, "Playback incomplete")]
    ensures session == RecordReady
  {
    var shared := new AudioSession(initial.category, initial.active);
    var engine := new AudioEngine(shared);
    engine.PlayFile(path, side, p, Prepared);
    engine.AudioPlayerDidFinishPlaying(flag, ResetOk);
    engine.Stop(ResetOk);
    log := engine.settlements;
    session := shared.Value();
  }
}
