/** Sequences of calls and callbacks on `AudioEngine`, and what they do to the
    promises and the shared audio session over time.

    An event is a `playFile` or `stop()` call from JavaScript, or one of the two
    delegate callbacks.  AVFoundation calls the delegate only for a player that
    is playing, and that player is no longer playing by the time the callback
    runs; `Enabled` and `AudioPanning.Halt` say so. */
module PlaybackTraces {
  import opened Wrappers
  import opened AudioPanning

  datatype Event =
    | Play(path: string, side: string, promise: PromiseId, outcome: SetupOutcome)
    | StopCalled(reset: ResetOutcome)
    | Finished(flag: bool, reset: ResetOutcome)
    | DecodeFailed(error: Option<ErrorInfo>, reset: ResetOutcome)

  /** Delegate callbacks arrive only while a player is playing. */
  predicate Enabled(st: EngineState, ev: Event): (b: bool)
    ensures ev.Play? || ev.StopCalled? ==> b
    ensures ev.Finished? || ev.DecodeFailed? ==> (b <==> IsPlaying(st))
  {
    (ev.Finished? || ev.DecodeFailed?) ==> IsPlaying(st)
  }

  function Step(st: EngineState, ev: Event): (r: EngineState)
    // every event makes at most one call of a stored block, and never erases one
    ensures st.log <= r.log && |r.log| <= |st.log| + 1
  {
    match ev
    case Play(path, side, promise, outcome) => PlayFileStep(st, path, side, promise, outcome)
    case StopCalled(reset) => StopStep(st, reset)
    case Finished(flag, reset) => DidFinishStep(Halt(st), flag, reset)
    case DecodeFailed(error, reset) => DecodeErrorStep(Halt(st), error, reset)
  }

  function Run(st: EngineState, events: seq<Event>): (r: EngineState)
    // the log of block calls only grows
    ensures st.log <= r.log
    decreases |events|
  {
    if events == [] then st else Run(Step(st, events[0]), events[1..])
  }

  /** Every event of `events` is enabled in the state it arrives in. */
  predicate ValidTrace(st: EngineState, events: seq<Event>)
    decreases |events|
  {
    events == [] || (Enabled(st, events[0]) && ValidTrace(Step(st, events[0]), events[1..]))
  }

  predicate NoPlay(events: seq<Event>) {
    forall i | 0 <= i < |events| :: !events[i].Play?
  }

  /** The settlements made after the first `n` entries of `log` are all for `p`. */
  predicate SettledOnlyAfter(log: seq<Settlement>, n: nat, p: PromiseId) {
    forall i | n <= i < |log| :: log[i].promise == p
  }

  /** Until the next `playFile`, every callback and `stop()` settles the promise
      of the most recent `playFile` call, because that call stored its blocks
      before doing anything else. */
  lemma {:induction false} SettlesOnlyMostRecent(st: EngineState, p: PromiseId, events: seq<Event>)
    requires st.resolver == Some(p) && st.rejecter == Some(p)
    requires NoPlay(events)
    ensures Run(st, events).resolver == Some(p) && Run(st, events).rejecter == Some(p)
    ensures SettledOnlyAfter(Run(st, events).log, |st.log|, p)
    decreases |events|
  {
    if events != [] {
      var next := Step(st, events[0]);
      assert !events[0].Play?;
      assert forall i | |st.log| <= i < |next.log| :: next.log[i].promise == p;
      assert NoPlay(events[1..]) by {
        forall i | 0 <= i < |events[1..]| ensures !events[1..][i].Play? {
          assert events[1..][i] == events[i + 1];
        }
      }
      SettlesOnlyMostRecent(next, p, events[1..]);
    }
  }

  /** A call still waiting for its playback when a new `playFile` arrives is
      never settled afterwards, as long as no further `playFile` is made: the
      new call took over the stored blocks. */
  lemma SupersededCallNeverSettled(st: EngineState, path: string, side: string, q: PromiseId,
                                   outcome: SetupOutcome, events: seq<Event>, p: PromiseId)
    requires p != q
    requires NoPlay(events)
    ensures forall i | |st.log| <= i < |Run(PlayFileStep(st, path, side, q, outcome), events).log| ::
      Run(PlayFileStep(st, path, side, q, outcome), events).log[i].promise != p
  {
    var started := PlayFileStep(st, path, side, q, outcome);
    SettlesOnlyMostRecent(started, q, events);
  }

  /** With no player playing and no `playFile`, nothing can happen: `stop()`
      does nothing and no callback arrives. */
  lemma {:induction false} InertWithoutPlayback(st: EngineState, events: seq<Event>)
    requires !IsPlaying(st)
    requires NoPlay(events) && ValidTrace(st, events)
    ensures Run(st, events) == st
    decreases |events|
  {
    if events != [] {
      assert !events[0].Play?;
      assert Step(st, events[0]) == st;
      assert NoPlay(events[1..]) by {
        forall i | 0 <= i < |events[1..]| ensures !events[1..][i].Play? {
          assert events[1..][i] == events[i + 1];
        }
      }
      InertWithoutPlayback(st, events[1..]);
    }
  }

  /** The session is not handed back on the failure paths past the session
      calls: when `setActive(true)`, the player's initialiser or
      `prepareToPlay()` fails, the call is rejected with the session still in
      the playback category, and nothing short of another `playFile` ever
      resets it, since no player is playing. */
  lemma {:induction false} SetupFailureStrandsPlaybackCategory(st: EngineState, path: string, side: string, p: PromiseId,
                                                            outcome: SetupOutcome, events: seq<Event>)
    requires outcome == SetActiveThrows || outcome == PlayerInitThrows || outcome == PrepareFails
    requires NoPlay(events) && ValidTrace(PlayFileStep(st, path, side, p, outcome), events)
    ensures Run(PlayFileStep(st, path, side, p, outcome), events).session.category == Playback
    ensures outcome != SetActiveThrows ==> Run(PlayFileStep(st, path, side, p, outcome), events).session == Session(Playback, true)
    ensures Run(PlayFileStep(st, path, side, p, outcome), events).log ==
      st.log + [Rejected(p, if outcome == PrepareFails then ErrPlayerNotPrepared else ErrPlaybackFailed,
                            if outcome == PrepareFails then "Player not prepared" else "Failed to initialize player")]
  {
    InertWithoutPlayback(PlayFileStep(st, path, side, p, outcome), events);
  }

  /** Whichever way a running playback ends (its end, a decode error, or
      `stop()`), the stored call is settled exactly once, the player stops and
      the session goes through `resetAudioSession`. */
  lemma PlaybackEndSettlesOnce(st: EngineState, p: PromiseId, ev: Event)
    requires IsPlaying(st) && st.resolver == Some(p) && st.rejecter == Some(p)
    requires ev.Finished? || ev.DecodeFailed? || ev.StopCalled?
    ensures Enabled(st, ev)
    ensures Step(st, ev).log == st.log + [Step(st, ev).log[|st.log|]] && Step(st, ev).log[|st.log|].promise == p
    ensures ev.Finished? ==>
      Step(st, ev).log[|st.log|] == (if ev.flag then Resolved(p) else Rejected(p, ErrPlaybackIncomplete, "Playback incomplete"))
    ensures ev.DecodeFailed? ==>
      Step(st, ev).log[|st.log|] == Rejected(p, DecodeErrorCode(ev.error), DecodeErrorMessage(ev.error))
    ensures ev.StopCalled? ==> Step(st, ev).log[|st.log|] == Resolved(p)
    ensures Step(st, ev).session == ResetSession(st.session, ev.reset)
    ensures !IsPlaying(Step(st, ev))
  {
  }

  /** Once a running playback has ended, its call has been settled for the
      last time: until the next `playFile`, nothing adds to the log. */
  lemma EndedPlaybackSettledExactlyOnce(st: EngineState, p: PromiseId, ev: Event, rest: seq<Event>)
    requires IsPlaying(st) && st.resolver == Some(p) && st.rejecter == Some(p)
    requires ev.Finished? || ev.DecodeFailed? || ev.StopCalled?
    requires NoPlay(rest) && ValidTrace(Step(st, ev), rest)
    ensures ValidTrace(st, [ev] + rest)
    ensures Run(st, [ev] + rest).log == st.log + [Step(st, ev).log[|st.log|]]
    ensures Run(st, [ev] + rest).log[|st.log|].promise == p
  {
    PlaybackEndSettlesOnce(st, p, ev);
    assert ([ev] + rest)[1..] == rest;
    InertWithoutPlayback(Step(st, ev), rest);
  }

  /** A playback that runs to its end settles its call exactly once and leaves
      the session ready to record, when the reset succeeds: resolved when the
      player reports success, rejected with `ERROR_PLAYBACK_INCOMPLETE` otherwise. */
  lemma CompletedPlaybackSettlesOnceAndResets(st: EngineState, path: string, side: string, p: PromiseId, flag: bool)
    ensures ValidTrace(st, [Play(path, side, p, Prepared), Finished(flag, ResetOk)])
    ensures Run(st, [Play(path, side, p, Prepared), Finished(flag, ResetOk)]).session == RecordReady
    ensures Run(st, [Play(path, side, p, Prepared), Finished(flag, ResetOk)]).log ==
      st.log + [if flag then Resolved(p) else Rejected(p, ErrPlaybackIncomplete, "Playback incomplete")]
  {
    var events := [Play(path, side, p, Prepared), Finished(flag, ResetOk)];
    var started := PlayFileStep(st, path, side, p, Prepared);
    var finished := DidFinishStep(Halt(started), flag, ResetOk);
    assert events[1..] == [Finished(flag, ResetOk)];
    assert events[1..][1..] == [];
    assert Run(started, events[1..]) == Run(finished, []);
    assert ValidTrace(started, events[1..]);
  }

  /** Stopping a running playback from JavaScript stops the player, resets
      the session and resolves the call; a second `stop()` does nothing more. */
  lemma StopResolvesOnce(st: EngineState, path: string, side: string, p: PromiseId)
    ensures Run(st, [Play(path, side, p, Prepared), StopCalled(ResetOk), StopCalled(ResetOk)]).session == RecordReady
    ensures Run(st, [Play(path, side, p, Prepared), StopCalled(ResetOk), StopCalled(ResetOk)]).log == st.log + [Resolved(p)]
    ensures !IsPlaying(Run(st, [Play(path, side, p, Prepared), StopCalled(ResetOk), StopCalled(ResetOk)]))
  {
    var events := [Play(path, side, p, Prepared), StopCalled(ResetOk), StopCalled(ResetOk)];
    var started := PlayFileStep(st, path, side, p, Prepared);
    var stopped := StopStep(started, ResetOk);
    assert events[1..] == [StopCalled(ResetOk), StopCalled(ResetOk)];
    assert events[1..][1..] == [StopCalled(ResetOk)];
    assert events[1..][1..][1..] == [];
    assert Run(stopped, events[1..][1..]) == Run(StopStep(stopped, ResetOk), []);
    assert Run(started, events[1..]) == Run(stopped, events[1..][1..]);
  }

  /** An unparseable path while an earlier playback is still running rejects
      the new call at once, yet leaves the earlier player playing with the new
      call's blocks stored: when that playback ends, the new call is settled a
      second time and the earlier call is never settled. */
  lemma InvalidUrlDuringPlaybackSettlesTwice(st: EngineState, path: string, side: string, p: PromiseId, q: PromiseId)
    requires p != q
    ensures ValidTrace(st, [Play(path, side, p, Prepared), Play("", side, q, UrlRejected), Finished(true, ResetOk)])
    ensures Run(st, [Play(path, side, p, Prepared), Play("", side, q, UrlRejected), Finished(true, ResetOk)]).log ==
      st.log + [Rejected(q, ErrInvalidUrl, "Invalid file URL"), Resolved(q)]
  {
    var events := [Play(path, side, p, Prepared), Play("", side, q, UrlRejected), Finished(true, ResetOk)];
    var started := PlayFileStep(st, path, side, p, Prepared);
    var rejected := PlayFileStep(started, "", side, q, UrlRejected);
    var finished := DidFinishStep(Halt(rejected), true, ResetOk);
    assert IsPlaying(rejected);
    assert events[1..] == [Play("", side, q, UrlRejected), Finished(true, ResetOk)];
    assert events[1..][1..] == [Finished(true, ResetOk)];
    assert events[1..][1..][1..] == [];
    assert ValidTrace(rejected, events[1..][1..]);
    assert Run(rejected, events[1..][1..]) == Run(finished, []);
    assert Run(started, events[1..]) == Run(rejected, events[1..][1..]);
  }
}
