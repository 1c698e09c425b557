/**
 * Text-to-speech playback: device detection, the Web Audio player, the
 * `Audio`-element fallback and the mobile path, and the TTS player that fetches
 * (through the shared audio cache) and plays.
 *
 * What the browser does (creating and resuming an `AudioContext`, decoding,
 * starting a source, the events of an `Audio` element, the reply of the TTS
 * endpoint) is an outcome handed in as a parameter. What the code does in
 * return — calling `onStart`, `onEnd`, `onError`, sending a request, starting
 * or stopping a source, creating or revoking an object URL — is recorded as a
 * trace of events. Each state-changing method is tied to a function of the old
 * state and the outcomes, and the properties are proved about those functions.
 */
module AudioPlayback {
  import opened Common
  import Text
  import opened AudioCaching

  // ---------------------------------------------------------------------------
  // DeviceDetector

  /** What the detector reads: `navigator.userAgent`, `window.innerWidth` and whether `window.MSStream` is set. */
  datatype Device = Device(userAgent: string, innerWidth: int, msStream: bool)

  const MOBILE_WIDTH: int := 768

  /** `isMobile`: an iPhone, iPad, iPod or Android user agent (any letter case), or a narrow window. */
  function IsMobile(d: Device): (r: bool)
    ensures r <==> || Text.Contains(d.userAgent, "iPhone", true) || Text.Contains(d.userAgent, "iPad", true)
                   || Text.Contains(d.userAgent, "iPod", true) || Text.Contains(d.userAgent, "Android", true)
                   || d.innerWidth < MOBILE_WIDTH
  {
    || Text.Includes(d.userAgent, "iPhone", true) || Text.Includes(d.userAgent, "iPad", true)
    || Text.Includes(d.userAgent, "iPod", true) || Text.Includes(d.userAgent, "Android", true)
    || d.innerWidth < MOBILE_WIDTH
  }

  /** `isIOS`: an iPad, iPhone or iPod user agent in exactly that letter case, and no `MSStream`. */
  function IsIOS(d: Device): (r: bool)
    ensures r <==> (|| Text.Contains(d.userAgent, "iPad", false) || Text.Contains(d.userAgent, "iPhone", false)
                    || Text.Contains(d.userAgent, "iPod", false)) && !d.msStream
  {
    (|| Text.Includes(d.userAgent, "iPad", false) || Text.Includes(d.userAgent, "iPhone", false)
     || Text.Includes(d.userAgent, "iPod", false)) && !d.msStream
  }

  /** `isAndroid`: an Android user agent, any letter case. */
  function IsAndroid(d: Device): (r: bool)
    ensures r <==> Text.Contains(d.userAgent, "Android", true)
  {
    Text.Includes(d.userAgent, "Android", true)
  }

  /** Every iOS device counts as mobile. */
  lemma IOSIsMobile(d: Device)
    ensures IsIOS(d) ==> IsMobile(d)
  {
    Text.ExactContainsIgnoringCase(d.userAgent, "iPad");
    Text.ExactContainsIgnoringCase(d.userAgent, "iPhone");
    Text.ExactContainsIgnoringCase(d.userAgent, "iPod");
  }

  /** Every Android device counts as mobile. */
  lemma AndroidIsMobile(d: Device)
    ensures IsAndroid(d) ==> IsMobile(d)
  {
  }

  // ---------------------------------------------------------------------------
  // Rates, errors, outcomes and traces

  /** `Math.max(0.25, Math.min(4.0, rate))`: the rate an engine is given. */
  function ClampRate(rate: real): (r: real)
    ensures 0.25 <= r <= 4.0
    ensures 0.25 <= rate <= 4.0 ==> r == rate
    ensures rate < 0.25 ==> r == 0.25
    ensures rate > 4.0 ==> r == 4.0
  {
    if rate > 4.0 then 4.0 else if rate < 0.25 then 0.25 else rate
  }

  /** The errors the code raises, by message; `Raised` is one the browser raised. */
  datatype Error =
    | PlayerOnMobile            // "AudioPlayer.play() should not be used on mobile devices"
    | ContextInitFailed         // "AudioContext initialization failed: …"
    | PlaybackFailed            // "Audio playback failed", for a thrown non-Error
    | FallbackFailed            // "Fallback audio playback failed"
    | ElementError              // "Audio element error"
    | MobileFailed(cause: Thrown<Error>)   // "Mobile audio failed: " + the cause's message
    | RequestInProgress         // "TTS request already in progress"
    | TtsApi(status: int)       // "TTS API error: " + status
    | TtsFailed                 // "TTS failed", for a thrown non-Error
    | Raised(message: string)

  /** What the code does that a caller or the browser sees, in order. */
  datatype Event =
    | Started                   // options.onStart()
    | Ended                     // options.onEnd()
    | Failed(error: Error)      // options.onError(error)
    | Requested(text: string, speed: real)     // POST /api/tts with { text, speed }
    | SourceStarted(source: nat, blob: Blob, rate: real)
    | SourceStopped(source: nat)
    | ContextClosed
    | UrlCreated(blob: Blob)    // URL.createObjectURL(blob), and an Audio element for it
    | ElementPlayed(elementRate: Option<real>)        // audio.play(), with the playbackRate set on the element if any
    | UrlRevoked

  /** How the promise a call returns settles. */
  datatype Settled = Resolved | Rejected(reason: Thrown<Error>)

  datatype Playback = Playback(events: seq<Event>, settled: Settled)

  /** A browser step that either succeeds or throws. */
  datatype Outcome = Succeeds | Throws(thrown: Thrown<Error>)

  /** Creating the `AudioContext` and resuming it when suspended. */
  datatype InitOutcome = InitOk | CreateFailed | ResumeFailed

  datatype PlayerEnv = PlayerEnv(init: InitOutcome, decode: Outcome, start: Outcome)

  // ---------------------------------------------------------------------------
  // AudioPlayer

  datatype PlayerState = PlayerState(hasContext: bool, currentSource: Option<nat>, isPlaying: bool, nextSource: nat)

  /** Playing exactly when there is a current source; a source needs a context; source ids are handed out in order. */
  ghost predicate PlayerInv(s: PlayerState)
  {
    && (s.isPlaying <==> s.currentSource.Some?)
    && (s.currentSource.Some? ==> s.hasContext && s.currentSource.value < s.nextSource)
  }

  datatype Stopping = Stopping(state: PlayerState, events: seq<Event>)

  /** `stop`: stop the current source if there is one (an error from it is ignored), then not playing. */
  function StopResult(s: PlayerState): (r: Stopping)
    ensures r.state.currentSource.None? && !r.state.isPlaying
    ensures r.state.hasContext == s.hasContext && r.state.nextSource == s.nextSource
    ensures PlayerInv(r.state)
    ensures s.currentSource.None? ==> r.events == []
    ensures s.currentSource.Some? ==> r.events == [SourceStopped(s.currentSource.value)]
  {
    Stopping(s.(currentSource := None, isPlaying := false),
             if s.currentSource.Some? then [SourceStopped(s.currentSource.value)] else [])
  }

  /** `stop` twice is `stop` once. */
  lemma StopIsIdempotent(s: PlayerState)
    ensures StopResult(StopResult(s).state).state == StopResult(s).state
    ensures StopResult(StopResult(s).state).events == []
  {
  }

  /** The first step of the `try` block of `play` that throws, as the error `play` rejects with. */
  function PlayFailure(hadContext: bool, env: PlayerEnv): Option<Error>
  {
    if !hadContext && !env.init.InitOk? then Some(ContextInitFailed)
    else if env.decode.Throws? then Some(AsError(env.decode.thrown, PlaybackFailed))
    else if env.start.Throws? then Some(AsError(env.start.thrown, PlaybackFailed))
    else None
  }

  datatype PlayerStep = PlayerStep(state: PlayerState, playback: Playback)

  /**
   * `AudioPlayer.play`: refuse on mobile; otherwise stop, initialise the context
   * (a context once created is kept even if resuming it fails), decode, create a
   * source at the clamped rate, call `onStart`, start the source; a failure of
   * any of these leaves nothing playing, calls `onError` and rejects with the
   * same error.
   */
  function PlayResult(s: PlayerState, device: Device, blob: Blob, rate: real, env: PlayerEnv): (r: PlayerStep)
    ensures PlayerInv(s) ==> PlayerInv(r.state)
    ensures IsMobile(device) ==> r == PlayerStep(s, Playback([], Rejected(Threw(PlayerOnMobile))))
    ensures !IsMobile(device) ==>
      && r.state.hasContext == (s.hasContext || !env.init.CreateFailed?)
      && (PlayFailure(s.hasContext, env).None? <==> r.playback.settled == Resolved)
      && (r.playback.settled == Resolved ==> r.state.isPlaying && r.state.currentSource == Some(s.nextSource))
      && (r.playback.settled.Rejected? ==>
            && |r.playback.events| >= 1 && !r.state.isPlaying && r.state.currentSource.None?
            && r.playback.settled == Rejected(Threw(PlayFailure(s.hasContext, env).value))
            && r.playback.events[|r.playback.events| - 1] == Failed(PlayFailure(s.hasContext, env).value))
      && |StopResult(s).events| <= |r.playback.events|
      && r.playback.events[..|StopResult(s).events|] == StopResult(s).events
  {
    if IsMobile(device) then PlayerStep(s, Playback([], Rejected(Threw(PlayerOnMobile))))
    else PlayAttempt(s, blob, rate, env)
  }

  /** The `try` block of `play` and its `catch`. */
  function PlayAttempt(s: PlayerState, blob: Blob, rate: real, env: PlayerEnv): PlayerStep
  {
    var stopped := StopResult(s);
    var context := s.hasContext || !env.init.CreateFailed?;
    var created := (s.hasContext || env.init.InitOk?) && env.decode.Succeeds?;
    var source := s.nextSource;
    var next := if created then source + 1 else source;
    match PlayFailure(s.hasContext, env)
    case None =>
      PlayerStep(PlayerState(context, Some(source), true, next),
                 Playback(stopped.events + [Started, SourceStarted(source, blob, ClampRate(rate))], Resolved))
    case Some(e) =>
      PlayerStep(PlayerState(context, None, false, next),
                 Playback(stopped.events + (if created then [Started] else []) + [Failed(e)], Rejected(Threw(e))))
  }

  /** On success `onStart` is called just before the source starts, at a rate in [0.25, 4.0]. */
  lemma PlayStartsAfterOnStart(s: PlayerState, device: Device, blob: Blob, rate: real, env: PlayerEnv)
    requires PlayResult(s, device, blob, rate, env).playback.settled == Resolved
    ensures var events := PlayResult(s, device, blob, rate, env).playback.events;
      && |events| >= 2
      && events[|events| - 2] == Started
      && events[|events| - 1] == SourceStarted(s.nextSource, blob, ClampRate(rate))
      && 0.25 <= ClampRate(rate) <= 4.0
  {
  }

  /** The player never touches an object URL: those belong to the fallback. */
  lemma PlayOnlyDrivesSources(s: PlayerState, device: Device, blob: Blob, rate: real, env: PlayerEnv)
    ensures forall e :: e in PlayResult(s, device, blob, rate, env).playback.events ==>
              && !e.UrlCreated? && !e.ElementPlayed? && !e.Requested?
              && (e.SourceStarted? ==> e.rate == ClampRate(rate))
  {
  }

  class AudioPlayer {
    var hasContext: bool
    var currentSource: Option<nat>
    var isPlaying: bool
    var nextSource: nat

    function State(): PlayerState
      reads this
    {
      PlayerState(hasContext, currentSource, isPlaying, nextSource)
    }

    ghost predicate Valid()
      reads this
    {
      PlayerInv(State())
    }

    constructor ()
      ensures Valid() && State() == PlayerState(false, None, false, 0)
    {
      hasContext, currentSource, isPlaying, nextSource := false, None, false, 0;
    }

    method Stop() returns (events: seq<Event>)
      requires Valid()
      modifies this
      ensures Valid()
      ensures State() == StopResult(old(State())).state && events == StopResult(old(State())).events
    {
      events := [];
      if currentSource.Some? {
        events := [SourceStopped(currentSource.value)];
        currentSource := None;
      }
      isPlaying := false;
    }

    /** The `try` block of `play`, up to the error it raises. */
    method PlaySteps(blob: Blob, rate: real, env: PlayerEnv) returns (events: seq<Event>, failure: Option<Error>)
      requires Valid()
      modifies this
      ensures var r := PlayAttempt(old(State()), blob, rate, env);
        failure == PlayFailure(old(hasContext), env)
        && (failure.None? ==> State() == r.state && events == r.playback.events)
        && (failure.Some? ==> events + [Failed(failure.value)] == r.playback.events
                              && State().(currentSource := None, isPlaying := false) == r.state)
    {
      var hadContext := hasContext;
      events := Stop();
      if !hasContext {
        if env.init != CreateFailed {
          hasContext := true;
        }
        if env.init != InitOk {
          failure := Some(ContextInitFailed);
          return;
        }
      }
      if env.decode.Throws? {
        failure := Some(AsError(env.decode.thrown, PlaybackFailed));
        return;
      }
      var source := nextSource;
      nextSource := nextSource + 1;
      currentSource := Some(source);
      isPlaying := true;
      events := events + [Started];
      if env.start.Throws? {
        failure := Some(AsError(env.start.thrown, PlaybackFailed));
        return;
      }
      events := events + [SourceStarted(source, blob, ClampRate(rate))];
      failure := None;
    }

    /** `play`, with the browser's outcomes for its steps. */
    method Play(device: Device, blob: Blob, rate: real, env: PlayerEnv) returns (playback: Playback)
      requires Valid()
      modifies this
      ensures Valid()
      ensures State() == PlayResult(old(State()), device, blob, rate, env).state
      ensures playback == PlayResult(old(State()), device, blob, rate, env).playback
    {
      if IsMobile(device) {
        return Playback([], Rejected(Threw(PlayerOnMobile)));
      }
      var events, failure := PlaySteps(blob, rate, env);
      match failure
      case None =>
        playback := Playback(events, Resolved);
      case Some(e) =>
        isPlaying := false;
        currentSource := None;
        playback := Playback(events + [Failed(e)], Rejected(Threw(e)));
    }

    /** The browser fires `onended` of a source this player started: not playing any more, and `onEnd`. */
    method SourceEnded(source: nat) returns (events: seq<Event>)
      requires Valid() && source < nextSource
      modifies this
      ensures Valid()
      ensures State() == old(State()).(currentSource := None, isPlaying := false)
      ensures events == [Ended]
    {
      isPlaying := false;
      currentSource := None;
      events := [Ended];
    }

    function GetIsPlaying(): (r: bool)
      reads this
      requires Valid()
      ensures r <==> currentSource.Some?
    {
      isPlaying
    }

    /** `dispose`: stop, then close and drop the context. A later `play` creates a new one. */
    method Dispose() returns (events: seq<Event>)
      requires Valid()
      modifies this
      ensures Valid()
      ensures State() == StopResult(old(State())).state.(hasContext := false)
      ensures events == StopResult(old(State())).events + (if old(hasContext) then [ContextClosed] else [])
    {
      events := Stop();
      if hasContext {
        events := events + [ContextClosed];
        hasContext := false;
      }
    }
  }

  // ---------------------------------------------------------------------------
  // fallbackPlay and mobileAudioPlay

  /** How an `Audio` element used by `fallbackPlay` finishes. */
  datatype FallbackEnd = PlaybackEnded | ElementFailed | PlayRejected(reason: Thrown<Error>)

  /** Whether the element has a `playbackRate`, whether `loadstart` fires, and how it ends. */
  datatype ElementEnv = ElementEnv(hasPlaybackRate: bool, loadStarts: bool, end: FallbackEnd)

  /**
   * `fallbackPlay`: an object URL and an element for the blob, the clamped rate
   * set on it when it has one, `play()`; `loadstart` calls `onStart`; `ended`
   * revokes the URL and calls `onEnd`; `error` revokes the URL and calls
   * `onError`; a rejected `play()` only rejects.
   */
  function FallbackPlay(blob: Blob, rate: real, env: ElementEnv): (r: Playback)
    ensures |r.events| >= 2 && r.events[0] == UrlCreated(blob)
    ensures r.events[1] == ElementPlayed(if env.hasPlaybackRate then Some(ClampRate(rate)) else None)
    ensures forall i :: 1 <= i < |r.events| ==> !r.events[i].UrlCreated?
    ensures r.settled == Resolved <==> env.end == PlaybackEnded
    ensures Started in r.events <==> env.loadStarts
    ensures Ended in r.events <==> env.end == PlaybackEnded
    ensures UrlRevoked in r.events <==> !env.end.PlayRejected?
    ensures env.end != ElementFailed ==> forall e :: e in r.events ==> !e.Failed?
    ensures env.end == ElementFailed ==>
              r.settled == Rejected(Threw(FallbackFailed)) && r.events[|r.events| - 1] == Failed(FallbackFailed)
    ensures env.end.PlayRejected? ==> r.settled == Rejected(env.end.reason)
  {
    var opening := [UrlCreated(blob), ElementPlayed(if env.hasPlaybackRate then Some(ClampRate(rate)) else None)]
                  + (if env.loadStarts then [Started] else []);
    match env.end
    case PlaybackEnded => Playback(opening + [UrlRevoked, Ended], Resolved)
    case ElementFailed => Playback(opening + [UrlRevoked, Failed(FallbackFailed)], Rejected(Threw(FallbackFailed)))
    case PlayRejected(reason) => Playback(opening, Rejected(reason))
  }

  /** How the element of the mobile path ends once `canplaythrough` has fired and `play()` was called. */
  datatype MobileEnd = PlayedToEnd | ErrorWhilePlaying | PlayRefused(reason: Thrown<Error>)

  /** Either the element fails before it can play through, or it gets there. */
  datatype MobileEnv = ErrorBeforeReady | Ready(end: MobileEnd)

  /** The error `handleMobileAudioError` reports for a cause. */
  function MobileError(env: MobileEnv): Option<Error>
  {
    match env
    case ErrorBeforeReady => Some(MobileFailed(Threw(ElementError)))
    case Ready(PlayedToEnd) => None
    case Ready(ErrorWhilePlaying) => Some(MobileFailed(Threw(ElementError)))
    case Ready(PlayRefused(reason)) => Some(MobileFailed(reason))
  }

  /**
   * `mobileAudioPlay`: an object URL and an element for the blob, loaded; on
   * `canplaythrough`, `onStart` then `play()` (no playback rate is set); `ended`
   * revokes the URL and calls `onEnd`; an element error or a refused `play()`
   * revokes the URL, calls `onError` and rejects.
   */
  function MobileAudioPlay(blob: Blob, env: MobileEnv): (r: Playback)
    ensures |r.events| >= 3 && r.events[0] == UrlCreated(blob) && r.events[|r.events| - 2] == UrlRevoked
    ensures forall i :: 1 <= i < |r.events| ==> !r.events[i].UrlCreated?
    ensures forall e :: e in r.events ==> !e.ElementPlayed? || e.elementRate.None?
    ensures Started in r.events <==> env.Ready?
    ensures MobileError(env).None? <==> r.settled == Resolved
    ensures MobileError(env).None? ==> r.events[|r.events| - 1] == Ended
    ensures MobileError(env).Some? ==>
              r.settled == Rejected(Threw(MobileError(env).value)) && r.events[|r.events| - 1] == Failed(MobileError(env).value)
  {
    var opening := [UrlCreated(blob)];
    match env
    case ErrorBeforeReady =>
      Playback(opening + [UrlRevoked, Failed(MobileFailed(Threw(ElementError)))], Rejected(Threw(MobileFailed(Threw(ElementError)))))
    case Ready(end) =>
      var playing := opening + [Started, ElementPlayed(None)];
      match end
      case PlayedToEnd => Playback(playing + [UrlRevoked, Ended], Resolved)
      case ErrorWhilePlaying =>
        Playback(playing + [UrlRevoked, Failed(MobileFailed(Threw(ElementError)))], Rejected(Threw(MobileFailed(Threw(ElementError)))))
      case PlayRefused(reason) =>
        Playback(playing + [UrlRevoked, Failed(MobileFailed(reason))], Rejected(Threw(MobileFailed(reason))))
  }

  // ---------------------------------------------------------------------------
  // TTSPlayer

  /** The reply to the POST to /api/tts: the fetch (or reading the body) threw, or a status and a body. */
  datatype TtsReply = ReplyThrew(reason: Thrown<Error>) | Reply(status: int, body: Blob)

  predicate IsOk(status: int) { 200 <= status <= 299 }

  datatype Fetch = Fetch(cache: CacheState, events: seq<Event>, result: Result<Blob, Thrown<Error>>)

  /**
   * `fetchTTS`: the cached blob for the text's key if there is one, with no
   * request; otherwise a request, an error carrying the status when it is not
   * ok, or the body, stored in the cache under the text's key.
   */
  function FetchResult(cache: CacheState, key: string, text: string, speed: real, reply: TtsReply): (r: Fetch)
    ensures Lookup(cache, key).Some? ==> r == Fetch(cache, [], Success(Lookup(cache, key).value))
    ensures Lookup(cache, key).None? ==> r.events == [Requested(text, speed)]
    ensures Lookup(cache, key).None? && reply.ReplyThrew? ==> r.cache == cache && r.result == Failure(reply.reason)
    ensures Lookup(cache, key).None? && reply.Reply? && !IsOk(reply.status) ==>
              r.cache == cache && r.result == Failure(Threw(TtsApi(reply.status)))
    ensures Lookup(cache, key).None? && reply.Reply? && IsOk(reply.status) ==>
              r.result == Success(reply.body) && r.cache == AfterSet(cache, key, reply.body)
              && Lookup(r.cache, key) == Some(reply.body)
  {
    match Lookup(cache, key)
    case Some(blob) => Fetch(cache, [], Success(blob))
    case None =>
      var request := [Requested(text, speed)];
      match reply
      case ReplyThrew(reason) => Fetch(cache, request, Failure(reason))
      case Reply(status, body) =>
        if !IsOk(status) then Fetch(cache, request, Failure(Threw(TtsApi(status))))
        else Fetch(AfterSet(cache, key, body), request, Success(body))
  }

  datatype Desktop = Desktop(useWebAudio: bool, player: PlayerState, playback: Playback)

  /**
   * `desktopAudioPlay`: with Web Audio still in use, the player at rate 1.0 and,
   * if that rejects, Web Audio off for good and one fallback at rate 1.0;
   * without it, the fallback alone.
   */
  function DesktopResult(useWebAudio: bool, player: PlayerState, device: Device, blob: Blob,
                         primary: PlayerEnv, fallback: ElementEnv): (r: Desktop)
    ensures !useWebAudio ==> r == Desktop(false, player, FallbackPlay(blob, 1.0, fallback))
  {
    if useWebAudio then
      var first := PlayResult(player, device, blob, 1.0, primary);
      if first.playback.settled == Resolved then Desktop(true, first.state, first.playback)
      else
        var second := FallbackPlay(blob, 1.0, fallback);
        Desktop(false, first.state, Playback(first.playback.events + second.events, second.settled))
    else Desktop(false, player, FallbackPlay(blob, 1.0, fallback))
  }

  /** How many object URLs a trace creates: how many times the fallback (or the mobile path) ran. */
  function UrlsCreated(events: seq<Event>): (n: nat)
    ensures n <= |events|
  {
    if events == [] then 0 else (if events[0].UrlCreated? then 1 else 0) + UrlsCreated(events[1..])
  }

  lemma {:induction false} UrlsCreatedAppend(a: seq<Event>, b: seq<Event>)
    ensures UrlsCreated(a + b) == UrlsCreated(a) + UrlsCreated(b)
  {
    if a != [] {
      assert (a + b)[1..] == a[1..] + b;
      UrlsCreatedAppend(a[1..], b);
    } else {
      assert a + b == b;
    }
  }

  lemma {:induction false} NoUrlsCreated(events: seq<Event>)
    requires forall e :: e in events ==> !e.UrlCreated?
    ensures UrlsCreated(events) == 0
  {
    if events != [] {
      assert events[0] in events;
      assert forall e :: e in events[1..] ==> e in events;
      NoUrlsCreated(events[1..]);
    }
  }

  lemma OneUrlCreated(events: seq<Event>)
    requires |events| >= 1 && events[0].UrlCreated?
    requires forall i :: 1 <= i < |events| ==> !events[i].UrlCreated?
    ensures UrlsCreated(events) == 1
  {
    assert forall e :: e in events[1..] ==> !e.UrlCreated?;
    NoUrlsCreated(events[1..]);
  }

  /** The fallback plays one element at the clamped rate (when it has a rate) and starts no source. */
  lemma FallbackOnlyDrivesElement(blob: Blob, rate: real, env: ElementEnv)
    ensures forall e :: e in FallbackPlay(blob, rate, env).events ==>
              && !e.SourceStarted? && !e.Requested?
              && (e.ElementPlayed? ==> e.elementRate == if env.hasPlaybackRate then Some(ClampRate(rate)) else None)
  {
  }

  /** The mobile path plays one element without setting a rate and starts no source. */
  lemma MobileOnlyDrivesElement(blob: Blob, env: MobileEnv)
    ensures forall e :: e in MobileAudioPlay(blob, env).events ==>
              !e.SourceStarted? && !e.Requested? && (e.ElementPlayed? ==> e.elementRate.None?)
  {
  }

  /**
   * On the desktop the fallback runs exactly once, on the same blob, when Web
   * Audio is off or its attempt rejected, and never otherwise; and Web Audio,
   * once off, stays off.
   */
  lemma DesktopFallsBackOnce(useWebAudio: bool, player: PlayerState, device: Device, blob: Blob,
                             primary: PlayerEnv, fallback: ElementEnv)
    requires !IsMobile(device)
    ensures var r := DesktopResult(useWebAudio, player, device, blob, primary, fallback);
      var failed := !useWebAudio || PlayResult(player, device, blob, 1.0, primary).playback.settled.Rejected?;
      && (r.useWebAudio <==> !failed)
      && UrlsCreated(r.playback.events) == (if failed then 1 else 0)
      && (failed ==> UrlCreated(blob) in r.playback.events)
  {
    var second := FallbackPlay(blob, 1.0, fallback);
    OneUrlCreated(second.events);
    if useWebAudio {
      var first := PlayResult(player, device, blob, 1.0, primary);
      PlayOnlyDrivesSources(player, device, blob, 1.0, primary);
      NoUrlsCreated(first.playback.events);
      if first.playback.settled.Rejected? {
        UrlsCreatedAppend(first.playback.events, second.events);
        assert second.events[0] in first.playback.events + second.events;
      }
    } else {
      assert second.events[0] in second.events;
    }
  }

  /** On the desktop every engine is given rate 1.0, whatever rate `speak` was called with. */
  lemma DesktopPlaysAtNormalRate(useWebAudio: bool, player: PlayerState, device: Device, blob: Blob,
                                 primary: PlayerEnv, fallback: ElementEnv)
    ensures var events := DesktopResult(useWebAudio, player, device, blob, primary, fallback).playback.events;
      && (forall e :: e in events && e.SourceStarted? ==> e.rate == 1.0)
      && (forall e :: e in events && e.ElementPlayed? && e.elementRate.Some? ==> e.elementRate.value == 1.0)
  {
    PlayOnlyDrivesSources(player, device, blob, 1.0, primary);
    FallbackOnlyDrivesElement(blob, 1.0, fallback);
  }

  /** When Web Audio rejects, `onError` has already been called though the fallback may still succeed. */
  lemma DesktopErrorBeforeFallback(player: PlayerState, device: Device, blob: Blob, primary: PlayerEnv, fallback: ElementEnv)
    requires !IsMobile(device)
    requires PlayResult(player, device, blob, 1.0, primary).playback.settled.Rejected?
    requires fallback.end == PlaybackEnded
    ensures var r := DesktopResult(true, player, device, blob, primary, fallback);
      r.playback.settled == Resolved && Failed(PlayFailure(player.hasContext, primary).value) in r.playback.events
  {
    var events := PlayResult(player, device, blob, 1.0, primary).playback.events;
    assert events[|events| - 1] in events;
  }

  datatype SpeakerState = SpeakerState(isLoading: bool, useWebAudio: bool, player: PlayerState, cache: CacheState)

  /** Everything `speak` meets from outside: the TTS reply and how each playback path would go. */
  datatype SpeakEnv = SpeakEnv(reply: TtsReply, primary: PlayerEnv, fallback: ElementEnv, mobile: MobileEnv)

  datatype Speaking = Speaking(state: SpeakerState, playback: Playback)

  /** The playback half of `speak`: the mobile path on a mobile device, the desktop path otherwise. */
  function PlayBlob(useWebAudio: bool, player: PlayerState, device: Device, blob: Blob, env: SpeakEnv): (r: Desktop)
    ensures IsMobile(device) ==> r == Desktop(useWebAudio, player, MobileAudioPlay(blob, env.mobile))
    ensures !useWebAudio ==> !r.useWebAudio
  {
    if IsMobile(device) then Desktop(useWebAudio, player, MobileAudioPlay(blob, env.mobile))
    else DesktopResult(useWebAudio, player, device, blob, env.primary, env.fallback)
  }

  /** Playing sends no request to the TTS endpoint. */
  lemma PlayBlobSendsNoRequest(useWebAudio: bool, player: PlayerState, device: Device, blob: Blob, env: SpeakEnv)
    ensures forall e :: e in PlayBlob(useWebAudio, player, device, blob, env).playback.events ==> !e.Requested?
  {
    if IsMobile(device) {
      MobileOnlyDrivesElement(blob, env.mobile);
    } else {
      PlayOnlyDrivesSources(player, device, blob, 1.0, env.primary);
      FallbackOnlyDrivesElement(blob, 1.0, env.fallback);
    }
  }

  /** `speak` once its guard has let it through: fetch, play by device, on an error call `onError` and reject, finally not loading. */
  function SpeakBody(st: SpeakerState, key: string, device: Device, text: string, rate: real, env: SpeakEnv): (r: Speaking)
    ensures !r.state.isLoading
    ensures !st.useWebAudio ==> !r.state.useWebAudio
    ensures r.playback.settled.Rejected? ==>
              && r.playback.settled.reason.Threw? && |r.playback.events| >= 1
              && r.playback.events[|r.playback.events| - 1] == Failed(r.playback.settled.reason.error)
  {
    var fetched := FetchResult(st.cache, key, text, rate, env.reply);
    match fetched.result
    case Failure(thrown) =>
      var e := AsError(thrown, TtsFailed);
      Speaking(st.(isLoading := false, cache := fetched.cache), Playback(fetched.events + [Failed(e)], Rejected(Threw(e))))
    case Success(blob) =>
      var played := PlayBlob(st.useWebAudio, st.player, device, blob, env);
      var state := SpeakerState(false, played.useWebAudio, played.player, fetched.cache);
      match played.playback.settled
      case Resolved => Speaking(state, Playback(fetched.events + played.playback.events, Resolved))
      case Rejected(thrown) =>
        var e := AsError(thrown, TtsFailed);
        Speaking(state, Playback(fetched.events + played.playback.events + [Failed(e)], Rejected(Threw(e))))
  }

  /** `speak`: refused, with nothing changed and no callback, while another request is in flight. */
  function SpeakResult(st: SpeakerState, key: string, device: Device, text: string, rate: real, env: SpeakEnv): (r: Speaking)
    ensures st.isLoading ==> r == Speaking(st, Playback([], Rejected(Threw(RequestInProgress))))
    ensures !st.isLoading ==> !r.state.isLoading
  {
    if st.isLoading then Speaking(st, Playback([], Rejected(Threw(RequestInProgress))))
    else SpeakBody(st.(isLoading := true), key, device, text, rate, env)
  }

  /** A cache hit sends no request; a miss sends exactly one, for the text at the requested speed. */
  lemma SpeakUsesCacheFirst(st: SpeakerState, key: string, device: Device, text: string, rate: real, env: SpeakEnv)
    requires !st.isLoading
    ensures var events := SpeakResult(st, key, device, text, rate, env).playback.events;
      && (Lookup(st.cache, key).Some? ==> forall e :: e in events ==> !e.Requested?)
      && (Lookup(st.cache, key).None? ==> events[0] == Requested(text, rate))
      && (Lookup(st.cache, key).None? ==> forall i :: 1 <= i < |events| ==> !events[i].Requested?)
  {
    var fetched := FetchResult(st.cache, key, text, rate, env.reply);
    if fetched.result.Success? {
      PlayBlobSendsNoRequest(st.useWebAudio, st.player, device, fetched.result.value, env);
    }
  }

  /** A reply that is not ok rejects with the status, after `onError` with the same error. */
  lemma SpeakReportsApiStatus(st: SpeakerState, key: string, device: Device, text: string, rate: real, env: SpeakEnv)
    requires !st.isLoading && Lookup(st.cache, key).None?
    requires env.reply.Reply? && !IsOk(env.reply.status)
    ensures var r := SpeakResult(st, key, device, text, rate, env);
      && r.playback == Playback([Requested(text, rate), Failed(TtsApi(env.reply.status))], Rejected(Threw(TtsApi(env.reply.status))))
      && r.state == st
  {
  }

  /** After an ok reply the blob is cached under the text's key, whether or not playback then works. */
  lemma SpeakCachesReply(st: SpeakerState, key: string, device: Device, text: string, rate: real, env: SpeakEnv)
    requires !st.isLoading && Lookup(st.cache, key).None?
    requires env.reply.Reply? && IsOk(env.reply.status)
    ensures Lookup(SpeakResult(st, key, device, text, rate, env).state.cache, key) == Some(env.reply.body)
  {
  }

  class TTSPlayer {
    const player: AudioPlayer
    /** The shared `audioCache`. */
    const cache: AudioCache
    var isLoading: bool
    var useWebAudio: bool

    function State(): SpeakerState
      reads this, player, cache
    {
      SpeakerState(isLoading, useWebAudio, player.State(), cache.State())
    }

    ghost predicate Valid()
      reads this, player, cache
    {
      player.Valid() && cache.Valid()
    }

    /** Web Audio is used unless the device is mobile when the player is made. */
    constructor (cache: AudioCache, device: Device)
      requires cache.Valid()
      ensures Valid() && fresh(player) && this.cache == cache
      ensures State() == SpeakerState(false, !IsMobile(device), PlayerState(false, None, false, 0), old(cache.State()))
    {
      player := new AudioPlayer();
      this.cache := cache;
      isLoading := false;
      useWebAudio := !IsMobile(device);
    }

    method FetchTts(text: string, speed: real, reply: TtsReply) returns (fetched: Fetch)
      requires Valid()
      modifies cache
      ensures Valid()
      ensures fetched == FetchResult(old(cache.State()), cache.GenerateKey(text), text, speed, reply)
      ensures cache.State() == fetched.cache
    {
      var cached := cache.Get(text);
      if cached.Some? {
        return Fetch(cache.State(), [], Success(cached.value));
      }
      var request := [Requested(text, speed)];
      match reply
      case ReplyThrew(reason) =>
        fetched := Fetch(cache.State(), request, Failure(reason));
      case Reply(status, body) =>
        if !IsOk(status) {
          fetched := Fetch(cache.State(), request, Failure(Threw(TtsApi(status))));
        } else {
          cache.Set(text, body);
          fetched := Fetch(cache.State(), request, Success(body));
        }
    }

    method DesktopAudioPlay(device: Device, blob: Blob, primary: PlayerEnv, fallback: ElementEnv) returns (playback: Playback)
      requires Valid()
      modifies this, player
      ensures Valid() && isLoading == old(isLoading) && cache.State() == old(cache.State())
      ensures var r := DesktopResult(old(useWebAudio), old(player.State()), device, blob, primary, fallback);
        useWebAudio == r.useWebAudio && player.State() == r.player && playback == r.playback
    {
      if useWebAudio {
        var first := player.Play(device, blob, 1.0, primary);
        if first.settled == Resolved {
          return first;
        }
        useWebAudio := false;
        var second := FallbackPlay(blob, 1.0, fallback);
        playback := Playback(first.events + second.events, second.settled);
      } else {
        playback := FallbackPlay(blob, 1.0, fallback);
      }
    }

    /** The playback half of `speak`: the mobile path on a mobile device, the desktop path otherwise. */
    method PlayFetched(device: Device, blob: Blob, env: SpeakEnv) returns (playback: Playback)
      requires Valid()
      modifies this, player
      ensures Valid() && isLoading == old(isLoading) && cache.State() == old(cache.State())
      ensures var r := PlayBlob(old(useWebAudio), old(player.State()), device, blob, env);
        useWebAudio == r.useWebAudio && player.State() == r.player && playback == r.playback
    {
      if IsMobile(device) {
        playback := MobileAudioPlay(blob, env.mobile);
      } else {
        playback := DesktopAudioPlay(device, blob, env.primary, env.fallback);
      }
    }

    /** The guard of `speak`: refuse while loading, otherwise start loading. */
    method BeginSpeak() returns (accepted: bool)
      modifies this
      ensures accepted == !old(isLoading) && isLoading
      ensures useWebAudio == old(useWebAudio)
    {
      accepted := !isLoading;
      isLoading := true;
    }

    /** The rest of `speak`, after the guard let it through. */
    method FinishSpeak(device: Device, text: string, rate: real, env: SpeakEnv) returns (playback: Playback)
      requires Valid() && isLoading
      modifies this, player, cache
      ensures Valid()
      ensures var r := SpeakBody(old(State()), cache.GenerateKey(text), device, text, rate, env);
        State() == r.state && playback == r.playback
    {
      var fetched := FetchTts(text, rate, env.reply);
      match fetched.result {
        case Failure(thrown) =>
          var e := AsError(thrown, TtsFailed);
          playback := Playback(fetched.events + [Failed(e)], Rejected(Threw(e)));
        case Success(blob) =>
          var played := PlayFetched(device, blob, env);
          match played.settled {
            case Resolved =>
              playback := Playback(fetched.events + played.events, Resolved);
            case Rejected(thrown) =>
              var e := AsError(thrown, TtsFailed);
              playback := Playback(fetched.events + played.events + [Failed(e)], Rejected(Threw(e)));
          }
      }
      isLoading := false;
    }

    method Speak(device: Device, text: string, rate: real, env: SpeakEnv) returns (playback: Playback)
      requires Valid()
      modifies this, player, cache
      ensures Valid()
      ensures var r := SpeakResult(old(State()), cache.GenerateKey(text), device, text, rate, env);
        State() == r.state && playback == r.playback
    {
      var accepted := BeginSpeak();
      if !accepted {
        return Playback([], Rejected(Threw(RequestInProgress)));
      }
      playback := FinishSpeak(device, text, rate, env);
    }

    /** `stop`: stops the Web Audio player on a desktop; on mobile there is nothing to stop. */
    method Stop(device: Device) returns (events: seq<Event>)
      requires Valid()
      modifies player
      ensures Valid()
      ensures IsMobile(device) ==> player.State() == old(player.State()) && events == []
      ensures !IsMobile(device) ==> player.State() == StopResult(old(player.State())).state
                                    && events == StopResult(old(player.State())).events
    {
      events := [];
      if !IsMobile(device) {
        events := player.Stop();
      }
    }

    /** `getIsPlaying`: on mobile, whether a request is in flight; otherwise whether the player plays. */
    function GetIsPlaying(device: Device): (r: bool)
      reads this, player, cache
      requires Valid()
      ensures IsMobile(device) ==> r == isLoading
      ensures !IsMobile(device) ==> (r <==> player.currentSource.Some?)
    {
      if IsMobile(device) then isLoading else player.GetIsPlaying()
    }

    function GetIsLoading(): bool
      reads this
    {
      isLoading
    }

    method Dispose() returns (events: seq<Event>)
      requires Valid()
      modifies player
      ensures Valid()
      ensures player.State() == StopResult(old(player.State())).state.(hasContext := false)
      ensures events == StopResult(old(player.State())).events + (if old(player.hasContext) then [ContextClosed] else [])
    {
      events := player.Dispose();
    }
  }
}
