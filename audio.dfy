/**
  The sound bookkeeping of client/src/lib/audio.ts: class GameAudio keeps,
  per sound name, a state record and the time of the last accepted play,
  and rate-limits plays to one per 50 ms per sound. `Date.now()` is the
  parameter `now` (milliseconds) and starting the Web Audio buffer source
  is an outcome parameter that says whether it threw.
*/
module Audio {
  import opened Wrappers

  /** Minimum milliseconds between two accepted plays of one sound. */
  const MinPlayInterval: int := 50

  /** The keys of `SOUNDS`, in declaration order. */
  const SoundKeys: seq<string> := ["bounce", "score", "gameOver"]

  /** The fields of an `AudioState` record at one instant. */
  datatype AudioStateV = AudioStateV(loaded: bool, error: Option<string>, lastPlayAttempt: int)

  /** How starting the buffer source ended: it started, it threw an `Error`, or it threw something else. */
  datatype StartOutcome = Started | ThrewError(message: string) | ThrewOther

  /** The error recorded after an accepted play. */
  function ErrorAfter(outcome: StartOutcome): Option<string> {
    match outcome
    case Started => None
    case ThrewError(message) => Some(message)
    case ThrewOther => Some("Unknown error")
  }

  /** The two maps of a GameAudio object as values. */
  datatype Registry = Registry(states: map<string, AudioStateV>, lastPlayTime: map<string, int>)

  /** `this.lastPlayTime.get(soundKey) || 0` */
  function LastPlay(m: Registry, key: string): int {
    if key in m.lastPlayTime then m.lastPlayTime[key] else 0
  }

  /** A play of `key` at `now` goes ahead: the sound is known and 50 ms have passed. */
  predicate Accepts(m: Registry, key: string, now: int) {
    key in m.states && now - LastPlay(m, key) >= MinPlayInterval
  }

  /** The registry right after construction. */
  function InitialRegistry(): (m: Registry)
    ensures m.states.Keys == m.lastPlayTime.Keys == {"bounce", "score", "gameOver"}
    ensures forall k :: k in m.states ==> m.states[k] == AudioStateV(true, None, 0) && m.lastPlayTime[k] == 0
  {
    Registry(map k | k in SoundKeys :: AudioStateV(true, None, 0), map k | k in SoundKeys :: 0)
  }

  /**
    play: a refused call changes nothing; an accepted one stamps the time
    on its own key's entries and records whether the start threw. Other
    keys are never touched.
  */
  function PlayStep(m: Registry, key: string, now: int, outcome: StartOutcome): (r: Registry)
    ensures !Accepts(m, key, now) ==> r == m
    ensures Accepts(m, key, now) ==>
      && r.states.Keys == m.states.Keys
      && r.lastPlayTime.Keys == m.lastPlayTime.Keys + {key}
      && LastPlay(r, key) == now
      && r.states[key].lastPlayAttempt == now
      && r.states[key].loaded == m.states[key].loaded
      && r.states[key].error == ErrorAfter(outcome)
      && (r.states[key].error == None <==> outcome == Started)
    ensures forall k :: k != key ==>
      && (k in r.states <==> k in m.states)
      && (k in m.states ==> r.states[k] == m.states[k])
      && (k in r.lastPlayTime <==> k in m.lastPlayTime)
      && LastPlay(r, k) == LastPlay(m, k)
  {
    if !Accepts(m, key, now) then m
    else
      var stamped := m.states[key].(lastPlayAttempt := now);
      Registry(m.states[key := stamped.(error := ErrorAfter(outcome))], m.lastPlayTime[key := now])
  }

  /** One call of `play`. */
  datatype PlayCall = PlayCall(key: string, now: int, outcome: StartOutcome)

  /** The registry after the calls, made in order. */
  function PlayAll(m: Registry, calls: seq<PlayCall>): Registry
    decreases |calls|
  {
    if calls == [] then m
    else PlayAll(PlayStep(m, calls[0].key, calls[0].now, calls[0].outcome), calls[1..])
  }

  /** The times of the calls for `key` that `play` accepts, in call order. */
  function AcceptedTimes(m: Registry, calls: seq<PlayCall>, key: string): seq<int>
    decreases |calls|
  {
    if calls == [] then []
    else
      var c := calls[0];
      var rest := AcceptedTimes(PlayStep(m, c.key, c.now, c.outcome), calls[1..], key);
      if c.key == key && Accepts(m, key, c.now) then [c.now] + rest else rest
  }

  /** Each time is at least 50 ms after the one before it, the first after `last`. */
  predicate SpacedAfter(times: seq<int>, last: int) {
    && (|times| > 0 ==> times[0] - last >= MinPlayInterval)
    && forall i :: 0 < i < |times| ==> times[i] - times[i - 1] >= MinPlayInterval
  }

  /**
    Whatever the calls and whatever the clock does, the accepted plays of
    one sound are at least 50 ms apart, and the first is at least 50 ms
    after the last play recorded before them; afterwards the recorded last
    play of the sound is the last accepted one, or the old record when none
    was accepted.
  */
  lemma {:induction false} ThrottleSpacing(m: Registry, calls: seq<PlayCall>, key: string)
    ensures SpacedAfter(AcceptedTimes(m, calls, key), LastPlay(m, key))
    ensures var times := AcceptedTimes(m, calls, key);
      LastPlay(PlayAll(m, calls), key) == if times == [] then LastPlay(m, key) else times[|times| - 1]
    decreases |calls|
  {
    if calls != [] {
      var c := calls[0];
      var next := PlayStep(m, c.key, c.now, c.outcome);
      var rest := AcceptedTimes(next, calls[1..], key);
      ThrottleSpacing(next, calls[1..], key);
      assert SpacedAfter(rest, LastPlay(next, key));
      if c.key == key && Accepts(m, key, c.now) {
        assert LastPlay(next, key) == c.now;
        var times := [c.now] + rest;
        assert times[|times| - 1] == if rest == [] then c.now else rest[|rest| - 1];
        forall i | 0 < i < |times|
          ensures times[i] - times[i - 1] >= MinPlayInterval
        {
          assert times[i] == rest[i - 1];
          if i > 1 {
            assert times[i - 1] == rest[i - 2];
            assert rest[i - 1] - rest[i - 2] >= MinPlayInterval;
          }
        }
      } else {
        assert LastPlay(next, key) == LastPlay(m, key);
      }
    }
  }

  /** A mutable `AudioState` record. */
  class AudioState {
    var loaded: bool
    var error: Option<string>
    var lastPlayAttempt: int

    constructor (v: AudioStateV)
      ensures Value() == v
    {
      loaded, error, lastPlayAttempt := v.loaded, v.error, v.lastPlayAttempt;
    }

    function Value(): AudioStateV
      reads this
    {
      AudioStateV(loaded, error, lastPlayAttempt)
    }
  }

  class GameAudio {
    var audioStates: map<string, AudioState>
    var lastPlayTime: map<string, int>

    /** Each sound has a record of its own. */
    ghost predicate Valid()
      reads this
    {
      forall k1, k2 :: k1 in audioStates && k2 in audioStates && k1 != k2 ==> audioStates[k1] != audioStates[k2]
    }

    function Model(): Registry
      reads this, audioStates.Values
    {
      Registry(map k | k in audioStates :: audioStates[k].Value(), lastPlayTime)
    }

    constructor ()
      ensures Valid() && Model() == InitialRegistry()
    {
      audioStates := map[];
      lastPlayTime := map[];
      new;
      InitializeAudio();
    }

    /** initializeAudio: one fresh record and a zero time for each key of `SOUNDS`. */
    method InitializeAudio()
      requires audioStates == map[] && lastPlayTime == map[]
      modifies this
      ensures Valid() && Model() == InitialRegistry()
    {
      var i := 0;
      while i < |SoundKeys|
        invariant 0 <= i <= |SoundKeys|
        invariant audioStates.Keys == lastPlayTime.Keys == set j | 0 <= j < i :: SoundKeys[j]
        invariant forall k :: k in audioStates ==> audioStates[k].Value() == AudioStateV(true, None, 0)
        invariant forall k :: k in lastPlayTime ==> lastPlayTime[k] == 0
        invariant forall k :: k in audioStates ==> fresh(audioStates[k])
        invariant Valid()
      {
        var key := SoundKeys[i];
        var state := new AudioState(AudioStateV(true, None, 0));
        audioStates := audioStates[key := state];
        lastPlayTime := lastPlayTime[key := 0];
        i := i + 1;
      }
      assert audioStates.Keys == set k | k in SoundKeys;
      assert Model().states == InitialRegistry().states;
      assert Model().lastPlayTime == InitialRegistry().lastPlayTime;
    }

    /** getDiagnostics: a field-for-field copy of every record, under the same keys. */
    method GetDiagnostics() returns (diagnostics: map<string, AudioStateV>)
      ensures diagnostics.Keys == audioStates.Keys
      ensures forall k :: k in diagnostics ==> diagnostics[k] == audioStates[k].Value()
    {
      diagnostics := map[];
      var pending := audioStates.Keys;
      while pending != {}
        invariant pending <= audioStates.Keys
        invariant diagnostics.Keys == audioStates.Keys - pending
        invariant forall k :: k in diagnostics ==> diagnostics[k] == audioStates[k].Value()
        decreases pending
      {
        var key :| key in pending;
        diagnostics := diagnostics[key := audioStates[key].Value()];
        pending := pending - {key};
      }
    }

    /**
      play: the timestamps are written before the buffer source is started,
      so a start that throws still counts for the 50 ms limit.
    */
    method Play(soundKey: string, now: int, outcome: StartOutcome)
      requires Valid()
      modifies this, if soundKey in audioStates then {audioStates[soundKey]} else {}
      ensures Valid() && audioStates == old(audioStates)
      ensures Model() == PlayStep(old(Model()), soundKey, now, outcome)
    {
      var lastPlay := if soundKey in lastPlayTime then lastPlayTime[soundKey] else 0;
      if soundKey !in audioStates || now - lastPlay < MinPlayInterval {
        return;
      }
      var state := audioStates[soundKey];
      state.lastPlayAttempt := now;
      lastPlayTime := lastPlayTime[soundKey := now];
      match outcome {
        case Started =>
          state.error := None;
        case ThrewError(message) =>
          state.error := Some(message);
        case ThrewOther =>
          state.error := Some("Unknown error");
      }
      ghost var expected := PlayStep(old(Model()), soundKey, now, outcome);
      forall k | k in audioStates
        ensures audioStates[k].Value() == expected.states[k]
      {
        if k != soundKey {
          assert audioStates[k] != state;
          assert audioStates[k].Value() == old(audioStates[k].Value());
        }
      }
      assert Model().states == expected.states;
    }
  }
}
