/**
 * The AutoMix playback state machine: which bucket is playing, which song
 * ref the manager expects to start next, and the calls it makes into the
 * playback service. The collaborators the manager cannot see are inputs:
 * the replies of AutoMixBucket.getNextTrack, the bucket's session flags, the
 * ProviderAggregator's song tables, and whether a call into the playback
 * service throws RemoteException.
 */
module Playback {
  import opened Wrappers
  import opened JavaStrings
  import opened BucketPrefs

  /** How many times startPlay asks a bucket for its first track. */
  const MaxTries: nat := 5

  /** The EchoNest error code that, with a "does not exist" message, means the session expired. */
  const SessionMissingCode: int := 5

  const SessionMissingText := "does not exist"

  datatype Song = Song(ref: string)

  datatype ProviderId = ProviderId(name: string)

  /**
   * What ProviderAggregator answers: retrieveSong(ref, null) looks in the
   * cache, retrieveSong(ref, id) asks the provider id; the preferred
   * Rosetta Stone prefix may be null, and a prefix may have no identifier.
   */
  datatype Aggregator = Aggregator(
    cache: map<string, Song>,
    preferredRosettaPrefix: Option<string>,
    rosettaIdentifiers: map<string, ProviderId>,
    providerSongs: map<ProviderId, map<string, Song>>)

  /** One answer of AutoMixBucket.getNextTrack: a ref, null, or a thrown EchoNestException. */
  datatype TrackReply = TrackRef(ref: string) | NoRef | EchoNestError(code: int, message: string)

  /** A call the manager makes into the playback service, or the start of the next-track thread. */
  datatype Effect = PlaySong(song: Song) | QueueSong(song: Song) | FetchNextTrack

  /** mCurrentPlayingBucket, mExpectedSong (null is None) and the calls made so far. */
  datatype PlayState = PlayState(current: Option<Bucket>, expected: Option<string>, effects: seq<Effect>)

  // ---------------------------------------------------------------------------
  // getSongFromRef

  /** ProviderAggregator.retrieveSong: no provider means the cache. */
  function Retrieve(agg: Aggregator, ref: string, provider: Option<ProviderId>): Option<Song>
  {
    match provider
    case None => if ref in agg.cache then Some(agg.cache[ref]) else None
    case Some(id) =>
      if id in agg.providerSongs && ref in agg.providerSongs[id] then Some(agg.providerSongs[id][ref]) else None
  }

  /** getRosettaStoneIdentifier: null for a prefix without an identifier. */
  function RosettaIdentifier(agg: Aggregator, prefix: string): Option<ProviderId>
  {
    if prefix in agg.rosettaIdentifiers then Some(agg.rosettaIdentifiers[prefix]) else None
  }

  /**
   * getSongFromRef: the cached song if there is one, otherwise the song the
   * preferred Rosetta Stone provider gives, and null when neither has it.
   */
  function GetSongFromRef(agg: Aggregator, ref: string): (s: Option<Song>)
    ensures ref in agg.cache ==> s == Some(agg.cache[ref])
    ensures ref !in agg.cache && agg.preferredRosettaPrefix.None? ==> s.None?
    ensures ref !in agg.cache && agg.preferredRosettaPrefix.Some? ==>
      var prefix := agg.preferredRosettaPrefix.value;
      s == (if prefix in agg.rosettaIdentifiers then Retrieve(agg, ref, Some(agg.rosettaIdentifiers[prefix])) else None)
  {
    var s := Retrieve(agg, ref, None);
    if s.None? && agg.preferredRosettaPrefix.Some? then
      var prefix := agg.preferredRosettaPrefix.value;
      Retrieve(agg, ref, RosettaIdentifier(agg, prefix))
    else s
  }

  /** A song is found only in the cache or with the preferred provider, and then under its ref there. */
  lemma SongComesFromCacheOrPreferred(agg: Aggregator, ref: string)
    requires GetSongFromRef(agg, ref).Some?
    ensures var s := GetSongFromRef(agg, ref).value;
      || (ref in agg.cache && s == agg.cache[ref])
      || (&& agg.preferredRosettaPrefix.Some?
          && agg.preferredRosettaPrefix.value in agg.rosettaIdentifiers
          && var id := agg.rosettaIdentifiers[agg.preferredRosettaPrefix.value];
             id in agg.providerSongs && ref in agg.providerSongs[id] && s == agg.providerSongs[id][ref])
  {
  }

  // ---------------------------------------------------------------------------
  // The first-track retry loop of startPlay

  /** How the retry loop ends, and after how many calls to getNextTrack. */
  datatype Fetch = Fetched(ref: string, calls: nat) | Exhausted(calls: nat) | Failed(code: int, message: string, calls: nat)

  /** The loop's outcome when the first k replies were null. */
  function ScanReplies(replies: seq<TrackReply>, k: nat): Fetch
    requires k <= MaxTries <= |replies|
    decreases MaxTries - k
  {
    if k == MaxTries then Exhausted(k)
    else match replies[k]
      case TrackRef(ref) => Fetched(ref, k + 1)
      case NoRef => ScanReplies(replies, k + 1)
      case EchoNestError(code, message) => Failed(code, message, k + 1)
  }

  /** The outcome of startPlay's loop when getNextTrack answers replies, in order. */
  function FirstTrack(replies: seq<TrackReply>): Fetch
    requires MaxTries <= |replies|
  {
    ScanReplies(replies, 0)
  }

  lemma {:induction false} ScanRepliesFacts(replies: seq<TrackReply>, k: nat)
    requires k <= MaxTries <= |replies|
    requires forall i :: 0 <= i < k ==> replies[i] == NoRef
    ensures var f := ScanReplies(replies, k);
      && (k < MaxTries ==> k < f.calls) && f.calls <= MaxTries
      && (forall i :: 0 <= i < f.calls - 1 ==> replies[i] == NoRef)
      && (f.Fetched? ==> replies[f.calls - 1] == TrackRef(f.ref))
      && (f.Failed? ==> replies[f.calls - 1] == EchoNestError(f.code, f.message))
      && (f.Exhausted? <==> forall i :: 0 <= i < MaxTries ==> replies[i] == NoRef)
      && (f.Exhausted? ==> f.calls == MaxTries)
    decreases MaxTries - k
  {
    if k < MaxTries && replies[k] == NoRef {
      ScanRepliesFacts(replies, k + 1);
    }
  }

  /**
   * The loop asks at most five times and stops at the first non-null ref or
   * the first exception; it ends empty-handed exactly when all five answers
   * are null.
   */
  lemma FirstTrackFacts(replies: seq<TrackReply>)
    requires MaxTries <= |replies|
    ensures var f := FirstTrack(replies);
      && 1 <= f.calls <= MaxTries
      && (forall i :: 0 <= i < f.calls - 1 ==> replies[i] == NoRef)
      && (f.Fetched? ==> replies[f.calls - 1] == TrackRef(f.ref))
      && (f.Failed? ==> replies[f.calls - 1] == EchoNestError(f.code, f.message))
      && (f.Exhausted? <==> forall i :: 0 <= i < MaxTries ==> replies[i] == NoRef)
      && (f.Exhausted? ==> f.calls == MaxTries)
  {
    ScanRepliesFacts(replies, 0);
  }

  /** startPlay's while loop: call getNextTrack while the ref is null and fewer than five tries were made. */
  method TryGetFirstTrack(replies: seq<TrackReply>) returns (f: Fetch)
    requires MaxTries <= |replies|
    ensures f == FirstTrack(replies)
  {
    var trackRef: Option<string> := None;
    var tryCount := 0;
    while trackRef.None? && tryCount < MaxTries
      invariant 0 <= tryCount <= MaxTries
      invariant trackRef.None? ==> ScanReplies(replies, tryCount) == FirstTrack(replies)
      invariant trackRef.Some? ==> FirstTrack(replies) == Fetched(trackRef.value, tryCount)
    {
      var reply := replies[tryCount];
      if reply.EchoNestError? {
        return Failed(reply.code, reply.message, tryCount + 1);
      }
      trackRef := if reply.TrackRef? then Some(reply.ref) else None;
      tryCount := tryCount + 1;
    }
    if trackRef.None? {
      f := Exhausted(tryCount);
    } else {
      f := Fetched(trackRef.value, tryCount);
    }
  }

  // ---------------------------------------------------------------------------
  // startPlay

  /**
   * One call of startPlay on the bucket: whether its session is ready, what
   * getNextTrack answers, whether playSong throws, whether the session is in
   * error when an exception is caught, and the session id
   * createPlaylistSession gives if the session is recreated.
   */
  datatype Round = Round(ready: bool, replies: seq<TrackReply>, playThrows: bool, sessionError: bool, renewedId: string)

  predicate WellFormedRounds(rounds: seq<Round>)
  {
    forall i :: 0 <= i < |rounds| ==> MaxTries <= |rounds[i].replies|
  }

  datatype StartOutcome =
    | NotReady
    | NoTrack
    | SongNotFound(ref: string)
    | Started(song: Song, playFailed: bool)
    | FetchFailed(code: int, message: string)
    | RoundsExhausted

  /** The exception startPlay answers by recreating the session and starting over. */
  predicate SessionExpired(code: int, message: string, sessionError: bool)
  {
    code == SessionMissingCode && Contains(message, SessionMissingText) && !sessionError
  }

  /**
   * startPlay on bucket b, one round per call (the first, then one per
   * recreated session). Only a found song changes the state: the bucket
   * becomes current and its song's ref the expected one, whether or not
   * playSong throws. Running out of rounds stands for a recursion the model
   * does not follow further.
   */
  function StartPlay(st: PlayState, b: Bucket, rounds: seq<Round>, agg: Aggregator): (r: (PlayState, StartOutcome))
    requires WellFormedRounds(rounds)
    ensures |rounds| > 0 && !rounds[0].ready ==> r == (st, NotReady)
    ensures !r.1.Started? ==> r.0 == st
    ensures r.1.Started? ==>
      && r.0.current.Some?
      && r.0.current.value == b.(sessionId := r.0.current.value.sessionId)
      && r.0.expected == Some(r.1.song.ref)
      && r.0.effects == st.effects + [PlaySong(r.1.song)]
    decreases |rounds|
  {
    if |rounds| == 0 then (st, RoundsExhausted)
    else
      var round := rounds[0];
      if !round.ready then (st, NotReady)
      else
        match FirstTrack(round.replies)
        case Exhausted(_) => (st, NoTrack)
        case Fetched(ref, _) =>
          (match GetSongFromRef(agg, ref)
           case None => (st, SongNotFound(ref))
           case Some(song) =>
             (PlayState(Some(b), Some(song.ref), st.effects + [PlaySong(song)]), Started(song, round.playThrows)))
        case Failed(code, message, _) =>
          if SessionExpired(code, message, round.sessionError) then
            StartPlay(st, b.(sessionId := round.renewedId), rounds[1..], agg)
          else (st, FetchFailed(code, message))
  }

  /** A ready first round whose loop finds a ref plays exactly the song looked up for that ref, if any. */
  lemma StartPlayFirstRound(st: PlayState, b: Bucket, rounds: seq<Round>, agg: Aggregator)
    requires WellFormedRounds(rounds) && |rounds| > 0 && rounds[0].ready
    requires FirstTrack(rounds[0].replies).Fetched?
    ensures var ref := FirstTrack(rounds[0].replies).ref;
      var r := StartPlay(st, b, rounds, agg);
      && (GetSongFromRef(agg, ref).None? <==> r.1 == SongNotFound(ref))
      && (GetSongFromRef(agg, ref).Some? ==>
            r.1 == Started(GetSongFromRef(agg, ref).value, rounds[0].playThrows) && r.0.current == Some(b))
  {
  }

  /** Whether playSong throws changes the outcome's flag but never the new state. */
  lemma {:induction false} StartPlayIgnoresPlayFailure(st: PlayState, b: Bucket, rounds: seq<Round>,
                                                       rounds': seq<Round>, agg: Aggregator)
    requires WellFormedRounds(rounds) && |rounds'| == |rounds|
    requires forall i :: 0 <= i < |rounds| ==> rounds'[i] == rounds[i].(playThrows := rounds'[i].playThrows)
    ensures WellFormedRounds(rounds')
    ensures StartPlay(st, b, rounds, agg).0 == StartPlay(st, b, rounds', agg).0
    decreases |rounds|
  {
    assert WellFormedRounds(rounds') by {
      forall i | 0 <= i < |rounds'| ensures MaxTries <= |rounds'[i].replies| {
        assert rounds'[i].replies == rounds[i].replies;
      }
    }
    if |rounds| > 0 {
      assert rounds'[0].replies == rounds[0].replies;
      StartPlayIgnoresPlayFailure(st, b.(sessionId := rounds[0].renewedId), rounds[1..], rounds'[1..], agg);
    }
  }

  // ---------------------------------------------------------------------------
  // onSongStarted and the next-track runnable

  /**
   * onSongStarted: a song other than the expected one (or no expected song)
   * cancels AutoMix; the expected song with a bucket playing starts the
   * next-track fetch; the expected song with no bucket changes nothing.
   */
  function SongStarted(st: PlayState, s: Song): (r: PlayState)
    ensures r.expected == st.expected
    ensures st.expected != Some(s.ref) ==> r == st.(current := None)
    ensures st.expected == Some(s.ref) && st.current.Some? ==> r == st.(effects := st.effects + [FetchNextTrack])
    ensures st.expected == Some(s.ref) && st.current.None? ==> r == st
  {
    if st.expected != Some(s.ref) then st.(current := None)
    else if st.current.Some? then st.(effects := st.effects + [FetchNextTrack])
    else st
  }

  datatype NextOutcome =
    | NoCurrentBucket
    | FetchError(code: int, message: string)
    | NothingToQueue(ref: Option<string>)
    | Queued(song: Song, queueFailed: bool)

  /**
   * The next-track runnable. With no bucket playing, getNextTrack is called
   * on null and the thread dies; an EchoNestException changes nothing; a song
   * found for the ref is queued; the ref becomes the expected one unless
   * queueSong throws. A null ref is taken to find no song.
   */
  function NextTrack(st: PlayState, reply: TrackReply, agg: Aggregator, queueThrows: bool): (r: (PlayState, NextOutcome))
    ensures r.0.current == st.current
    ensures st.current.None? ==> r == (st, NoCurrentBucket)
    ensures reply.EchoNestError? ==> r.0 == st
    ensures r.1.Queued? <==> st.current.Some? && reply.TrackRef? && GetSongFromRef(agg, reply.ref).Some?
    ensures r.1.Queued? ==>
      && r.1 == Queued(GetSongFromRef(agg, reply.ref).value, queueThrows)
      && r.0.effects == st.effects + [QueueSong(r.1.song)]
      && r.0.expected == (if queueThrows then st.expected else Some(reply.ref))
    ensures !r.1.Queued? ==> r.0.effects == st.effects
    ensures r.1.NothingToQueue? ==> r.0.expected == r.1.ref == (if reply.TrackRef? then Some(reply.ref) else None)
  {
    if st.current.None? then (st, NoCurrentBucket)
    else
      match reply
      case EchoNestError(code, message) => (st, FetchError(code, message))
      case NoRef => (st.(expected := None), NothingToQueue(None))
      case TrackRef(ref) =>
        match GetSongFromRef(agg, ref)
        case None => (st.(expected := Some(ref)), NothingToQueue(Some(ref)))
        case Some(song) =>
          var queued := st.(effects := st.effects + [QueueSong(song)]);
          if queueThrows then (queued, Queued(song, true))
          else (queued.(expected := Some(ref)), Queued(song, false))
  }

  // ---------------------------------------------------------------------------
  // Callbacks between two startPlay calls

  /** A playback-service callback or a run of the next-track thread. */
  datatype Event =
    | SongStartedEvent(song: Song)
    | NextTrackEvent(reply: TrackReply, agg: Aggregator, queueThrows: bool)

  function Replay(st: PlayState, events: seq<Event>): (r: PlayState)
    decreases |events|
  {
    if |events| == 0 then st
    else
      var next := match events[0]
        case SongStartedEvent(s) => SongStarted(st, s)
        case NextTrackEvent(reply, agg, queueThrows) => NextTrack(st, reply, agg, queueThrows).0;
      Replay(next, events[1..])
  }

  /**
   * Without startPlay no bucket ever becomes current: the callbacks keep the
   * current bucket or cancel it, and calls into the playback service are only
   * ever added.
   */
  lemma {:induction false} NoNewBucketWithoutStartPlay(st: PlayState, events: seq<Event>)
    ensures Replay(st, events).current in {st.current, None}
    ensures st.effects <= Replay(st, events).effects
    decreases |events|
  {
    if |events| > 0 {
      var next := match events[0]
        case SongStartedEvent(s) => SongStarted(st, s)
        case NextTrackEvent(reply, agg, queueThrows) => NextTrack(st, reply, agg, queueThrows).0;
      NoNewBucketWithoutStartPlay(next, events[1..]);
    }
  }
}
