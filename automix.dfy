/**
 * AutoMixManager itself: the bucket list it keeps in memory, the preference
 * file it saves buckets to, and the two playback fields it updates from
 * startPlay, onSongStarted and the next-track runnable. Each method is
 * proved against the function of BucketPrefs or Playback that specifies it.
 */
module AutoMix {
  import opened Wrappers
  import opened JavaStrings
  import opened Preferences
  import opened BucketPrefs
  import opened Playback

  class AutoMixManager {
    /** The "automix_buckets" preference file. */
    var prefs: BucketStore
    /** mBuckets */
    var buckets: seq<Bucket>
    /** mCurrentPlayingBucket */
    var current: Option<Bucket>
    /** mExpectedSong */
    var expected: Option<string>
    /** The calls made into the playback service and the next-track threads started. */
    var effects: seq<Effect>

    /** The preference file only ever holds what the manager writes, so no getter throws. */
    ghost predicate Valid()
      reads this
    {
      WellTyped(prefs)
    }

    function State(): PlayState
      reads this
    {
      PlayState(current, expected, effects)
    }

    /** initialize: an empty bucket list filled from the preference file; nothing is playing yet. */
    constructor (store: BucketStore)
      requires WellTyped(store)
      ensures Valid() && prefs == store
      ensures MirrorsStore(buckets, prefs)
      ensures State() == PlayState(None, None, [])
    {
      prefs := store;
      buckets := [];
      current := None;
      expected := None;
      effects := [];
      new;
      ReadBucketsFromPrefs();
    }

    /** readBucketsFromPrefs: the list is cleared, then one restored bucket is added per stored id. */
    method ReadBucketsFromPrefs()
      requires Valid()
      modifies this
      ensures Valid() && prefs == old(prefs) && State() == old(State())
      ensures MirrorsStore(buckets, prefs)
    {
      assert StoredIds(prefs).Success?;
      var ids := GetStringSet(prefs, IdsKey, {}).value;
      buckets := [];
      var remaining := ids;
      while remaining != {}
        invariant Valid() && prefs == old(prefs) && State() == old(State())
        invariant remaining <= ids
        invariant SessionIds(buckets) == ids - remaining
        invariant DistinctIds(buckets)
        invariant AllRestored(buckets, prefs)
        decreases |remaining|
      {
        var id :| id in remaining;
        RestoreSucceeds(prefs, id);
        var bucket := Restore(prefs, id).value;
        AppendRestored(buckets, prefs, bucket);
        buckets := buckets + [bucket];
        remaining := remaining - {id};
      }
    }

    /**
     * saveBucket: nothing is written for a session in error; otherwise the
     * nine puts and the id set go into one editor, applied at once.
     */
    method SaveBucket(b: Bucket, sessionError: bool)
      requires Valid()
      modifies this
      ensures Valid() && buckets == old(buckets) && State() == old(State())
      ensures sessionError ==> prefs == old(prefs)
      ensures !sessionError ==> Success(prefs) == Save(old(prefs), b)
    {
      if !sessionError {
        var id := b.sessionId;
        var editor: Edits<PrefKey> := map[];
        editor := PutString(editor, FieldKey(Name, id), b.name);
        editor := PutFloat(editor, FieldKey(Adventurous, id), b.adventurousness);
        editor := PutFloat(editor, FieldKey(Energy, id), b.energy);
        editor := PutFloat(editor, FieldKey(Familiar, id), b.familiar);
        editor := PutString(editor, FieldKey(Moods, id), Some(Implode(b.moods, ",")));
        editor := PutString(editor, FieldKey(SongTypes, id), Some(Implode(b.songTypes, ",")));
        editor := PutFloat(editor, FieldKey(Speechiness, id), b.speechiness);
        editor := PutString(editor, FieldKey(Styles, id), Some(Implode(b.styles, ",")));
        editor := PutBoolean(editor, FieldKey(Taste, id), b.useTaste);

        assert StoredIds(prefs).Success?;
        var ids := GetStringSet(prefs, IdsKey, {}).value;
        editor := PutStringSet(editor, IdsKey, ids + {id});
        assert editor == SaveEdits(b, ids);
        SaveKeepsWellTyped(prefs, b);
        prefs := Apply(prefs, editor);
      }
    }

    /**
     * createBucket: the new bucket, with the session createPlaylistSession
     * gave it, is added to the list and then saved.
     */
    method CreateBucket(name: Option<string>, styles: seq<string>, moods: seq<string>, taste: bool,
                        adventurous: Float32, songTypes: seq<string>, speechiness: Float32,
                        energy: Float32, familiar: Float32, sessionId: string, sessionError: bool)
      returns (b: Bucket)
      requires Valid()
      modifies this
      ensures Valid() && State() == old(State())
      ensures b == Bucket(name, styles, moods, taste, adventurous, songTypes, speechiness, energy, familiar, sessionId)
      ensures buckets == old(buckets) + [b]
      ensures sessionError ==> prefs == old(prefs)
      ensures !sessionError ==> Success(prefs) == Save(old(prefs), b)
    {
      b := Bucket(name, styles, moods, taste, adventurous, songTypes, speechiness, energy, familiar, sessionId);
      buckets := buckets + [b];
      SaveBucket(b, sessionError);
    }

    /**
     * startPlay: after a ready check, up to five tries for a first track; a
     * found song is played and its bucket becomes current even when playSong
     * throws; an expired session is recreated and the procedure starts over.
     */
    method StartPlay(b: Bucket, rounds: seq<Round>, agg: Aggregator) returns (outcome: StartOutcome)
      requires Valid() && WellFormedRounds(rounds)
      modifies this
      ensures Valid() && prefs == old(prefs) && buckets == old(buckets)
      ensures (State(), outcome) == Playback.StartPlay(old(State()), b, rounds, agg)
      decreases |rounds|
    {
      if |rounds| == 0 {
        return RoundsExhausted;
      }
      var round := rounds[0];
      if !round.ready {
        return NotReady;
      }
      var fetch := TryGetFirstTrack(round.replies);
      match fetch {
        case Exhausted(_) =>
          outcome := NoTrack;
        case Fetched(ref, _) =>
          var s := GetSongFromRef(agg, ref);
          if s.Some? {
            expected := Some(s.value.ref);
            effects := effects + [PlaySong(s.value)];
            current := Some(b);
            outcome := Started(s.value, round.playThrows);
          } else {
            outcome := SongNotFound(ref);
          }
        case Failed(code, message, _) =>
          if SessionExpired(code, message, round.sessionError) {
            outcome := StartPlay(b.(sessionId := round.renewedId), rounds[1..], agg);
          } else {
            outcome := FetchFailed(code, message);
          }
      }
    }

    /** onSongStarted: cancel AutoMix on an unexpected song, or start fetching the next track. */
    method OnSongStarted(s: Song)
      modifies this
      ensures prefs == old(prefs) && buckets == old(buckets)
      ensures State() == SongStarted(old(State()), s)
    {
      if expected != Some(s.ref) {
        current := None;
      } else if current.Some? {
        effects := effects + [FetchNextTrack];
      }
    }

    /** The next-track runnable: fetch a ref from the current bucket and queue its song. */
    method RunNextTrack(reply: TrackReply, agg: Aggregator, queueThrows: bool) returns (outcome: NextOutcome)
      modifies this
      ensures prefs == old(prefs) && buckets == old(buckets)
      ensures (State(), outcome) == NextTrack(old(State()), reply, agg, queueThrows)
    {
      if current.None? {
        return NoCurrentBucket;
      }
      if reply.EchoNestError? {
        return FetchError(reply.code, reply.message);
      }
      var nextTrackRef := if reply.TrackRef? then Some(reply.ref) else None;
      var nextTrack := if nextTrackRef.Some? then GetSongFromRef(agg, nextTrackRef.value) else None;
      if nextTrack.Some? {
        effects := effects + [QueueSong(nextTrack.value)];
        if queueThrows {
          return Queued(nextTrack.value, true);
        }
        outcome := Queued(nextTrack.value, false);
      } else {
        outcome := NothingToQueue(nextTrackRef);
      }
      expected := nextTrackRef;
    }
  }
}
