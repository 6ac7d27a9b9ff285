# AutoMix manager model

A Dafny model of `AutoMixManager`, the class of the Encore/OmniMusic player that
keeps the AutoMix "buckets" (saved EchoNest playlist settings) and drives AutoMix
playback. The model has two parts.

**Bucket persistence.**
- A bucket is stored in the `automix_buckets` preference file as nine keys. Each key is a fixed prefix followed by the bucket's session id.
- The three string lists (styles, moods, song types) are stored comma-joined.
- A `buckets_ids` key holds the set of saved session ids.
- `restoreBucketFromId` reads the nine keys back. A missing key gives a fixed default. Each list is rebuilt with Java's `String.split(",")`.
- `readBucketsFromPrefs` rebuilds the in-memory list from the id set.

**AutoMix playback.**
- The manager tracks the bucket being played (`mCurrentPlayingBucket`) and the ref of the song it expects to start next (`mExpectedSong`).
- `startPlay` asks the bucket for a first track up to five times. It plays the song found and makes the bucket current. When the EchoNest session has expired, it recreates the session and starts over.
- `onSongStarted` cancels AutoMix when an unexpected song starts. Otherwise it starts the next-track thread.
- That thread queues the next song and records its ref as the expected one.

Modules:
- `Wrappers`: `Option` and `Result`.
- `JavaStrings`: `Utils.implode` and Java's `String.split(",")` with its default limit of zero, including the dropping of trailing empty strings. Also `String.contains`.
- `Preferences`: `SharedPreferences` as a map with typed getters. An editor is a map of pending puts, where a `null` string removes its key, applied at once.
- `BucketPrefs`: keys, the `Bucket` value, `Save` and `Restore`, and the invariant `WellTyped`. Under `WellTyped` no getter throws `ClassCastException`.
- `Playback`: the playback state machine as functions, plus the retry loop as a method.
- `AutoMix`: the class `AutoMixManager`. Its fields are the preference file, `mBuckets`, the two playback fields, and the list of calls made into the playback service. Each method is proved against the function that specifies it.

Keys are the datatype `PrefKey`: the id-set key, or a field together with a session id. `KeyName` gives the string Android stores. `KeyNameInjective` proves that two different keys never share a string, so a map over `PrefKey` behaves like the string-keyed file. Floats are only stored and copied, so they are kept as opaque 32-bit patterns; `-1.0f` is `0xBF800000`.

The collaborators the manager calls but does not contain are inputs to the model:
- The answers of `AutoMixBucket.getNextTrack` are a `TrackReply` sequence: a ref, `null`, or an `EchoNestException`.
- The session flags and the id `createPlaylistSession` produces are explicit parameters. For `startPlay` they come as one `Round` per (re)start.
- `ProviderAggregator` is modelled as its song tables.
- Whether `playSong` or `queueSong` throws `RemoteException` is a boolean.
- The new thread started by `onSongStarted` is a recorded `FetchNextTrack` call. The runnable is a separate method, `RunNextTrack`.

## Model

| member | source | states |
|---|---|---|
| JavaStrings.SplitImplodeRoundTrip | src/main/java/org/omnirom/music/api/echonest/AutoMixManager.java:195-199 | Splitting a comma-joined list on "," gives the list back exactly when it is representable: it has at least one item, no item holds a comma, and the last item is non-empty unless it is the only one. |
| JavaStrings.ContainsOccurs | src/main/java/org/omnirom/music/api/echonest/AutoMixManager.java:265 | `Contains(s, sub)` holds exactly when `sub` occurs at some position of `s`. |
| BucketPrefs.KeyNameInjective | src/main/java/org/omnirom/music/api/echonest/AutoMixManager.java:47-57 | Two keys with the same string are the same key. A prefix plus an id determines both, and "buckets_ids" never collides with a field key. |
| BucketPrefs.SavePutsFields | src/main/java/org/omnirom/music/api/echonest/AutoMixManager.java:164-172 | After the nine puts, the editor holds every field of the bucket's id with its encoding. A null name is a removal. The editor holds no other key. |
| BucketPrefs.SaveWritesExactly | src/main/java/org/omnirom/music/api/echonest/AutoMixManager.java:158-182 | A successful save writes the nine keys of the bucket's id. The name key is absent when the name is null. The stored id set becomes the old set plus the id. Every other key keeps its presence and value. |
| BucketPrefs.SaveKeepsWellTyped | src/main/java/org/omnirom/music/api/echonest/AutoMixManager.java:164-176 | A save of a well-typed file succeeds (its `getStringSet` does not throw) and leaves the file well typed. |
| BucketPrefs.RestoreSucceeds | src/main/java/org/omnirom/music/api/echonest/AutoMixManager.java:190-205 | On a well-typed file no getter throws, and the restored bucket carries the requested id. |
| BucketPrefs.RestoreMissing | src/main/java/org/omnirom/music/api/echonest/AutoMixManager.java:194-202 | An id with no stored keys restores to: name null, taste false, all four levels -1.0f, every list `[""]`. |
| BucketPrefs.RestoreAfterSave | src/main/java/org/omnirom/music/api/echonest/AutoMixManager.java:164-204 | Restoring the id just saved gives back the bucket. Name, taste, the four levels and the id are equal. Each list is `split(implode(list))`. |
| BucketPrefs.RestoreOtherAfterSave | src/main/java/org/omnirom/music/api/echonest/AutoMixManager.java:190-205 | Saving one bucket does not change what any other id restores to. |
| BucketPrefs.ReloadedUnchanged | src/main/java/org/omnirom/music/api/echonest/AutoMixManager.java:195-199 | A bucket survives a save and restore unchanged if and only if its three lists are representable. |
| BucketPrefs.MirrorsStoreSize | src/main/java/org/omnirom/music/api/echonest/AutoMixManager.java:117-127 | A list that mirrors the file holds exactly as many buckets as there are stored ids. |
| BucketPrefs.SavedBucketIsReread | src/main/java/org/omnirom/music/api/echonest/AutoMixManager.java:117-127 | After a successful save, a list re-read from the file contains the saved bucket, with its lists re-split. |
| Playback.GetSongFromRef | src/main/java/org/omnirom/music/api/echonest/AutoMixManager.java:281-298 | A cached song wins. Without a preferred Rosetta Stone prefix, only the cache is consulted. Otherwise the answer is the preferred provider's song, or null when that prefix has no identifier. |
| Playback.SongComesFromCacheOrPreferred | src/main/java/org/omnirom/music/api/echonest/AutoMixManager.java:281-298 | A song that is found comes from the cache under its ref, or from the preferred provider under its ref. |
| Playback.FirstTrackFacts | src/main/java/org/omnirom/music/api/echonest/AutoMixManager.java:239-243 | The loop makes 1 to 5 calls. Every answer before the last call is null. It stops at the first non-null ref or the first exception. It ends empty-handed if and only if all five answers are null, and then after exactly five calls. |
| Playback.TryGetFirstTrack | src/main/java/org/omnirom/music/api/echonest/AutoMixManager.java:236-243 | The while loop returns exactly `FirstTrack(replies)`, whose properties `FirstTrackFacts` proves. |
| Playback.StartPlay | src/main/java/org/omnirom/music/api/echonest/AutoMixManager.java:226-274 | A bucket that is not ready changes nothing. Every outcome other than a started song leaves the state unchanged, including five null refs, a song not found, and a fetch error. A started song makes the bucket current (only its session id may have been renewed), sets the expected ref to the song's ref, and records one `playSong` call. |
| Playback.StartPlayFirstRound | src/main/java/org/omnirom/music/api/echonest/AutoMixManager.java:245-262 | When the first ready round fetches a ref, the outcome is "song not found" exactly when the lookup finds nothing. Otherwise the looked-up song is played and the bucket as given becomes current. |
| Playback.StartPlayIgnoresPlayFailure | src/main/java/org/omnirom/music/api/echonest/AutoMixManager.java:251-259 | Whether `playSong` throws never changes the new state. The assignments around the call, including the one in `finally`, happen either way. |
| Playback.SongStarted | src/main/java/org/omnirom/music/api/echonest/AutoMixManager.java:302-310 | The expected ref never changes. A started ref different from the expected one (or no expected one) clears the current bucket and nothing else. A matching ref with a bucket requests exactly one next-track fetch. A matching ref without a bucket changes nothing. |
| Playback.NextTrack | src/main/java/org/omnirom/music/api/echonest/AutoMixManager.java:68-89 | The current bucket never changes. With no bucket, or on an EchoNest error, the state is unchanged. A song is queued if and only if the bucket yields a ref whose song is found. The expected ref becomes the fetched ref unless `queueSong` throws. Nothing found leaves the expected ref equal to the fetched ref, or null. |
| Playback.NoNewBucketWithoutStartPlay | src/main/java/org/omnirom/music/api/echonest/AutoMixManager.java:302-310 | Over any sequence of song-started callbacks and next-track runs, the current bucket stays as it was or becomes null. Calls into the playback service are only ever appended. |
| AutoMix.AutoMixManager.constructor | src/main/java/org/omnirom/music/api/echonest/AutoMixManager.java:100-104 | After `initialize`, the bucket list mirrors the preference file and nothing is playing. |
| AutoMix.AutoMixManager.ReadBucketsFromPrefs | src/main/java/org/omnirom/music/api/echonest/AutoMixManager.java:117-127 | The list is replaced by one restored bucket per stored id, with distinct ids and nothing from before. The file and the playback state are unchanged. |
| AutoMix.AutoMixManager.SaveBucket | src/main/java/org/omnirom/music/api/echonest/AutoMixManager.java:158-182 | For a session in error, the file is unchanged. Otherwise the step-by-step puts and `apply` produce exactly `Save(old file, bucket)`. The file stays well typed. |
| AutoMix.AutoMixManager.CreateBucket | src/main/java/org/omnirom/music/api/echonest/AutoMixManager.java:142-152 | The bucket built from the arguments and its new session is appended to the list, then saved as `SaveBucket` states. |
| AutoMix.AutoMixManager.StartPlay | src/main/java/org/omnirom/music/api/echonest/AutoMixManager.java:226-274 | The new playback state and the outcome are exactly those of `Playback.StartPlay`. The file and the list are unchanged. |
| AutoMix.AutoMixManager.OnSongStarted | src/main/java/org/omnirom/music/api/echonest/AutoMixManager.java:302-310 | The new playback state is exactly `Playback.SongStarted` of the old one. |
| AutoMix.AutoMixManager.RunNextTrack | src/main/java/org/omnirom/music/api/echonest/AutoMixManager.java:68-89 | The new playback state and the outcome are exactly those of `Playback.NextTrack`. |

## Left out

- `Utils.implode` is not part of this model. It is taken to join the items with the separator between consecutive items, with no items giving "".
- The preference file is the in-memory map only. Writing it to disk is not modelled. That includes Android's rule that the set returned by `getStringSet` must not be modified, which `saveBucket` breaks by adding the id to it.
- A value of the wrong type under a key makes a getter throw `ClassCastException`. The getters model this as a failure, and the class keeps `WellTyped` as its invariant so the failure cannot happen. The constructor therefore requires a well-typed file.
- Logging, the toast shown after five null refs, `getPrefs`, and the trivial getters `getBuckets` and `getCurrentPlayingBucket` are not modelled.
- Threads are not modelled. The next-track thread is a recorded call, and its run is a separate step that may come at any later point.
- A null `IPlaybackService` (an NPE inside `startPlay` or the runnable) is not modelled.
- A `null` message on an `EchoNestException` (an NPE in `contains`) is not modelled.
- `getNextTrack` returning null in the runnable is taken to make `getSongFromRef(null)` find no song.
- `ProviderAggregator.retrieveSong` is not part of this model. It is taken to be a lookup in the cache (no provider) or in the given provider's songs.
- AutoMix.AutoMixManager.StartPlay: a session recreated after expiry is carried in the bucket value the recursion continues with. The bucket object shared with `mBuckets` is not updated in place, so that aliasing is not captured.
- AutoMix.AutoMixManager.StartPlay: the recursion on an expired session is bounded by the rounds given. When they run out, the outcome is `RoundsExhausted` with the state unchanged. What `createPlaylistSession` does to end the recursion is not part of this model.
- AutoMix.AutoMixManager.RunNextTrack: with no current bucket, the source throws a `NullPointerException` in the thread. The model returns `NoCurrentBucket` and leaves the state unchanged.
- The Android UI files and the provider plumbing around the manager are not part of this model.
