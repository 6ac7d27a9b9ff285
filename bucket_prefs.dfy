/**
 * How AutoMixManager persists its buckets in the "automix_buckets" preference
 * file: nine keys per bucket, each a fixed prefix followed by the bucket's
 * session id, plus the key "buckets_ids" holding the set of saved session ids.
 * Keys are modelled by the datatype PrefKey; KeyName gives the string Android
 * sees, and KeyNameInjective shows two different keys never share a string.
 */
module BucketPrefs {
  import opened Wrappers
  import opened JavaStrings
  import opened Preferences

  /** The nine stored fields of a bucket. */
  datatype Field = Name | Styles | Moods | Taste | Adventurous | SongTypes | Speechiness | Energy | Familiar

  /** The key prefix each field is stored under. */
  function Prefix(f: Field): (p: string)
    ensures |p| > 8 && p[6] == '_'
  {
    match f
    case Name => "bucket_name_"
    case Styles => "bucket_styles_"
    case Moods => "bucket_moods_"
    case Taste => "bucket_taste_"
    case Adventurous => "bucket_adventurous_"
    case SongTypes => "bucket_song_types_"
    case Speechiness => "bucket_speechiness_"
    case Energy => "bucket_energy_"
    case Familiar => "bucket_familiar_"
  }

  const IdsKeyName := "buckets_ids"

  /** A key of the preference file: the id set, or one field of the bucket with a session id. */
  datatype PrefKey = IdsKey | FieldKey(field: Field, id: string)

  /** The string under which Android stores a key. */
  function KeyName(k: PrefKey): string
  {
    match k
    case IdsKey => IdsKeyName
    case FieldKey(f, id) => Prefix(f) + id
  }

  type BucketStore = Store<PrefKey>

  /** The bit pattern of -1.0f, the default of a missing level. */
  const Unset: Float32 := 0xBF80_0000

  /** An AutoMix bucket's settings and the recommendation session it is tied to. */
  datatype Bucket = Bucket(
    name: Option<string>,
    styles: seq<string>,
    moods: seq<string>,
    useTaste: bool,
    adventurousness: Float32,
    songTypes: seq<string>,
    speechiness: Float32,
    energy: Float32,
    familiar: Float32,
    sessionId: string)

  datatype Kind = TextKind | FloatKind | BooleanKind | StringSetKind

  function KindOf(v: PrefValue): Kind
  {
    match v
    case StringValue(_) => TextKind
    case FloatValue(_) => FloatKind
    case BooleanValue(_) => BooleanKind
    case StringSetValue(_) => StringSetKind
  }

  /** The type the manager reads and writes under a key. */
  function KeyKind(k: PrefKey): Kind
  {
    match k
    case IdsKey => StringSetKind
    case FieldKey(f, _) =>
      match f
      case Name | Styles | Moods | SongTypes => TextKind
      case Taste => BooleanKind
      case Adventurous | Speechiness | Energy | Familiar => FloatKind
  }

  /** Every stored value has the type the manager gives its key. */
  ghost predicate WellTyped(store: BucketStore)
  {
    forall k :: k in store ==> KindOf(store[k]) == KeyKind(k)
  }

  /** The stored set of session ids, empty when the key is missing. */
  function StoredIds(store: BucketStore): Result<set<string>, PrefError<PrefKey>>
  {
    GetStringSet(store, IdsKey, {})
  }

  /** The value saveBucket puts under the key of field f; None removes the key (a null name). */
  function Encode(b: Bucket, f: Field): Option<PrefValue>
  {
    match f
    case Name => if b.name.Some? then Some(StringValue(b.name.value)) else None
    case Styles => Some(StringValue(Implode(b.styles, ",")))
    case Moods => Some(StringValue(Implode(b.moods, ",")))
    case Taste => Some(BooleanValue(b.useTaste))
    case Adventurous => Some(FloatValue(b.adventurousness))
    case SongTypes => Some(StringValue(Implode(b.songTypes, ",")))
    case Speechiness => Some(FloatValue(b.speechiness))
    case Energy => Some(FloatValue(b.energy))
    case Familiar => Some(FloatValue(b.familiar))
  }

  /** The editor after the nine puts of saveBucket, in the order it makes them. */
  function SavePuts(b: Bucket): Edits<PrefKey>
  {
    var id := b.sessionId;
    var e := PutString(map[], FieldKey(Name, id), b.name);
    var e := PutFloat(e, FieldKey(Adventurous, id), b.adventurousness);
    var e := PutFloat(e, FieldKey(Energy, id), b.energy);
    var e := PutFloat(e, FieldKey(Familiar, id), b.familiar);
    var e := PutString(e, FieldKey(Moods, id), Some(Implode(b.moods, ",")));
    var e := PutString(e, FieldKey(SongTypes, id), Some(Implode(b.songTypes, ",")));
    var e := PutFloat(e, FieldKey(Speechiness, id), b.speechiness);
    var e := PutString(e, FieldKey(Styles, id), Some(Implode(b.styles, ",")));
    PutBoolean(e, FieldKey(Taste, id), b.useTaste)
  }

  /** The editor of saveBucket once all its puts are made; ids is the stored id set. */
  function SaveEdits(b: Bucket, ids: set<string>): Edits<PrefKey>
  {
    SavePuts(b)[IdsKey := Some(StringSetValue(ids + {b.sessionId}))]
  }

  /** saveBucket on a bucket whose session is healthy: the store after editor.apply(). */
  function Save(store: BucketStore, b: Bucket): Result<BucketStore, PrefError<PrefKey>>
  {
    var ids :- StoredIds(store);
    Success(Apply(store, SaveEdits(b, ids)))
  }

  /** restoreBucketFromId: the bucket rebuilt from the keys of id, with defaults for missing keys. */
  function Restore(store: BucketStore, id: string): Result<Bucket, PrefError<PrefKey>>
  {
    var name :- GetString(store, FieldKey(Name, id), None);
    var styles :- GetText(store, FieldKey(Styles, id), "");
    var moods :- GetText(store, FieldKey(Moods, id), "");
    var taste :- GetBoolean(store, FieldKey(Taste, id), false);
    var adventurous :- GetFloat(store, FieldKey(Adventurous, id), Unset);
    var songTypes :- GetText(store, FieldKey(SongTypes, id), "");
    var speechiness :- GetFloat(store, FieldKey(Speechiness, id), Unset);
    var energy :- GetFloat(store, FieldKey(Energy, id), Unset);
    var familiar :- GetFloat(store, FieldKey(Familiar, id), Unset);
    Success(Bucket(name, SplitOnComma(styles), SplitOnComma(moods), taste, adventurous,
                   SplitOnComma(songTypes), speechiness, energy, familiar, id))
  }

  /** What a save followed by a restore gives back: each list goes through Implode and split. */
  function Reloaded(b: Bucket): Bucket
  {
    b.(styles := SplitOnComma(Implode(b.styles, ",")),
       moods := SplitOnComma(Implode(b.moods, ",")),
       songTypes := SplitOnComma(Implode(b.songTypes, ",")))
  }

  /** The bucket restored from an id none of whose keys is stored. */
  function Unsaved(id: string): Bucket
  {
    Bucket(None, [""], [""], false, Unset, [""], Unset, Unset, Unset, id)
  }

  // ---------------------------------------------------------------------------
  // Key strings

  /** The prefixes all begin with "bucket_" and are told apart by their next two characters. */
  lemma PrefixesDiffer(f: Field, g: Field)
    requires Prefix(f)[7] == Prefix(g)[7] && Prefix(f)[8] == Prefix(g)[8]
    ensures f == g
  {
  }

  /**
   * Different keys have different strings: a prefix plus a session id
   * determines both, and "buckets_ids" has an 's' where every prefix has '_'.
   */
  lemma KeyNameInjective(k: PrefKey, k': PrefKey)
    requires KeyName(k) == KeyName(k')
    ensures k == k'
  {
    var s := KeyName(k);
    if k.FieldKey? && k'.FieldKey? {
      var p, q := Prefix(k.field), Prefix(k'.field);
      assert s[7] == p[7] && s[8] == p[8];
      assert s[7] == q[7] && s[8] == q[8];
      PrefixesDiffer(k.field, k'.field);
      assert k.id == s[|p|..] == k'.id;
    }
  }

  // ---------------------------------------------------------------------------
  // Saving

  /** The puts of saveBucket cover every field of the bucket's id with its encoding, and nothing else. */
  lemma SavePutsFields(b: Bucket)
    ensures forall f :: FieldKey(f, b.sessionId) in SavePuts(b) && SavePuts(b)[FieldKey(f, b.sessionId)] == Encode(b, f)
    ensures forall k :: k in SavePuts(b) ==> k.FieldKey? && k.id == b.sessionId
  {
    forall f ensures FieldKey(f, b.sessionId) in SavePuts(b) && SavePuts(b)[FieldKey(f, b.sessionId)] == Encode(b, f) {
      SavePutsField(b, f);
    }
  }

  /** One field of the editor; the nine lookups are split in three to keep each proof small. */
  lemma SavePutsField(b: Bucket, f: Field)
    ensures FieldKey(f, b.sessionId) in SavePuts(b) && SavePuts(b)[FieldKey(f, b.sessionId)] == Encode(b, f)
  {
    if f == Name || f == Adventurous || f == Energy {
      SavePutsEarly(b, f);
    } else if f == Familiar || f == Moods || f == SongTypes {
      SavePutsMiddle(b, f);
    } else {
      SavePutsLate(b, f);
    }
  }

  lemma SavePutsEarly(b: Bucket, f: Field)
    requires f == Name || f == Adventurous || f == Energy
    ensures FieldKey(f, b.sessionId) in SavePuts(b) && SavePuts(b)[FieldKey(f, b.sessionId)] == Encode(b, f)
  {
  }

  lemma SavePutsMiddle(b: Bucket, f: Field)
    requires f == Familiar || f == Moods || f == SongTypes
    ensures FieldKey(f, b.sessionId) in SavePuts(b) && SavePuts(b)[FieldKey(f, b.sessionId)] == Encode(b, f)
  {
  }

  lemma SavePutsLate(b: Bucket, f: Field)
    requires f == Speechiness || f == Styles || f == Taste
    ensures FieldKey(f, b.sessionId) in SavePuts(b) && SavePuts(b)[FieldKey(f, b.sessionId)] == Encode(b, f)
  {
  }

  /**
   * A successful save writes the nine keys of the bucket's id (the name key is
   * removed when the name is null), adds the id to the stored id set keeping
   * every id already there, and leaves every other key as it was.
   */
  lemma SaveWritesExactly(store: BucketStore, b: Bucket)
    requires Save(store, b).Success?
    ensures var s := Save(store, b).value; var id := b.sessionId;
      && (forall f :: FieldKey(f, id) in s <==> Encode(b, f).Some?)
      && (forall f :: FieldKey(f, id) in s ==> s[FieldKey(f, id)] == Encode(b, f).value)
      && StoredIds(s) == Success(StoredIds(store).value + {id})
      && (forall k :: k != IdsKey && !(k.FieldKey? && k.id == id) ==>
            (k in s <==> k in store) && (k in store ==> s[k] == store[k]))
  {
    var ids := StoredIds(store).value;
    SavePutsFields(b);
    ApplySaveEdits(store, SaveEdits(b, ids), b, ids);
  }

  /** Applying an editor that holds b's encodings and the id set changes only those keys. */
  lemma ApplySaveEdits(store: BucketStore, edits: Edits<PrefKey>, b: Bucket, ids: set<string>)
    requires forall f :: FieldKey(f, b.sessionId) in edits && edits[FieldKey(f, b.sessionId)] == Encode(b, f)
    requires IdsKey in edits && edits[IdsKey] == Some(StringSetValue(ids + {b.sessionId}))
    requires forall k :: k in edits ==> k == IdsKey || (k.FieldKey? && k.id == b.sessionId)
    ensures var s := Apply(store, edits); var id := b.sessionId;
      && (forall f :: FieldKey(f, id) in s <==> Encode(b, f).Some?)
      && (forall f :: FieldKey(f, id) in s ==> s[FieldKey(f, id)] == Encode(b, f).value)
      && StoredIds(s) == Success(ids + {id})
      && (forall k :: k != IdsKey && !(k.FieldKey? && k.id == id) ==>
            (k in s <==> k in store) && (k in store ==> s[k] == store[k]))
  {
  }

  /** A save of a well-typed store succeeds and keeps the store well typed. */
  lemma SaveKeepsWellTyped(store: BucketStore, b: Bucket)
    requires WellTyped(store)
    ensures Save(store, b).Success? && WellTyped(Save(store, b).value)
  {
    assert StoredIds(store).Success?;
    SaveWritesExactly(store, b);
    WellTypedAfterWrites(store, Save(store, b).value, b);
  }

  /** A store that differs from a well-typed one only by b's encodings and a string set of ids is well typed. */
  lemma WellTypedAfterWrites(store: BucketStore, s: BucketStore, b: Bucket)
    requires WellTyped(store)
    requires forall f :: FieldKey(f, b.sessionId) in s ==> Encode(b, f).Some? && s[FieldKey(f, b.sessionId)] == Encode(b, f).value
    requires IdsKey in s ==> s[IdsKey].StringSetValue?
    requires forall k :: k != IdsKey && !(k.FieldKey? && k.id == b.sessionId) ==>
               (k in s <==> k in store) && (k in store ==> s[k] == store[k])
    ensures WellTyped(s)
  {
  }

  // ---------------------------------------------------------------------------
  // Restoring

  /** Restoring from a well-typed store never throws. */
  lemma RestoreSucceeds(store: BucketStore, id: string)
    requires WellTyped(store)
    ensures Restore(store, id).Success? && Restore(store, id).value.sessionId == id
  {
  }

  /**
   * An id with no stored keys restores to a null name, no taste profile, every
   * level -1 and every list equal to "".split(","), that is [""].
   */
  lemma RestoreMissing(store: BucketStore, id: string)
    requires forall f :: FieldKey(f, id) !in store
    ensures Restore(store, id) == Success(Unsaved(id))
  {
  }

  /** Restore builds its bucket from whatever the nine getters answer. */
  lemma RestoreFromValues(s: BucketStore, id: string, name: Option<string>, styles: string, moods: string,
                          taste: bool, adventurous: Float32, songTypes: string, speechiness: Float32,
                          energy: Float32, familiar: Float32)
    requires GetString(s, FieldKey(Name, id), None) == Success(name)
    requires GetText(s, FieldKey(Styles, id), "") == Success(styles)
    requires GetText(s, FieldKey(Moods, id), "") == Success(moods)
    requires GetBoolean(s, FieldKey(Taste, id), false) == Success(taste)
    requires GetFloat(s, FieldKey(Adventurous, id), Unset) == Success(adventurous)
    requires GetText(s, FieldKey(SongTypes, id), "") == Success(songTypes)
    requires GetFloat(s, FieldKey(Speechiness, id), Unset) == Success(speechiness)
    requires GetFloat(s, FieldKey(Energy, id), Unset) == Success(energy)
    requires GetFloat(s, FieldKey(Familiar, id), Unset) == Success(familiar)
    ensures Restore(s, id) == Success(Bucket(name, SplitOnComma(styles), SplitOnComma(moods), taste, adventurous,
                                             SplitOnComma(songTypes), speechiness, energy, familiar, id))
  {
  }

  /** A store holding exactly the encodings of b under b's keys answers each getter of
      restoreBucketFromId with the value saveBucket put. */
  lemma GettersOfEncoded(s: BucketStore, b: Bucket)
    requires forall f :: FieldKey(f, b.sessionId) in s <==> Encode(b, f).Some?
    requires forall f :: FieldKey(f, b.sessionId) in s ==> s[FieldKey(f, b.sessionId)] == Encode(b, f).value
    ensures var id := b.sessionId;
      && GetString(s, FieldKey(Name, id), None) == Success(b.name)
      && GetText(s, FieldKey(Styles, id), "") == Success(Implode(b.styles, ","))
      && GetText(s, FieldKey(Moods, id), "") == Success(Implode(b.moods, ","))
      && GetBoolean(s, FieldKey(Taste, id), false) == Success(b.useTaste)
      && GetFloat(s, FieldKey(Adventurous, id), Unset) == Success(b.adventurousness)
      && GetText(s, FieldKey(SongTypes, id), "") == Success(Implode(b.songTypes, ","))
      && GetFloat(s, FieldKey(Speechiness, id), Unset) == Success(b.speechiness)
      && GetFloat(s, FieldKey(Energy, id), Unset) == Success(b.energy)
      && GetFloat(s, FieldKey(Familiar, id), Unset) == Success(b.familiar)
  {
    assert FieldKey(Name, b.sessionId) in s <==> b.name.Some?;
  }

  /** Restoring the id of a bucket just saved gives back the bucket, with its lists re-split. */
  lemma RestoreAfterSave(store: BucketStore, b: Bucket)
    requires Save(store, b).Success?
    ensures Restore(Save(store, b).value, b.sessionId) == Success(Reloaded(b))
  {
    SaveWritesExactly(store, b);
    GettersOfEncoded(Save(store, b).value, b);
    RestoreFromValues(Save(store, b).value, b.sessionId, b.name, Implode(b.styles, ","),
                      Implode(b.moods, ","), b.useTaste, b.adventurousness,
                      Implode(b.songTypes, ","), b.speechiness, b.energy, b.familiar);
  }

  /** Restore reads nothing but the nine keys of its id. */
  lemma RestoreReadsOwnKeys(s: BucketStore, s': BucketStore, id: string)
    requires forall f :: (FieldKey(f, id) in s <==> FieldKey(f, id) in s')
    requires forall f :: FieldKey(f, id) in s ==> s[FieldKey(f, id)] == s'[FieldKey(f, id)]
    ensures Restore(s, id) == Restore(s', id)
  {
    assert GetString(s, FieldKey(Name, id), None) == GetString(s', FieldKey(Name, id), None);
    assert GetText(s, FieldKey(Styles, id), "") == GetText(s', FieldKey(Styles, id), "");
    assert GetText(s, FieldKey(Moods, id), "") == GetText(s', FieldKey(Moods, id), "");
    assert GetBoolean(s, FieldKey(Taste, id), false) == GetBoolean(s', FieldKey(Taste, id), false);
    assert GetFloat(s, FieldKey(Adventurous, id), Unset) == GetFloat(s', FieldKey(Adventurous, id), Unset);
    assert GetText(s, FieldKey(SongTypes, id), "") == GetText(s', FieldKey(SongTypes, id), "");
    assert GetFloat(s, FieldKey(Speechiness, id), Unset) == GetFloat(s', FieldKey(Speechiness, id), Unset);
    assert GetFloat(s, FieldKey(Energy, id), Unset) == GetFloat(s', FieldKey(Energy, id), Unset);
    assert GetFloat(s, FieldKey(Familiar, id), Unset) == GetFloat(s', FieldKey(Familiar, id), Unset);
  }

  /** Saving one bucket does not change what any other id restores to. */
  lemma RestoreOtherAfterSave(store: BucketStore, b: Bucket, id: string)
    requires Save(store, b).Success?
    requires id != b.sessionId
    ensures Restore(Save(store, b).value, id) == Restore(store, id)
  {
    SaveWritesExactly(store, b);
    RestoreReadsOwnKeys(Save(store, b).value, store, id);
  }

  /** A bucket comes back from a save and a restore unchanged exactly when its three lists are representable. */
  lemma ReloadedUnchanged(b: Bucket)
    ensures Reloaded(b) == b <==>
      Representable(b.styles) && Representable(b.moods) && Representable(b.songTypes)
  {
    SplitImplodeRoundTrip(b.styles);
    SplitImplodeRoundTrip(b.moods);
    SplitImplodeRoundTrip(b.songTypes);
    if Reloaded(b) == b {
      assert Reloaded(b).styles == b.styles && Reloaded(b).moods == b.moods;
      assert Reloaded(b).songTypes == b.songTypes;
    }
  }

  // ---------------------------------------------------------------------------
  // The in-memory bucket list

  function SessionIds(buckets: seq<Bucket>): set<string>
  {
    set i | 0 <= i < |buckets| :: buckets[i].sessionId
  }

  predicate DistinctIds(buckets: seq<Bucket>)
  {
    forall i, j :: 0 <= i < j < |buckets| ==> buckets[i].sessionId != buckets[j].sessionId
  }

  /** readBucketsFromPrefs' result: one restored bucket per stored session id, and nothing else. */
  predicate MirrorsStore(buckets: seq<Bucket>, store: BucketStore)
  {
    && StoredIds(store).Success?
    && DistinctIds(buckets)
    && SessionIds(buckets) == StoredIds(store).value
    && AllRestored(buckets, store)
  }

  /** Every bucket of the list is what its id restores to in the store. */
  predicate AllRestored(buckets: seq<Bucket>, store: BucketStore)
  {
    forall i :: 0 <= i < |buckets| ==> Restore(store, buckets[i].sessionId) == Success(buckets[i])
  }

  /** Adding the bucket restored from a new id keeps the ids distinct and every bucket restored. */
  lemma AppendRestored(buckets: seq<Bucket>, store: BucketStore, b: Bucket)
    requires DistinctIds(buckets) && AllRestored(buckets, store)
    requires Restore(store, b.sessionId) == Success(b) && b.sessionId !in SessionIds(buckets)
    ensures SessionIds(buckets + [b]) == SessionIds(buckets) + {b.sessionId}
    ensures DistinctIds(buckets + [b]) && AllRestored(buckets + [b], store)
  {
    var extended := buckets + [b];
    forall x | x in SessionIds(extended) ensures x in SessionIds(buckets) + {b.sessionId} {
      var i :| 0 <= i < |extended| && extended[i].sessionId == x;
      if i < |buckets| {
        assert buckets[i].sessionId == x;
      }
    }
    forall x | x in SessionIds(buckets) ensures x in SessionIds(extended) {
      var i :| 0 <= i < |buckets| && buckets[i].sessionId == x;
      assert extended[i].sessionId == x;
    }
    assert extended[|buckets|].sessionId == b.sessionId;
    forall i, j | 0 <= i < j < |extended| ensures extended[i].sessionId != extended[j].sessionId {
      if j == |buckets| {
        assert buckets[i].sessionId in SessionIds(buckets);
      }
    }
  }

  lemma {:induction false} DistinctIdsCount(buckets: seq<Bucket>)
    requires DistinctIds(buckets)
    ensures |SessionIds(buckets)| == |buckets|
  {
    if |buckets| > 0 {
      var n := |buckets| - 1;
      var front := buckets[..n];
      DistinctIdsCount(front);
      assert SessionIds(buckets) == SessionIds(front) + {buckets[n].sessionId};
      assert buckets[n].sessionId !in SessionIds(front);
    }
  }

  /** A list that mirrors the store holds as many buckets as there are stored ids. */
  lemma MirrorsStoreSize(buckets: seq<Bucket>, store: BucketStore)
    requires MirrorsStore(buckets, store)
    ensures |buckets| == |StoredIds(store).value|
  {
    DistinctIdsCount(buckets);
  }

  /** After a successful save, re-reading the store yields the saved bucket (lists re-split). */
  lemma SavedBucketIsReread(store: BucketStore, b: Bucket, buckets: seq<Bucket>)
    requires Save(store, b).Success?
    requires MirrorsStore(buckets, Save(store, b).value)
    ensures Reloaded(b) in buckets
  {
    SaveWritesExactly(store, b);
    assert b.sessionId in SessionIds(buckets);
    var i :| 0 <= i < |buckets| && buckets[i].sessionId == b.sessionId;
    RestoreAfterSave(store, b);
  }
}
