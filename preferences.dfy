/**
 * Android's SharedPreferences as the manager uses them: one map from keys to
 * typed values, typed getters with a default for a missing key, and an editor
 * that collects puts and applies them together. The key type is a parameter:
 * the manager's keys are strings built from a fixed prefix and a session id,
 * and are modelled by a datatype whose string form is proved collision-free.
 */
module Preferences {
  import opened Wrappers

  /** A float is kept as its IEEE-754 single-precision bit pattern: it is only stored and copied. */
  type Float32 = bv32

  datatype PrefValue =
    | StringValue(text: string)
    | FloatValue(number: Float32)
    | BooleanValue(flag: bool)
    | StringSetValue(strings: set<string>)

  type Store<K> = map<K, PrefValue>

  /** An editor's pending changes: Some(v) puts v, None removes the key. */
  type Edits<K> = map<K, Option<PrefValue>>

  /** Reading a key that holds a value of another type throws ClassCastException. */
  datatype PrefError<K> = ClassCast(key: K)

  /** Commits an editor: every edited key takes its new value or disappears; the others stay. */
  function Apply<K(!new)>(store: Store<K>, edits: Edits<K>): (r: Store<K>)
    ensures forall k :: k in edits ==> (k in r <==> edits[k].Some?)
    ensures forall k :: k in edits && edits[k].Some? ==> r[k] == edits[k].value
    ensures forall k :: k !in edits ==> (k in r <==> k in store)
    ensures forall k :: k !in edits && k in store ==> r[k] == store[k]
  {
    map k | k in store.Keys + edits.Keys && (k in edits ==> edits[k].Some?) ::
      if k in edits then edits[k].value else store[k]
  }

  /** Editor.putString: a null value is the same as removing the key. */
  function PutString<K>(edits: Edits<K>, key: K, value: Option<string>): Edits<K>
  {
    edits[key := if value.Some? then Some(StringValue(value.value)) else None]
  }

  function PutFloat<K>(edits: Edits<K>, key: K, value: Float32): Edits<K>
  {
    edits[key := Some(FloatValue(value))]
  }

  function PutBoolean<K>(edits: Edits<K>, key: K, value: bool): Edits<K>
  {
    edits[key := Some(BooleanValue(value))]
  }

  function PutStringSet<K>(edits: Edits<K>, key: K, value: set<string>): Edits<K>
  {
    edits[key := Some(StringSetValue(value))]
  }

  /** getString(key, defValue) with a possibly null default. */
  function GetString<K>(store: Store<K>, key: K, default: Option<string>): Result<Option<string>, PrefError<K>>
  {
    if key !in store then Success(default)
    else if store[key].StringValue? then Success(Some(store[key].text))
    else Failure(ClassCast(key))
  }

  /** getString(key, defValue) with a non-null default, which therefore never answers null. */
  function GetText<K>(store: Store<K>, key: K, default: string): Result<string, PrefError<K>>
  {
    if key !in store then Success(default)
    else if store[key].StringValue? then Success(store[key].text)
    else Failure(ClassCast(key))
  }

  function GetFloat<K>(store: Store<K>, key: K, default: Float32): Result<Float32, PrefError<K>>
  {
    if key !in store then Success(default)
    else if store[key].FloatValue? then Success(store[key].number)
    else Failure(ClassCast(key))
  }

  function GetBoolean<K>(store: Store<K>, key: K, default: bool): Result<bool, PrefError<K>>
  {
    if key !in store then Success(default)
    else if store[key].BooleanValue? then Success(store[key].flag)
    else Failure(ClassCast(key))
  }

  function GetStringSet<K>(store: Store<K>, key: K, default: set<string>): Result<set<string>, PrefError<K>>
  {
    if key !in store then Success(default)
    else if store[key].StringSetValue? then Success(store[key].strings)
    else Failure(ClassCast(key))
  }
}
