/**
 * The durable key-value store (browser local storage) and how the roster
 * is loaded from it. JSON serialisation is abstract: a pair of functions
 * whose only known law, where a proof needs it, is `Lawful`.
 */
module Storage {
  import opened Wrappers
  import opened Students
  import opened Backfill

  /** Local storage: string keys to string values; a missing key reads as null. */
  type Store = map<string, string>

  /** The one key the application uses. */
  const StudentsKey: string := "students"

  /** JSON.parse rejecting its text. */
  datatype ParseError = MalformedJson

  /** JSON.stringify and JSON.parse, restricted to rosters. */
  datatype Codec = Codec(
    serialize: seq<Student> -> string,
    deserialize: string -> Result<seq<Student>, ParseError>)

  /**
   * What JSON is known to do with a roster: parsing its text gives the
   * roster back, and the text is never empty (a JSON array starts with '[').
   */
  ghost predicate Lawful(c: Codec) {
    forall r: seq<Student> :: c.deserialize(c.serialize(r)) == Success(r) && c.serialize(r) != ""
  }

  /** localStorage.setItem: writes one key and touches no other. */
  function SetItem(store: Store, key: string, value: string): (s: Store)
    ensures s.Keys == store.Keys + {key} && s[key] == value
    ensures forall k :: k in store && k != key ==> s[k] == store[k]
  {
    store[key := value]
  }

  /** The save effect: the serialised roster under the students key. */
  function Save(store: Store, codec: Codec, roster: seq<Student>): (s: Store)
    ensures StudentsKey in s && s[StudentsKey] == codec.serialize(roster)
    ensures forall k :: k in store && k != StudentsKey ==> k in s && s[k] == store[k]
    ensures forall k :: k in s && k != StudentsKey ==> k in store
  {
    SetItem(store, StudentsKey, codec.serialize(roster))
  }

  /** The saved value is truthy: present (not null) and not the empty string. */
  predicate HasSaved(store: Store) {
    StudentsKey in store && Truthy(store[StudentsKey])
  }

  /**
   * The initial roster: the parsed saved value when there is one, otherwise
   * the seed with its ids backfilled. A saved value JSON cannot parse is the
   * failure; the seed path never fails.
   */
  function InitialStudents(store: Store, seed: seq<Student>, codec: Codec, gen: nat -> Uuid)
    : (r: Result<seq<Student>, ParseError>)
    ensures HasSaved(store) ==> r == codec.deserialize(store[StudentsKey])
    ensures !HasSaved(store) ==> r == Success(Backfilled(seed, gen, 0))
    ensures r.Failure? ==> HasSaved(store)
    ensures !HasSaved(store) ==> r.Success? && |r.value| == |seed|
  {
    if HasSaved(store) then codec.deserialize(store[StudentsKey])
    else Success(Backfilled(seed, gen, 0))
  }

  /**
   * With nothing saved, the initial roster is the seed in order, every truthy
   * seed id kept, every other field kept, and every id truthy.
   */
  lemma SeedFallback(store: Store, seed: seq<Student>, codec: Codec, gen: nat -> Uuid)
    requires !HasSaved(store)
    ensures InitialStudents(store, seed, codec, gen).Success?
    ensures var r := InitialStudents(store, seed, codec, gen).value;
      && |r| == |seed|
      && (forall i :: 0 <= i < |r| ==> Truthy(r[i].id))
      && (forall i :: 0 <= i < |r| && Truthy(seed[i].id) ==> r[i] == seed[i])
      && (forall i :: 0 <= i < |r| ==> r[i].(id := seed[i].id) == seed[i])
  {
    BackfillSound(seed, gen, 0);
  }

  /**
   * A roster saved through a lawful codec is exactly what the next initial
   * load returns, whatever the seed and the generator.
   */
  lemma ReloadAfterSave(store: Store, roster: seq<Student>, seed: seq<Student>, codec: Codec, gen: nat -> Uuid)
    requires Lawful(codec)
    ensures InitialStudents(Save(store, codec, roster), seed, codec, gen) == Success(roster)
  {
    assert codec.deserialize(codec.serialize(roster)) == Success(roster);
  }
}
