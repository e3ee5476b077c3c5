/**
 * The browser's key-value store, modelled as a map from key to the record
 * saved under it. Serialisation is taken to be faithful: reading a key gives
 * back the record last written there.
 */
module Storage {
  import opened Wrappers
  import opened Checklist
  import opened Preferences
  import opened Digests

  datatype Record =
    | TestStatesRecord(states: TestStates)
    | PreferencesRecord(prefs: Prefs)
    | DigestRecord(digest: Digest)

  type Store = map<string, Record>

  const TestStatesKey: string := "jnt_test_states"
  const PreferencesKey: string := "jnt_preferences"
  const DigestKey: string := "jnt_digest"

  /** The checklist saved in the store, if any. */
  function SavedTestStates(store: Store): (r: Option<TestStates>)
    ensures r.Some? <==> TestStatesKey in store && store[TestStatesKey].TestStatesRecord?
    ensures r.Some? ==> store[TestStatesKey] == TestStatesRecord(r.value)
  {
    if TestStatesKey in store && store[TestStatesKey].TestStatesRecord?
    then Some(store[TestStatesKey].states) else None
  }

  /** The preferences saved in the store, if any. */
  function SavedPreferences(store: Store): (r: Option<Prefs>)
    ensures r.Some? <==> PreferencesKey in store && store[PreferencesKey].PreferencesRecord?
    ensures r.Some? ==> store[PreferencesKey] == PreferencesRecord(r.value)
  {
    if PreferencesKey in store && store[PreferencesKey].PreferencesRecord?
    then Some(store[PreferencesKey].prefs) else None
  }

  /** The digest saved in the store, if any, fresh or not. */
  function SavedDigest(store: Store): (r: Option<Digest>)
    ensures r.Some? <==> DigestKey in store && store[DigestKey].DigestRecord?
    ensures r.Some? ==> store[DigestKey] == DigestRecord(r.value)
  {
    if DigestKey in store && store[DigestKey].DigestRecord?
    then Some(store[DigestKey].digest) else None
  }

  /** Saving the checklist and loading it again gives the checklist back,
      and leaves what the other keys read unchanged. */
  lemma TestStatesRoundTrip(store: Store, m: TestStates)
    ensures SavedTestStates(store[TestStatesKey := TestStatesRecord(m)]) == Some(m)
    ensures LoadTestStates(SavedTestStates(store[TestStatesKey := TestStatesRecord(m)])) == m
    ensures SavedPreferences(store[TestStatesKey := TestStatesRecord(m)]) == SavedPreferences(store)
    ensures SavedDigest(store[TestStatesKey := TestStatesRecord(m)]) == SavedDigest(store)
  {
  }

  /** Saving the preferences and loading them again gives them back, and
      leaves what the other keys read unchanged. */
  lemma PreferencesRoundTrip(store: Store, p: Prefs)
    ensures SavedPreferences(store[PreferencesKey := PreferencesRecord(p)]) == Some(p)
    ensures LoadPreferences(SavedPreferences(store[PreferencesKey := PreferencesRecord(p)])) == p
    ensures SavedTestStates(store[PreferencesKey := PreferencesRecord(p)]) == SavedTestStates(store)
    ensures SavedDigest(store[PreferencesKey := PreferencesRecord(p)]) == SavedDigest(store)
  {
  }

  /** Saving a digest and loading it on the day it is stamped with gives it
      back; the other keys read as before. */
  lemma DigestRoundTrip(store: Store, d: Digest)
    ensures SavedDigest(store[DigestKey := DigestRecord(d)]) == Some(d)
    ensures LoadDigest(SavedDigest(store[DigestKey := DigestRecord(d)]), d.timestamp) == Some(d)
    ensures SavedTestStates(store[DigestKey := DigestRecord(d)]) == SavedTestStates(store)
    ensures SavedPreferences(store[DigestKey := DigestRecord(d)]) == SavedPreferences(store)
  {
  }

  /** A stale digest stays in the store but loads as absent. */
  lemma StaleDigestKept(store: Store, today: string)
    requires SavedDigest(store).Some? && SavedDigest(store).value.timestamp != today
    ensures DigestKey in store
    ensures LoadDigest(SavedDigest(store), today) == None
  {
  }
}
