/**
 * The checklist of manual tests and the ship gate derived from it.
 *
 * The checklist is a map from a test id to the JSON value stored for it.
 * The tracker itself only stores booleans, but a map read back from storage
 * may hold anything, and ids outside the ten fixed ones are kept as well.
 */
module Checklist {
  import opened Wrappers
  import opened JsonValue

  type TestStates = map<string, Val>

  /** The ten test ids of the checklist. */
  const FixedIds: set<string> :=
    {"preferences", "match-score", "show-matches", "save-job", "apply-tab",
     "status-update", "status-filter", "digest-generation", "digest-persist",
     "no-errors"}

  /** The number of passed tests that unlocks shipping. */
  const RequiredPassed: nat := 10

  /** The ids whose value is exactly `true` (a truthy non-boolean does not pass). */
  function PassedIds(m: TestStates): set<string>
  {
    set id | id in m && m[id] == JBool(true)
  }

  /** The number of entries whose value is exactly `true`, over every key of
      the map, the ten fixed ids or not. */
  function PassedCount(m: TestStates): (r: nat)
    ensures r <= |m|
    ensures r == 0 <==> forall id :: id in m ==> m[id] != JBool(true)
  {
    SubsetCardinality(PassedIds(m), m.Keys);
    assert (forall id :: id in m ==> m[id] != JBool(true)) ==> PassedIds(m) == {};
    assert forall id :: id in m && m[id] == JBool(true) ==> id in PassedIds(m);
    |PassedIds(m)|
  }

  /** The gate: shipping is unlocked only when exactly ten tests pass. */
  predicate ShipUnlocked(m: TestStates)
    ensures ShipUnlocked(m) ==> |m| >= RequiredPassed
    ensures ShipUnlocked(m) ==> exists id :: id in m && m[id] == JBool(true)
  {
    PassedCount(m) == RequiredPassed
  }

  /** The checklist used when nothing is saved: the ten ids, all `false`. */
  function DefaultTestStates(): TestStates
  {
    map id | id in FixedIds :: JBool(false)
  }

  /** The checklist in which exactly the ids of `s` are marked passed. */
  function MarkedStates(s: set<string>): TestStates
  {
    map id | id in FixedIds :: JBool(id in s)
  }

  /** Loading: the saved map as it is, or the default when nothing is saved. */
  function LoadTestStates(saved: Option<TestStates>): (r: TestStates)
    ensures saved.Some? ==> r == saved.value
    ensures saved.None? ==> r.Keys == FixedIds
    ensures saved.None? ==> forall id :: id in r ==> r[id] == JBool(false)
    ensures saved.None? ==> PassedCount(r) == 0 && !ShipUnlocked(r)
  {
    match saved
    case Some(m) => m
    case None => DefaultTestStates()
  }

  /** The default checklist is the one with no fixed test marked. */
  lemma DefaultIsUnmarked()
    ensures DefaultTestStates() == MarkedStates({})
  {
  }

  /** The state reached by resetting: the same keys, every value `false`. */
  function AllFalse(m: TestStates): (r: TestStates)
    ensures r.Keys == m.Keys
    ensures forall id :: id in r ==> r[id] == JBool(false)
  {
    map id | id in m :: JBool(false)
  }

  /** What a checkbox shows after loading: checked when its stored value is
      truthy, so a truthy non-boolean shows as checked without counting. */
  function CheckboxChecked(m: TestStates, id: string): (r: bool)
    ensures id in m && m[id] == JBool(true) ==> r
    ensures id !in m ==> !r
    ensures r <==> id in m && Truthy(m[id])
  {
    if id in m then Truthy(m[id]) else false
  }

  lemma SubsetCardinality(a: set<string>, b: set<string>)
    requires a <= b
    ensures |a| <= |b|
  {
    assert b == a + (b - a);
  }

  /** Writing one entry moves the count by at most one: the old value leaves
      it if it was `true`, the new value enters it if it is `true`. */
  lemma PassedCountUpdate(m: TestStates, id: string, v: Val)
    ensures PassedCount(m[id := v]) ==
            PassedCount(m)
            - (if id in m && m[id] == JBool(true) then 1 else 0)
            + (if v == JBool(true) then 1 else 0)
  {
    var rest := PassedIds(m) - {id};
    assert PassedIds(m[id := v]) == if v == JBool(true) then rest + {id} else rest;
    assert PassedIds(m) == if id in m && m[id] == JBool(true) then rest + {id} else rest;
  }

  /** Resetting keeps the key set, leaves nothing passed, locks the gate and
      is idempotent. */
  lemma ResetClearsChecklist(m: TestStates)
    ensures AllFalse(m).Keys == m.Keys
    ensures forall id :: id in AllFalse(m) ==> AllFalse(m)[id] == JBool(false)
    ensures PassedCount(AllFalse(m)) == 0
    ensures !ShipUnlocked(AllFalse(m))
    ensures AllFalse(AllFalse(m)) == AllFalse(m)
  {
  }

  /** Ten distinct ids make up the fixed set. */
  lemma FixedIdsCount()
    ensures |FixedIds| == RequiredPassed
  {
    // the ids of equal length differ at the characters below
    assert "preferences"[0] != "match-score"[0];
    assert "apply-tab"[0] != "no-errors"[0];
    assert "status-update"[7] != "status-filter"[7];
  }

  /** For every subset of the fixed ids marked passed (the rest failed), the
      count is the size of the subset, and the gate opens exactly when the
      subset is the whole fixed set. */
  lemma MarkedCount(s: set<string>)
    requires s <= FixedIds
    ensures PassedCount(MarkedStates(s)) == |s|
    ensures ShipUnlocked(MarkedStates(s)) <==> s == FixedIds
  {
    assert PassedIds(MarkedStates(s)) == s;
    FixedIdsCount();
    if s != FixedIds {
      assert !(FixedIds <= s);
      var missing :| missing in FixedIds && missing !in s;
      assert FixedIds == s + (FixedIds - s);
      assert {missing} <= FixedIds - s;
      SubsetCardinality({missing}, FixedIds - s);
    }
  }

  /** The checklist after the ids of `ids` are ticked: those ids hold
      `true`, every other entry keeps its value. */
  function WithPassed(m: TestStates, ids: set<string>): TestStates
  {
    map id | id in m.Keys + ids :: if id in ids then JBool(true) else m[id]
  }

  /** Ticking one more id extends the ticked set by that id. */
  lemma WithPassedStep(m: TestStates, ids: set<string>, id: string)
    ensures WithPassed(m, ids)[id := JBool(true)] == WithPassed(m, ids + {id})
  {
  }

  /** Ticking fixed ids in a marked checklist marks them. */
  lemma WithPassedMarked(s: set<string>, ids: set<string>)
    requires ids <= FixedIds
    ensures WithPassed(MarkedStates(s), ids) == MarkedStates(s + ids)
  {
  }

  /** With one fixed test left open the gate is locked; passing it unlocks the
      gate; failing any fixed test again locks it. */
  lemma LastTestUnlocksShip(last: string, undone: string)
    requires last in FixedIds && undone in FixedIds
    ensures !ShipUnlocked(MarkedStates(FixedIds - {last}))
    ensures ShipUnlocked(MarkedStates(FixedIds - {last})[last := JBool(true)])
    ensures !ShipUnlocked(MarkedStates(FixedIds - {last})[last := JBool(true)][undone := JBool(false)])
  {
    var nine := MarkedStates(FixedIds - {last});
    MarkedCount(FixedIds - {last});
    FixedIdsCount();
    assert |FixedIds - {last}| == 9;
    PassedCountUpdate(nine, last, JBool(true));
    var ten := nine[last := JBool(true)];
    PassedCountUpdate(ten, undone, JBool(false));
  }

  /** The test is exact equality: ten passed fixed ids plus one more passed
      id make eleven, and eleven keeps the gate locked. */
  lemma ElevenPassedStaysLocked(extra: string)
    requires extra !in FixedIds
    ensures PassedCount(MarkedStates(FixedIds)[extra := JBool(true)]) == 11
    ensures !ShipUnlocked(MarkedStates(FixedIds)[extra := JBool(true)])
  {
    MarkedCount(FixedIds);
    FixedIdsCount();
    PassedCountUpdate(MarkedStates(FixedIds), extra, JBool(true));
  }

  /** A truthy value other than `true` shows its checkbox as checked but adds
      nothing to the count. */
  lemma TruthyNonBooleanNotCounted(m: TestStates, id: string, v: Val)
    requires Truthy(v) && v != JBool(true)
    ensures CheckboxChecked(m[id := v], id)
    ensures PassedCount(m[id := v]) <= PassedCount(m)
  {
    PassedCountUpdate(m, id, v);
  }
}
