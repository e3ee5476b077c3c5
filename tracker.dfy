/**
 * The application controller: the checklist, the ship gate, the
 * preferences, the digest and the store they are saved in, all updated in
 * place by the event handlers. "Today" is passed in as a date string where
 * the controller would read the clock.
 */
module Tracker {
  import opened Wrappers
  import opened JsonValue
  import opened Checklist
  import opened Preferences
  import opened Digests
  import opened Storage

  const ShipRoute: string := "ship"

  class JobNotificationTracker {
    var currentRoute: string
    var testStates: TestStates
    /** Whether the ship navigation item carries the locked mark. */
    var shipLocked: bool
    var preferences: Prefs
    /** What the preference controls on the page show. */
    var controls: PrefsControls
    var digest: Option<Digest>
    var store: Store

    /** The gate agrees with the count, a reload of the store gives the
        checklist and preferences held in memory, and a digest held in
        memory is the one in the store. */
    ghost predicate Valid()
      reads this
    {
      && shipLocked == !ShipUnlocked(testStates)
      && LoadTestStates(SavedTestStates(store)) == testStates
      && LoadPreferences(SavedPreferences(store)) == preferences
      && (digest.Some? ==> SavedDigest(store) == digest)
    }

    /** Start-up: load every record (or its default), lock or unlock the
        gate, and reflect the preferences into the controls. */
    constructor (saved: Store, today: string, pageControls: PrefsControls)
      ensures Valid()
      ensures store == saved && currentRoute == "dashboard"
      ensures testStates == LoadTestStates(SavedTestStates(saved))
      ensures preferences == LoadPreferences(SavedPreferences(saved))
      ensures digest == LoadDigest(SavedDigest(saved), today)
      ensures controls == LoadPreferencesUI(preferences, pageControls)
      ensures shipLocked == (PassedCount(testStates) != RequiredPassed)
    {
      currentRoute := "dashboard";
      testStates := LoadTestStates(SavedTestStates(saved));
      preferences := LoadPreferences(SavedPreferences(saved));
      digest := LoadDigest(SavedDigest(saved), today);
      store := saved;
      controls := pageControls;
      shipLocked := true;
      new;
      UpdateShipLock();
      controls := LoadPreferencesUI(preferences, pageControls);
    }

    /** Recompute the gate from the current checklist. */
    method UpdateShipLock()
      modifies this`shipLocked
      ensures shipLocked == !ShipUnlocked(testStates)
    {
      shipLocked := !ShipUnlocked(testStates);
    }

    /** Show a route; this path itself is not gated. */
    method NavigateToRoute(route: string)
      modifies this`currentRoute
      ensures currentRoute == route
    {
      currentRoute := route;
    }

    /** A click on a navigation item: refused with a warning for the ship
        route while it is locked, otherwise the route is shown. */
    method ClickNav(route: string) returns (warned: bool)
      requires Valid()
      modifies this`currentRoute
      ensures Valid()
      ensures warned <==> route == ShipRoute && !ShipUnlocked(testStates)
      ensures warned ==> currentRoute == old(currentRoute)
      ensures !warned ==> currentRoute == route
    {
      if route == ShipRoute && shipLocked {
        warned := true;
        return;
      }
      warned := false;
      NavigateToRoute(route);
    }

    method SaveTestStates()
      modifies this`store
      ensures store == old(store)[TestStatesKey := TestStatesRecord(testStates)]
    {
      store := store[TestStatesKey := TestStatesRecord(testStates)];
    }

    method SavePreferences()
      modifies this`store
      ensures store == old(store)[PreferencesKey := PreferencesRecord(preferences)]
    {
      store := store[PreferencesKey := PreferencesRecord(preferences)];
    }

    method SaveDigest()
      requires digest.Some?
      modifies this`store
      ensures store == old(store)[DigestKey := DigestRecord(digest.value)]
    {
      store := store[DigestKey := DigestRecord(digest.value)];
    }

    /** A checkbox change: record the flag under its id (adding the id if
        it is new), save the checklist and recompute the gate. */
    method HandleTestChange(id: string, checked: bool)
      requires Valid()
      modifies this`testStates, this`store, this`shipLocked
      ensures Valid()
      ensures testStates == old(testStates)[id := JBool(checked)]
      ensures forall other :: other in old(testStates) && other != id ==>
                other in testStates && testStates[other] == old(testStates)[other]
      ensures store == old(store)[TestStatesKey := TestStatesRecord(testStates)]
      ensures SavedTestStates(store) == Some(testStates)
      ensures PassedCount(testStates) ==
              PassedCount(old(testStates))
              - (if id in old(testStates) && old(testStates)[id] == JBool(true) then 1 else 0)
              + (if checked then 1 else 0)
    {
      testStates := testStates[id := JBool(checked)];
      SaveTestStates();
      TestStatesRoundTrip(old(store), testStates);
      PassedCountUpdate(old(testStates), id, JBool(checked));
      UpdateShipLock();
    }

    /** Reset: set every stored id to `false`, one key at a time, then save
        and recompute the gate. */
    method ResetTestStates()
      requires Valid()
      modifies this`testStates, this`store, this`shipLocked
      ensures Valid()
      ensures testStates == AllFalse(old(testStates))
      ensures testStates.Keys == old(testStates).Keys
      ensures PassedCount(testStates) == 0 && shipLocked
      ensures store == old(store)[TestStatesKey := TestStatesRecord(testStates)]
      ensures SavedTestStates(store) == Some(testStates)
    {
      var pending := testStates.Keys;
      while pending != {}
        invariant pending <= testStates.Keys
        invariant testStates.Keys == old(testStates).Keys
        invariant store == old(store)
        invariant forall k :: k in testStates && k !in pending ==> testStates[k] == JBool(false)
        invariant forall k :: k in pending ==> testStates[k] == old(testStates)[k]
        decreases pending
      {
        var key :| key in pending;
        testStates := testStates[key := JBool(false)];
        pending := pending - {key};
      }
      assert testStates == AllFalse(old(testStates));
      ResetClearsChecklist(old(testStates));
      SaveTestStates();
      TestStatesRoundTrip(old(store), testStates);
      UpdateShipLock();
    }

    /** The threshold slider moved: store the parsed value and save. */
    method SetMatchThreshold(value: int)
      requires Valid()
      modifies this`preferences, this`controls, this`store
      ensures Valid()
      ensures preferences == old(preferences).(matchThreshold := Some(JNum(value)))
      ensures controls == old(controls).(slider := JNum(value))
      ensures store == old(store)[PreferencesKey := PreferencesRecord(preferences)]
    {
      controls := controls.(slider := JNum(value));
      preferences := preferences.(matchThreshold := Some(JNum(value)));
      SavePreferences();
      PreferencesRoundTrip(old(store), preferences);
    }

    /** The e-mail checkbox changed: store the flag and save. */
    method SetEmailNotifications(checked: bool)
      requires Valid()
      modifies this`preferences, this`controls, this`store
      ensures Valid()
      ensures preferences == old(preferences).(emailNotifications := Some(JBool(checked)))
      ensures controls == old(controls).(emailChecked := checked)
      ensures store == old(store)[PreferencesKey := PreferencesRecord(preferences)]
      ensures EmailEnabled(preferences) == checked
    {
      controls := controls.(emailChecked := checked);
      preferences := preferences.(emailNotifications := Some(JBool(checked)));
      SavePreferences();
      PreferencesRoundTrip(old(store), preferences);
    }

    /** Generation, taken as one step: replace the digest as a whole with the
        fixed list stamped today, and save it. */
    method GenerateDigest(today: string)
      requires Valid()
      modifies this`digest, this`store
      ensures Valid()
      ensures digest == Some(Digest(MockDigest(), today))
      ensures store == old(store)[DigestKey := DigestRecord(digest.value)]
      ensures LoadDigest(SavedDigest(store), today) == digest
      ensures |digest.value.data| == 10 && StrictlyDescending(digest.value.data)
    {
      digest := Some(Digest(MockDigest(), today));
      SaveDigest();
      DigestRoundTrip(old(store), digest.value);
    }
  }

  /** Ticking a set of tests one checkbox at a time, in whatever order,
      sets exactly those entries to `true` and keeps the rest. */
  method PassTests(t: JobNotificationTracker, ids: set<string>)
    requires t.Valid()
    modifies t`testStates, t`store, t`shipLocked
    ensures t.Valid()
    ensures t.testStates == WithPassed(old(t.testStates), ids)
    ensures t.store - {TestStatesKey} == old(t.store) - {TestStatesKey}
  {
    ghost var start := t.testStates;
    var todo := ids;
    while todo != {}
      invariant todo <= ids
      invariant t.Valid()
      invariant t.testStates == WithPassed(start, ids - todo)
      invariant t.store - {TestStatesKey} == old(t.store) - {TestStatesKey}
      decreases todo
    {
      var id :| id in todo;
      WithPassedStep(start, ids - todo, id);
      ghost var before := t.store;
      t.HandleTestChange(id, true);
      assert t.store - {TestStatesKey} == before - {TestStatesKey};
      assert ids - (todo - {id}) == (ids - todo) + {id};
      todo := todo - {id};
    }
    assert ids - todo == ids;
  }

  /** A session started from an empty store refuses the ship route. */
  method FreshSessionRefusesShip(today: string, pageControls: PrefsControls)
  {
    var t := new JobNotificationTracker(map[], today, pageControls);
    var refused := t.ClickNav(ShipRoute);
    assert refused && t.currentRoute == "dashboard";
  }

  /** From the default checklist (see DefaultIsUnmarked): the gate stays locked with every fixed
      test but `last` passed, and the ship route is shown once `last`
      passes too. */
  method ShipAfterAllTests(t: JobNotificationTracker, last: string)
    requires t.Valid() && t.testStates == MarkedStates({})
    requires last in FixedIds
    modifies t`testStates, t`store, t`shipLocked, t`currentRoute
  {
    PassTests(t, FixedIds - {last});
    assert t.testStates == MarkedStates(FixedIds - {last}) by {
      WithPassedMarked({}, FixedIds - {last});
    }
    assert t.shipLocked && ShipUnlocked(t.testStates[last := JBool(true)]) by {
      LastTestUnlocksShip(last, last);
    }
    t.HandleTestChange(last, true);
    var shipped := t.ClickNav(ShipRoute);
    assert !shipped && t.currentRoute == ShipRoute;
  }
}
