/** Optional values, standing for JavaScript's `null` results. */
module Options {
  datatype Option<+T> = None | Some(value: T)
}

/** The two Web Storage scopes the orchestrator uses (`sessionStorage` for
    the resume cursor, `localStorage` for the completion flag), as immutable
    string-to-string maps, and the progress records built on top of them. */
module Storage {
  import opened Options
  import opened Strings

  type Store = map<string, string>

  /** `getItem`: `null` for a missing key, never an error. */
  function GetItem(s: Store, key: string): (r: Option<string>)
    ensures r.Some? <==> key in s
    ensures r.Some? ==> r.value == s[key]
  {
    if key in s then Some(s[key]) else None
  }

  /** `setItem`: overwrites (or adds) one key and leaves every other key alone. */
  function SetItem(s: Store, key: string, value: string): (r: Store)
    ensures GetItem(r, key) == Some(value)
    ensures forall k :: k != key ==> GetItem(r, k) == GetItem(s, k)
  {
    s[key := value]
  }

  /** `removeItem`: drops one key if present and leaves every other key alone. */
  function RemoveItem(s: Store, key: string): (r: Store)
    ensures GetItem(r, key) == None
    ensures forall k :: k != key ==> GetItem(r, k) == GetItem(s, k)
  {
    s - {key}
  }

  /** Reference meaning of a bulk removal by suffix: exactly the keys that do
      not end in `suffix` survive, with their values. */
  ghost predicate IsSuffixPurge(s: Store, suffix: string, r: Store) {
    && (forall k :: k in r <==> k in s && !EndsWith(k, suffix))
    && (forall k :: k in r ==> r[k] == s[k])
  }

  /** The store after a bulk removal by suffix, as one map comprehension. */
  function WithoutSuffix(s: Store, suffix: string): (r: Store)
    ensures IsSuffixPurge(s, suffix, r)
  {
    map k | k in s && !EndsWith(k, suffix) :: s[k]
  }

  /** The removal loop of the reset operation: `Object.keys(store)` is read
      once, then each listed key ending in `suffix` is removed. The order of
      `Object.keys` is left open; every order gives the same store. */
  method RemoveKeysEndingWith(s: Store, suffix: string) returns (r: Store)
    ensures IsSuffixPurge(s, suffix, r)
    ensures r == WithoutSuffix(s, suffix)
  {
    r := s;
    var pending := s.Keys;
    while pending != {}
      invariant pending <= s.Keys
      invariant forall k :: k in r <==> k in s && (k in pending || !EndsWith(k, suffix))
      invariant forall k :: k in r ==> r[k] == s[k]
      decreases pending
    {
      var k :| k in pending;
      if EndsWith(k, suffix) {
        r := RemoveItem(r, k);
      }
      pending := pending - {k};
    }
    PurgeIsUnique(s, suffix, r, WithoutSuffix(s, suffix));
  }

  /** A purge is determined by the store and the suffix. */
  lemma PurgeIsUnique(s: Store, suffix: string, r1: Store, r2: Store)
    requires IsSuffixPurge(s, suffix, r1) && IsSuffixPurge(s, suffix, r2)
    ensures r1 == r2
  {
    assert r1.Keys == r2.Keys;
  }

  /** Purging twice is purging once, and a purged store holds no key with the suffix. */
  lemma PurgeIdempotent(s: Store, suffix: string)
    ensures WithoutSuffix(WithoutSuffix(s, suffix), suffix) == WithoutSuffix(s, suffix)
    ensures forall k :: k in WithoutSuffix(s, suffix) ==> !EndsWith(k, suffix)
  {
    PurgeIsUnique(s, suffix, WithoutSuffix(WithoutSuffix(s, suffix), suffix), WithoutSuffix(s, suffix));
  }

  // The progress record of one tour, keyed by the tour's key.

  const StepSuffix := "Step"
  const CompletedSuffix := "Completed"

  /** The session key holding the resume cursor, `<key>Step`. */
  function CursorKey(tourKey: string): (r: string)
    ensures EndsWith(r, StepSuffix)
  {
    EndsWithAppended(tourKey, StepSuffix);
    tourKey + StepSuffix
  }

  /** The durable key holding the completion flag, `<key>Completed`. */
  function FlagKey(tourKey: string): (r: string)
    ensures EndsWith(r, CompletedSuffix)
  {
    EndsWithAppended(tourKey, CompletedSuffix);
    tourKey + CompletedSuffix
  }

  /** A tour counts as completed only when its flag holds exactly `"true"`. */
  predicate IsCompleted(local: Store, tourKey: string) {
    GetItem(local, FlagKey(tourKey)) == Some("true")
  }

  /** The completion gate in terms of the stored map: a present flag key
      holding exactly `"true"`; any other value, or none, does not gate. */
  lemma CompletionGate(local: Store, tourKey: string)
    ensures IsCompleted(local, tourKey) <==> FlagKey(tourKey) in local && local[FlagKey(tourKey)] == "true"
  {
  }

  function MarkCompleted(local: Store, tourKey: string): (r: Store)
    ensures IsCompleted(r, tourKey)
    ensures forall k :: k != FlagKey(tourKey) ==> GetItem(r, k) == GetItem(local, k)
  {
    SetItem(local, FlagKey(tourKey), "true")
  }

  function SetCursor(session: Store, tourKey: string, step: string): (r: Store)
    ensures GetItem(r, CursorKey(tourKey)) == Some(step)
    ensures forall k :: k != CursorKey(tourKey) ==> GetItem(r, k) == GetItem(session, k)
  {
    SetItem(session, CursorKey(tourKey), step)
  }

  /** Marking a tour completed is idempotent. */
  lemma MarkCompletedIdempotent(local: Store, tourKey: string)
    ensures MarkCompleted(MarkCompleted(local, tourKey), tourKey) == MarkCompleted(local, tourKey)
  {
  }

  /** After the reset purge no tour has a cursor or a completion flag left,
      and the flag keys are untouched by the cursor purge and vice versa. */
  lemma PurgeClearsProgress(session: Store, local: Store, tourKey: string)
    ensures GetItem(WithoutSuffix(session, StepSuffix), CursorKey(tourKey)) == None
    ensures !IsCompleted(WithoutSuffix(local, CompletedSuffix), tourKey)
  {
  }
}
