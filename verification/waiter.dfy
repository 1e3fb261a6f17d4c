/** The element waiter (`lazyElement`): a promise that resolves with the
    elements matching a selector, checking the document once at call time
    and then after every child-list mutation batch until the first match,
    at which point the observer disconnects. There is no timeout.

    The document is abstracted as a sequence of snapshots: the one at call
    time, then the one after each mutation batch the observer is told about;
    the call-time document always exists.
    CSS matching is abstracted as the set of selectors an element matches. */
module Waiter {
  import opened Options

  type Selector = string

  datatype Element = Element(id: nat, matches: set<Selector>)

  /** The document's elements in document order. */
  type Snapshot = seq<Element>

  /** `mQuery(selector)`: the matching elements, in document order. */
  function Query(dom: Snapshot, sel: Selector): (r: seq<Element>)
    ensures |r| <= |dom|
  {
    if |dom| == 0 then []
    else (if sel in dom[0].matches then [dom[0]] else []) + Query(dom[1..], sel)
  }

  /** The query returns exactly the matching elements of the document, so it
      is empty exactly when nothing matches. */
  lemma {:induction false} QueryExact(dom: Snapshot, sel: Selector)
    ensures forall e :: e in Query(dom, sel) <==> e in dom && sel in e.matches
    ensures Present(dom, sel) <==> exists i :: 0 <= i < |dom| && sel in dom[i].matches
  {
    if |dom| > 0 {
      QueryExact(dom[1..], sel);
      assert dom == [dom[0]] + dom[1..];
      if !Present(dom, sel) {
        forall i | 0 <= i < |dom| ensures sel !in dom[i].matches {
          assert dom[i] in dom;
        }
      }
    }
  }

  predicate Present(dom: Snapshot, sel: Selector) {
    |Query(dom, sel)| > 0
  }

  /** How the promise settled: at which document (0 is the call itself,
      `i > 0` the `i`-th mutation batch) and with which elements. */
  datatype Resolution = Resolution(at: nat, elements: seq<Element>)

  /** Runs the waiter against the documents it gets to see: `docs[0]` is
      the document at call time, `docs[i]` for `i > 0` the document after
      the `i`-th mutation batch. `resolved` is the value the promise settles
      with (`None`: it stays pending), `resolveCalls` counts calls of
      `resolve` and `checks` counts evaluations of the selector. */
  method LazyElement(docs: seq<Snapshot>, sel: Selector)
    returns (resolved: Option<Resolution>, resolveCalls: nat, checks: nat)
    requires |docs| > 0
    // it resolves at the first document that contains a match ...
    ensures resolved.Some? ==>
      && resolved.value.at < |docs|
      && resolved.value.elements == Query(docs[resolved.value.at], sel)
      && Present(docs[resolved.value.at], sel)
      && forall j :: 0 <= j < resolved.value.at ==> !Present(docs[j], sel)
    // ... and never when no document does: there is no timeout
    ensures resolved.None? ==> forall j :: 0 <= j < |docs| ==> !Present(docs[j], sel)
    // it resolves at most once
    ensures resolveCalls == (if resolved.Some? then 1 else 0)
    // after the match the observer is disconnected: no further checks
    ensures checks == (if resolved.Some? then resolved.value.at + 1 else |docs|)
    // the same as the reference first-match search
    ensures FirstPresent(docs, sel) == (if resolved.Some? then Some(resolved.value.at) else None)
  {
    // the check at call time
    checks := 1;
    var found := Query(docs[0], sel);
    if |found| > 0 {
      resolved, resolveCalls := Some(Resolution(0, found)), 1;
      FirstMatchUnique(docs, sel, 0);
      return;
    }
    // the observer, called once per mutation batch while connected
    resolved, resolveCalls := None, 0;
    var observing := true;
    var i := 1;
    while i < |docs|
      invariant 1 <= i <= |docs|
      invariant observing <==> resolved.None?
      invariant resolveCalls == (if resolved.Some? then 1 else 0)
      invariant resolved.None? ==> checks == i
      invariant resolved.None? ==> forall j :: 0 <= j < i ==> !Present(docs[j], sel)
      invariant resolved.Some? ==>
        && 0 < resolved.value.at < i
        && checks == resolved.value.at + 1
        && resolved.value.elements == Query(docs[resolved.value.at], sel)
        && Present(docs[resolved.value.at], sel)
        && forall j :: 0 <= j < resolved.value.at ==> !Present(docs[j], sel)
    {
      if observing {
        checks := checks + 1;
        found := Query(docs[i], sel);
        if |found| > 0 {
          resolved := Some(Resolution(i, found));
          resolveCalls := resolveCalls + 1;
          observing := false;
        }
      }
      i := i + 1;
    }
    if resolved.Some? {
      FirstMatchUnique(docs, sel, resolved.value.at);
    }
  }

  /** Any index that holds a match with none before it is the one
      `FirstPresent` finds. */
  lemma FirstMatchUnique(docs: seq<Snapshot>, sel: Selector, i: nat)
    requires i < |docs| && Present(docs[i], sel)
    requires forall j :: 0 <= j < i ==> !Present(docs[j], sel)
    ensures FirstPresent(docs, sel) == Some(i)
  {
  }

  /** A reference statement of the same outcome: the index of the first
      document holding a match, if any. */
  function FirstPresent(docs: seq<Snapshot>, sel: Selector): (r: Option<nat>)
    ensures r.Some? ==> r.value < |docs| && Present(docs[r.value], sel)
    ensures r.Some? ==> forall j :: 0 <= j < r.value ==> !Present(docs[j], sel)
    ensures r.None? ==> forall j :: 0 <= j < |docs| ==> !Present(docs[j], sel)
  {
    if |docs| == 0 then None
    else if Present(docs[0], sel) then Some(0)
    else match FirstPresent(docs[1..], sel)
      case None => None
      case Some(i) => Some(i + 1)
  }
}
