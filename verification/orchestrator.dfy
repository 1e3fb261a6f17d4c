/** The tour orchestrator: page-load initialisation, the handlers that keep
    the progress store current, the reset operation and its keyboard
    shortcut.

    The rendering engine is abstract. The orchestrator's calls into it are
    returned as a trace of `EngineCall`s; the notifications it emits arrive
    as `Event`s handed to `Deliver`. Two facts about the engine that the
    page script cannot see are explicit parameters (`Engine`). */
module Orchestrator {
  import opened Options
  import opened Strings
  import opened Routes
  import opened Storage

  datatype EngineCall = AddStep(id: StepId) | Start | Show(id: StepId) | Complete

  /** The engine's notifications: `show` carries the shown step's id. */
  datatype Event = Shown(step: StepId) | Completed

  /** Assumptions about the engine.
      `openingShowHeard`: whether the `show` notification that `start()` or
      `show(id)` emits during initialisation reaches the handlers, which are
      subscribed only after that call.
      `completeNotifies`: whether `complete()` notifies the `complete`
      handlers synchronously, before `complete()` returns. `false` covers
      both an engine that never notifies and one that notifies later, on a
      page whose live tour belongs to its route: a later notification is a
      `Completed` event delivered to the page after the transition.
      `Deliver` writes under the key of the tour live when the event
      arrives; the source's handler writes under the key of the tour that
      emitted it, and the two keys agree only on such a page. */
  datatype Engine = Engine(openingShowHeard: bool, completeNotifies: bool)

  /** The tour object held in `window.currentTour`; its handlers write under
      the key of the tour it was built for. */
  datatype LiveTour = LiveTour(tour: KnownTour)

  /** Everything one page view owns: its path, both storage scopes and the
      live tour, if one was created. */
  datatype Page = Page(path: string, session: Store, local: Store, current: Option<LiveTour>)

  /** A transition's new page and the engine calls it made, in order. */
  datatype Outcome = Outcome(page: Page, calls: seq<EngineCall>)

  /** A live tour always belongs to the page's own route: the path never
      changes within a page view and only `Init` creates tours. */
  predicate Wellformed(p: Page) {
    p.current.Some? ==> p.current.value.tour == Resolve(p.path)
  }

  function AddSteps(steps: seq<StepId>): (r: seq<EngineCall>)
    ensures |r| == |steps|
    ensures forall i :: 0 <= i < |steps| ==> r[i] == AddStep(steps[i])
  {
    if |steps| == 0 then [] else [AddStep(steps[0])] + AddSteps(steps[1..])
  }

  /** The opening call: `show(cursor)` when the stored cursor is a non-empty
      string (JavaScript truthiness), `start()` otherwise. The cursor is not
      checked against the tour's steps. */
  function Opening(cursor: Option<string>): (r: EngineCall)
    ensures r.Show? <==> cursor.Some? && cursor.value != ""
    ensures r.Show? ==> r.id == cursor.value
    ensures !r.Show? ==> r == Start
  {
    if cursor.Some? && cursor.value != "" then Show(cursor.value) else Start
  }

  /** The step the opening call displays: `start()` shows the first step,
      `show(id)` shows that step if the engine holds one with that id. */
  function OpeningStep(steps: seq<StepId>, call: EngineCall): (r: Option<StepId>)
    ensures r.Some? ==> r.value in steps
  {
    match call
    case Start => if |steps| > 0 then Some(steps[0]) else None
    case Show(id) => if id in steps then Some(id) else None
    case _ => None
  }

  /** The `show` and `complete` handlers of the live tour. Without a live
      tour there is no engine to emit anything. */
  function Deliver(p: Page, ev: Event): (r: Page)
    ensures r.path == p.path && r.current == p.current
    ensures ev.Shown? ==> r.local == p.local
    ensures ev.Completed? ==> r.session == p.session
  {
    match p.current
    case None => p
    case Some(live) =>
      match ev
      case Shown(id) => p.(session := SetCursor(p.session, Key(live.tour), id))
      case Completed => p.(local := MarkCompleted(p.local, Key(live.tour)))
  }

  /** `initTourForCurrentPage`. */
  function Init(p: Page, engine: Engine): (r: Outcome)
    ensures r.page.path == p.path
    ensures r.page.local == p.local
  {
    InitTour(p, Resolve(p.path), engine)
  }

  /** Initialisation once the route has been resolved to `t`. */
  function InitTour(p: Page, t: Tour, engine: Engine): (r: Outcome)
    ensures r.page.path == p.path
    ensures r.page.local == p.local
  {
    if IsCompleted(p.local, Key(t)) then Outcome(p, [])
    else if |Steps(t)| == 0 then Outcome(p, [])
    else
      var opening := Opening(GetItem(p.session, CursorKey(Key(t))));
      var created := p.(current := Some(LiveTour(t)));
      var shown := OpeningStep(Steps(t), opening);
      var heard :=
        if engine.openingShowHeard && shown.Some? then Deliver(created, Shown(shown.value))
        else created;
      Outcome(heard, AddSteps(Steps(t)) + [opening])
  }

  /** The page-load listener: a fresh page view with no live tour. */
  function PageLoad(path: string, session: Store, local: Store, engine: Engine): (r: Outcome)
    ensures Wellformed(r.page)
    ensures r.page.path == path && r.page.local == local
  {
    Init(Page(path, session, local, None), engine)
  }

  /** `complete()` on the live tour, if any, with its effect on storage. */
  function CompleteLive(p: Page, engine: Engine): (r: Outcome)
    ensures r.page.path == p.path && r.page.current == p.current && r.page.session == p.session
    ensures r.calls == (if p.current.Some? then [Complete] else [])
  {
    if p.current.None? then Outcome(p, [])
    else if engine.completeNotifies then Outcome(Deliver(p, Completed), [Complete])
    else Outcome(p, [Complete])
  }

  /** Clears every cursor and every completion flag of every tour. */
  function ClearProgress(p: Page): (r: Page)
    ensures r.path == p.path && r.current == p.current
    ensures forall k :: k in r.session <==> k in p.session && !EndsWith(k, StepSuffix)
    ensures forall k :: k in r.local <==> k in p.local && !EndsWith(k, CompletedSuffix)
    ensures IsSuffixPurge(p.session, StepSuffix, r.session)
    ensures IsSuffixPurge(p.local, CompletedSuffix, r.local)
  {
    p.(session := WithoutSuffix(p.session, StepSuffix), local := WithoutSuffix(p.local, CompletedSuffix))
  }

  /** `window.resetTour` as written: clear progress, complete the live tour,
      re-run initialisation. */
  function Reset(p: Page, engine: Engine): (r: Outcome)
    ensures r.page.path == p.path
  {
    var cleared := ClearProgress(p);
    var completed := CompleteLive(cleared, engine);
    var again := Init(completed.page, engine);
    Outcome(again.page, completed.calls + again.calls)
  }

  /** The reset the documentation describes ("restarting the current tour"):
      complete the live tour first, so that its `complete` handler writes
      before the purge, then clear progress and re-run initialisation. */
  function RestartingReset(p: Page, engine: Engine): (r: Outcome)
    ensures r.page.path == p.path
  {
    var completed := CompleteLive(p, engine);
    var again := Init(ClearProgress(completed.page), engine);
    Outcome(again.page, completed.calls + again.calls)
  }

  datatype KeyEvent = KeyEvent(ctrlKey: bool, altKey: bool, key: string)

  /** The `keydown` listener: Ctrl+Alt+R (lower-case `r`) resets. */
  function OnKeyDown(p: Page, engine: Engine, ev: KeyEvent): (r: Outcome)
    ensures r.page.path == p.path
  {
    if ev.ctrlKey && ev.altKey && ev.key == "r" then Reset(p, engine) else Outcome(p, [])
  }
}
