/** Properties of the orchestrator: completion gating, the resume rule, the
    event handlers, the reset operation (as written and as documented), the
    page invariant, and the end-to-end scenarios of the dashboard tour. */
module TourFacts {
  import opened Options
  import opened Strings
  import opened Routes
  import opened Storage
  import opened Orchestrator

  // ---- Initialisation ----------------------------------------------------

  /** A completed tour is never started again: initialisation leaves the
      page exactly as it was (no live tour replaced, no storage written) and
      makes no engine call. */
  lemma InitGated(p: Page, engine: Engine)
    requires IsCompleted(p.local, Key(Resolve(p.path)))
    ensures Init(p, engine) == Outcome(p, [])
  {
  }

  /** Initialisation calls the engine (and builds a tour) exactly when the
      path maps to a tour that is not completed; the tour it builds is the
      page's own. */
  lemma InitCreatesIff(p: Page, engine: Engine)
    ensures var t := Resolve(p.path);
      Init(p, engine).calls != [] <==> t != UnknownTour && !IsCompleted(p.local, Key(t))
    ensures Init(p, engine).calls == [] ==> Init(p, engine) == Outcome(p, [])
    ensures Init(p, engine).calls != [] ==> Init(p, engine).page.current == Some(LiveTour(Resolve(p.path)))
  {
    assert |Steps(Resolve(p.path))| > 0 <==> Resolve(p.path) != UnknownTour;
  }

  /** With a non-empty stored cursor the tour resumes with `show(cursor)`,
      after adding every step; the cursor is not checked against the steps. */
  lemma InitResumes(p: Page, engine: Engine, cursor: StepId)
    requires Resolve(p.path) != UnknownTour
    requires !IsCompleted(p.local, Key(Resolve(p.path)))
    requires GetItem(p.session, CursorKey(Key(Resolve(p.path)))) == Some(cursor) && cursor != ""
    ensures Init(p, engine).calls == AddSteps(Steps(Resolve(p.path))) + [Show(cursor)]
  {
    InitTourResumes(p, Resolve(p.path), engine, cursor);
  }

  /** The resume case for a resolved tour `t`. */
  lemma InitTourResumes(p: Page, t: KnownTour, engine: Engine, cursor: StepId)
    requires !IsCompleted(p.local, Key(t))
    requires GetItem(p.session, CursorKey(Key(t))) == Some(cursor) && cursor != ""
    ensures InitTour(p, t, engine).calls == AddSteps(Steps(t)) + [Show(cursor)]
  {
    assert |Steps(t)| > 0;
  }

  /** Without a cursor, or with an empty one, the tour starts from the top. */
  lemma InitStartsFresh(p: Page, engine: Engine)
    requires Resolve(p.path) != UnknownTour
    requires !IsCompleted(p.local, Key(Resolve(p.path)))
    requires GetItem(p.session, CursorKey(Key(Resolve(p.path)))) in {None, Some("")}
    ensures Init(p, engine).calls == AddSteps(Steps(Resolve(p.path))) + [Start]
  {
    InitTourStarts(p, Resolve(p.path), engine);
  }

  /** The fresh-start case for a resolved tour `t`, shared by the lemmas
      about the page's own tour. */
  lemma InitTourStarts(p: Page, t: KnownTour, engine: Engine)
    requires !IsCompleted(p.local, Key(t))
    requires GetItem(p.session, CursorKey(Key(t))) in {None, Some("")}
    ensures InitTour(p, t, engine).calls == AddSteps(Steps(t)) + [Start]
    ensures InitTour(p, t, engine).page.current == Some(LiveTour(t))
  {
    assert |Steps(t)| > 0;
  }

  /** Initialisation writes nothing durable, and writes the session cursor
      only through the opening `show` notification, if the engine lets the
      handlers hear it. */
  lemma InitStorageWrites(p: Page, engine: Engine)
    ensures Init(p, engine).page.local == p.local
    ensures !engine.openingShowHeard ==> Init(p, engine).page.session == p.session
    ensures forall k :: k != CursorKey(Key(Resolve(p.path))) ==>
      GetItem(Init(p, engine).page.session, k) == GetItem(p.session, k)
  {
    InitTourSessionWrites(p, Resolve(p.path), engine);
  }

  /** Initialisation for a resolved tour `t` writes at most `t`'s cursor. */
  lemma InitTourSessionWrites(p: Page, t: Tour, engine: Engine)
    ensures !engine.openingShowHeard ==> InitTour(p, t, engine).page.session == p.session
    ensures forall k :: k != CursorKey(Key(t)) ==>
      GetItem(InitTour(p, t, engine).page.session, k) == GetItem(p.session, k)
  {
  }

  // ---- Event handlers ----------------------------------------------------

  /** Every `show` notification overwrites the live tour's cursor with the
      shown step's id and changes nothing else. */
  lemma ShowRecordsCursor(p: Page, id: StepId)
    requires p.current.Some?
    ensures var r := Deliver(p, Shown(id));
      && GetItem(r.session, CursorKey(Key(p.current.value.tour))) == Some(id)
      && (forall k :: k != CursorKey(Key(p.current.value.tour)) ==> GetItem(r.session, k) == GetItem(p.session, k))
      && r.local == p.local
  {
  }

  /** The `complete` notification marks the live tour completed, keeps its
      cursor, and is idempotent. */
  lemma CompleteMarksOnce(p: Page)
    requires p.current.Some?
    ensures IsCompleted(Deliver(p, Completed).local, Key(p.current.value.tour))
    ensures Deliver(p, Completed).session == p.session
    ensures Deliver(Deliver(p, Completed), Completed) == Deliver(p, Completed)
  {
    MarkCompletedIdempotent(p.local, Key(p.current.value.tour));
  }

  /** Once the live tour has completed, reloading the same path starts no
      tour, whatever the session holds. */
  lemma CompletionGatesReload(p: Page, session: Store, engine: Engine)
    requires Wellformed(p) && p.current.Some?
    ensures PageLoad(p.path, session, Deliver(p, Completed).local, engine).calls == []
  {
    var done := Deliver(p, Completed);
    assert IsCompleted(done.local, Key(Resolve(p.path)));
  }

  // ---- The page invariant --------------------------------------------------

  lemma InitKeepsWellformed(p: Page, engine: Engine)
    requires Wellformed(p)
    ensures Wellformed(Init(p, engine).page)
  {
  }

  lemma DeliverKeepsWellformed(p: Page, ev: Event)
    requires Wellformed(p)
    ensures Wellformed(Deliver(p, ev))
  {
  }

  lemma ResetKeepsWellformed(p: Page, engine: Engine, ev: KeyEvent)
    requires Wellformed(p)
    ensures Wellformed(Reset(p, engine).page)
    ensures Wellformed(RestartingReset(p, engine).page)
    ensures Wellformed(OnKeyDown(p, engine, ev).page)
  {
    InitKeepsWellformed(CompleteLive(ClearProgress(p), engine).page, engine);
    InitKeepsWellformed(ClearProgress(CompleteLive(p, engine).page), engine);
  }

  // ---- Reset -------------------------------------------------------------

  /** The reset purge removes exactly the keys ending in `Step` (session) and
      `Completed` (durable); every other key of either store keeps its value
      through the whole reset. */
  lemma ResetTouchesOnlySuffixKeys(p: Page, engine: Engine)
    ensures forall k :: !EndsWith(k, StepSuffix) ==>
      GetItem(Reset(p, engine).page.session, k) == GetItem(p.session, k)
    ensures forall k :: !EndsWith(k, CompletedSuffix) ==>
      GetItem(Reset(p, engine).page.local, k) == GetItem(p.local, k)
  {
    var cleared := ClearProgress(p);
    var completed := CompleteLive(cleared, engine);
    var t := Resolve(p.path);
    assert EndsWith(CursorKey(Key(t)), StepSuffix);
    InitTourSessionWrites(completed.page, t, engine);
    if p.current.Some? {
      assert EndsWith(FlagKey(Key(p.current.value.tour)), CompletedSuffix);
    }
  }

  /** As written, resetting while a tour is live re-marks it completed: the
      `complete()` call fires the live tour's handler after the purge, so the
      re-run initialisation finds the flag and starts nothing. The only
      engine call is `complete()`. */
  lemma ResetRecompletesLiveTour(p: Page, engine: Engine)
    requires Wellformed(p) && p.current.Some? && engine.completeNotifies
    ensures var t := p.current.value.tour;
      Reset(p, engine) == Outcome(
        p.(session := WithoutSuffix(p.session, StepSuffix),
           local := MarkCompleted(WithoutSuffix(p.local, CompletedSuffix), Key(t))),
        [Complete])
  {
    var cleared := ClearProgress(p);
    var completed := CompleteLive(cleared, engine);
    assert IsCompleted(completed.page.local, Key(Resolve(p.path)));
  }

  /** The re-marking does not depend on the page invariant: whatever route
      the page is on, the reset as written leaves the live tour's own flag
      set, because `complete()` reaches that tour's handler after the purge. */
  lemma ResetRecompletesAnyRoute(p: Page, engine: Engine)
    requires p.current.Some? && engine.completeNotifies
    ensures IsCompleted(Reset(p, engine).page.local, Key(p.current.value.tour))
  {
    var completed := CompleteLive(ClearProgress(p), engine);
    assert IsCompleted(completed.page.local, Key(p.current.value.tour));
  }

  /** After the dashboard tour navigated the page to `/s/config` (the page
      invariant no longer holds), the reset as written starts the config
      tour and leaves the dashboard tour marked completed. */
  lemma ResetAfterNavigation(session: Store, local: Store, engine: Engine)
    requires engine.completeNotifies
    ensures var r := Reset(Page("/s/config", session, local, Some(LiveTour(Dashboard))), engine);
      && r.page.current == Some(LiveTour(Config))
      && GetItem(r.page.local, "dashboardTourCompleted") == Some("true")
  {
    var p := Page("/s/config", session, local, Some(LiveTour(Dashboard)));
    OnlyConfig(p.path);
    assert StartsWith(p.path, "/s/config");
    assert FlagKey(Key(Dashboard)) == "dashboardTourCompleted";
    var completed := CompleteLive(ClearProgress(p), engine);
    assert !IsCompleted(completed.page.local, Key(Config));
  }

  /** When no `complete` notification comes back (no live tour, or an engine
      that does not notify), reset does restart the page's tour from the top,
      and no tour is left marked completed. */
  lemma ResetRestartsWithoutNotification(p: Page, engine: Engine)
    requires Resolve(p.path) != UnknownTour
    requires p.current.None? || !engine.completeNotifies
    ensures Reset(p, engine).calls ==
      (if p.current.Some? then [Complete] else []) + AddSteps(Steps(Resolve(p.path))) + [Start]
    ensures forall k :: k in Reset(p, engine).page.local ==> !EndsWith(k, CompletedSuffix)
  {
    var t := Resolve(p.path);
    var cleared := ClearProgress(p);
    var completed := CompleteLive(cleared, engine);
    assert completed.page == cleared;
    PurgeClearsProgress(p.session, p.local, Key(t));
    InitTourStarts(cleared, t, engine);
  }

  /** The documented reset restarts the page's tour from the top for every
      engine: the calls are `complete()` on the live tour (if any), then a
      fresh build and `start()`, and no completion flag survives. */
  lemma RestartingResetRestarts(p: Page, engine: Engine)
    requires Resolve(p.path) != UnknownTour
    ensures RestartingReset(p, engine).calls ==
      (if p.current.Some? then [Complete] else []) + AddSteps(Steps(Resolve(p.path))) + [Start]
    ensures RestartingReset(p, engine).page.current == Some(LiveTour(Resolve(p.path)))
    ensures forall k :: k in RestartingReset(p, engine).page.local ==> !EndsWith(k, CompletedSuffix)
  {
    var t := Resolve(p.path);
    var completed := CompleteLive(p, engine);
    var cleared := ClearProgress(completed.page);
    PurgeClearsProgress(completed.page.session, completed.page.local, Key(t));
    assert GetItem(cleared.session, CursorKey(Key(t))) == None;
    InitTourStarts(cleared, t, engine);
    assert RestartingReset(p, engine) == Outcome(InitTour(cleared, t, engine).page, completed.calls + InitTour(cleared, t, engine).calls);
  }

  /** An engine that notifies `complete` only after the documented reset
      has run (the `Completed` event arrives later) re-marks the page's
      tour completed all the same: the handler it reaches is the old
      tour's, under the same key. So the restart holds only for the two
      engine behaviours `Engine` models. */
  lemma LateCompletionRecompletes(p: Page, engine: Engine)
    requires Wellformed(p) && p.current.Some?
    ensures var again := RestartingReset(p, engine).page;
      IsCompleted(Deliver(again, Completed).local, Key(Resolve(p.path)))
  {
    var again := RestartingReset(p, engine).page;
    ResetKeepsWellformed(p, engine, KeyEvent(false, false, ""));
    assert again.current.Some?;
    CompleteMarksOnce(again);
  }

  /** Only Ctrl+Alt together with a lower-case `r` resets; anything else,
      including Ctrl+Alt+Shift+R (`key` is `"R"`), leaves the page alone. */
  lemma ShortcutOnly(p: Page, engine: Engine, ev: KeyEvent)
    ensures !(ev.ctrlKey && ev.altKey && ev.key == "r") ==> OnKeyDown(p, engine, ev) == Outcome(p, [])
    ensures ev.ctrlKey && ev.altKey && ev.key == "r" ==> OnKeyDown(p, engine, ev) == Reset(p, engine)
  {
  }

  // ---- Scenarios -----------------------------------------------------------

  /** A first visit to the dashboard builds the five dashboard steps and
      starts; the cursor holds `dashboard1` only if the opening `show`
      reaches the handler. */
  lemma DashboardFirstVisit(engine: Engine)
    ensures var r := PageLoad("/s/dashboard", map[], map[], engine);
      && r.calls == [AddStep("dashboard1"), AddStep("dashboard2"), AddStep("dashboard3"),
                     AddStep("dashboard4"), AddStep("dashboard5"), Start]
      && r.page.current == Some(LiveTour(Dashboard))
      && r.page.session == (if engine.openingShowHeard then map["dashboardTourStep" := "dashboard1"] else map[])
  {
    OnlyDashboard("/s/dashboard");
    assert StartsWith("/s/dashboard", "/s/dashboard");
    assert CursorKey(Key(Dashboard)) == "dashboardTourStep";
  }

  /** Finishing the dashboard tour stores `dashboardTourCompleted = "true"`,
      keeps the cursor, and a reload of the dashboard starts nothing. */
  lemma DashboardFinished(session: Store, local: Store, engine: Engine)
    ensures var p := Page("/s/dashboard", session, local, Some(LiveTour(Dashboard)));
      var done := Deliver(p, Completed);
      && GetItem(done.local, "dashboardTourCompleted") == Some("true")
      && done.session == session
      && PageLoad("/s/dashboard", done.session, done.local, engine).calls == []
  {
    OnlyDashboard("/s/dashboard");
    assert StartsWith("/s/dashboard", "/s/dashboard");
    assert FlagKey(Key(Dashboard)) == "dashboardTourCompleted";
  }

  /** A stored cursor resumes the segments tour at that step, on any page
      under `/s/segments`: all eleven segments steps are added, then
      `show("segments3")`. */
  lemma SegmentsResume(path: string, engine: Engine)
    requires StartsWith(path, "/s/segments")
    ensures PageLoad(path, map["segmentsTourStep" := "segments3"], map[], engine).calls
      == AddSteps(SegmentsSteps) + [Show("segments3")]
  {
    OnlySegments(path);
    SegmentsCursorKey();
    ResumeOnLoad(path, Segments, engine, "segments3");
  }

  /** The segments tour keeps its cursor under `segmentsTourStep`. */
  lemma SegmentsCursorKey()
    ensures CursorKey(Key(Segments)) == "segmentsTourStep"
  {
  }

  /** A page load on a path resolving to `t`, with nothing completed and
      only `t`'s cursor stored, resumes at that cursor. */
  lemma ResumeOnLoad(path: string, t: KnownTour, engine: Engine, cursor: StepId)
    requires Resolve(path) == t && cursor != ""
    ensures PageLoad(path, map[CursorKey(Key(t)) := cursor], map[], engine).calls
      == AddSteps(Steps(t)) + [Show(cursor)]
  {
    var p := Page(path, map[CursorKey(Key(t)) := cursor], map[], None);
    InitTourResumes(p, t, engine, cursor);
  }

  /** The exact rules do not extend to sub-paths: these pages have no tour,
      while a sub-path of a prefix rule keeps its tour. */
  lemma ContactsSubpathUnmapped()
    ensures Resolve("/s/contacts/5") == UnknownTour
  {
    var path := "/s/contacts/5";
    forall t: KnownTour ensures !Matches(RuleOf(t), path) {
      match t
      case Dashboard => NotPrefixAt(path, "/s/dashboard", 3);
      case Config => NotPrefixAt(path, "/s/config", 6);
      case Contacts =>
      case ImportContacts => assert path[12] != "/s/contacts/import/new"[12];
      case Segments => NotPrefixAt(path, "/s/segments", 3);
      case Campaigns => NotPrefixAt(path, "/s/campaigns", 4);
      case Emails => NotPrefixAt(path, "/s/emails", 3);
      case MarketingMessages => NotPrefixAt(path, "/s/messages", 3);
      case FocusItems => NotPrefixAt(path, "/s/focus", 3);
      case Assets => NotPrefixAt(path, "/s/assets", 3);
      case Forms => NotPrefixAt(path, "/s/forms", 3);
      case LandingPages => NotPrefixAt(path, "/s/pages", 3);
      case DynamicContent => NotPrefixAt(path, "/s/dwc", 3);
      case PointActions => assert path[3] != "/s/points"[3];
      case PointTriggers => NotPrefixAt(path, "/s/points/triggers", 3);
      case PointGroups => NotPrefixAt(path, "/s/points/groups", 3);
      case Stages => NotPrefixAt(path, "/s/stages", 3);
      case Reports => NotPrefixAt(path, "/s/reports", 3);
      case Tags => NotPrefixAt(path, "/s/tags", 3);
    }
    UnknownWhenNoRule(path);
  }

  lemma PointsSubpathUnmapped()
    ensures Resolve("/s/points/") == UnknownTour
  {
    var path := "/s/points/";
    forall t: KnownTour ensures !Matches(RuleOf(t), path) {
      match t
      case Dashboard => NotPrefixAt(path, "/s/dashboard", 3);
      case Config => NotPrefixAt(path, "/s/config", 3);
      case Contacts => assert path[3] != "/s/contacts"[3];
      case ImportContacts => assert path[3] != "/s/contacts/import/new"[3];
      case Segments => NotPrefixAt(path, "/s/segments", 3);
      case Campaigns => NotPrefixAt(path, "/s/campaigns", 3);
      case Emails => NotPrefixAt(path, "/s/emails", 3);
      case MarketingMessages => NotPrefixAt(path, "/s/messages", 3);
      case FocusItems => NotPrefixAt(path, "/s/focus", 3);
      case Assets => NotPrefixAt(path, "/s/assets", 3);
      case Forms => NotPrefixAt(path, "/s/forms", 3);
      case LandingPages => NotPrefixAt(path, "/s/pages", 4);
      case DynamicContent => NotPrefixAt(path, "/s/dwc", 3);
      case PointActions =>
      case PointTriggers =>
      case PointGroups =>
      case Stages => NotPrefixAt(path, "/s/stages", 3);
      case Reports => NotPrefixAt(path, "/s/reports", 3);
      case Tags => NotPrefixAt(path, "/s/tags", 3);
    }
    UnknownWhenNoRule(path);
  }

  /** The import history page that import-step6 links to has no tour, so
      the import tour left live there is not the page's own. */
  lemma ImportHistoryUnmapped(session: Store, local: Store)
    ensures Resolve("/s/contacts/import") == UnknownTour
    ensures !Wellformed(Page("/s/contacts/import", session, local, Some(LiveTour(ImportContacts))))
  {
    var path := "/s/contacts/import";
    forall t: KnownTour ensures !Matches(RuleOf(t), path) {
      match t
      case Dashboard => NotPrefixAt(path, "/s/dashboard", 3);
      case Config => NotPrefixAt(path, "/s/config", 6);
      case Contacts => assert |path| != |"/s/contacts"|;
      case ImportContacts => assert |path| != |"/s/contacts/import/new"|;
      case Segments => NotPrefixAt(path, "/s/segments", 3);
      case Campaigns => NotPrefixAt(path, "/s/campaigns", 4);
      case Emails => NotPrefixAt(path, "/s/emails", 3);
      case MarketingMessages => NotPrefixAt(path, "/s/messages", 3);
      case FocusItems => NotPrefixAt(path, "/s/focus", 3);
      case Assets => NotPrefixAt(path, "/s/assets", 3);
      case Forms => NotPrefixAt(path, "/s/forms", 3);
      case LandingPages => NotPrefixAt(path, "/s/pages", 3);
      case DynamicContent => NotPrefixAt(path, "/s/dwc", 3);
      case PointActions => assert path[3] != "/s/points"[3];
      case PointTriggers => NotPrefixAt(path, "/s/points/triggers", 3);
      case PointGroups => NotPrefixAt(path, "/s/points/groups", 3);
      case Stages => NotPrefixAt(path, "/s/stages", 3);
      case Reports => NotPrefixAt(path, "/s/reports", 3);
      case Tags => NotPrefixAt(path, "/s/tags", 3);
    }
    UnknownWhenNoRule(path);
  }

  lemma PointTriggersSubpathMapped()
    ensures Resolve("/s/points/triggers/new") == PointTriggers
  {
    OnlyPointTriggers("/s/points/triggers/new");
    assert StartsWith("/s/points/triggers/new", "/s/points/triggers");
  }
}
