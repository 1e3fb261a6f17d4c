/** The route resolver of the onboarding tour: a pure function from the page
    path (`window.location.pathname`) to the tour key and the ids of the
    tour's steps. Step descriptors are reduced to their ids; their copy,
    anchors and buttons are data for the rendering engine. */
module Routes {
  import opened Strings

  type StepId = string

  // The tour catalog, one step list per tour (ids only).
  const DashboardSteps: seq<StepId> := ["dashboard1", "dashboard2", "dashboard3", "dashboard4", "dashboard5"]
  const ContactsSteps: seq<StepId> := ["contacts-step1", "contacts-step2", "contacts-step3"]
  const ImportContactsSteps: seq<StepId> :=
    ["import-step1", "import-step2", "import-step3", "import-step4", "import-step5", "import-step6", "import-step7"]
  const ConfigSteps: seq<StepId> := ["config1", "config2", "config3"]
  const SegmentsSteps: seq<StepId> :=
    ["segments1", "segments2", "segments3", "segments4", "segments5", "segments6",
     "segments7", "segments8", "segments9", "segments10", "segments11"]

  /** The tours the page script knows, plus the fall-through `unknownTour`. */
  datatype Tour =
    | Dashboard | Config | Contacts | ImportContacts | Segments | Campaigns
    | Emails | MarketingMessages | FocusItems | Assets | Forms | LandingPages
    | DynamicContent | PointActions | PointTriggers | PointGroups | Stages
    | Reports | Tags | UnknownTour

  /** The storage key prefix (`tourKey`) of each tour. */
  function Key(t: Tour): (r: string)
    ensures |r| > 0
  {
    match t
    case Dashboard => "dashboardTour"
    case Config => "configTour"
    case Contacts => "contactsTour"
    case ImportContacts => "importContactsTour"
    case Segments => "segmentsTour"
    case Campaigns => "campaignsTour"
    case Emails => "emailsTour"
    case MarketingMessages => "marketingMessagesTour"
    case FocusItems => "focusItemsTour"
    case Assets => "assetsTour"
    case Forms => "formsTour"
    case LandingPages => "landingPagesTour"
    case DynamicContent => "dynamicContentTour"
    case PointActions => "pointActionsTour"
    case PointTriggers => "pointTriggersTour"
    case PointGroups => "pointGroupsTour"
    case Stages => "stagesTour"
    case Reports => "reportsTour"
    case Tags => "tagsTour"
    case UnknownTour => "unknownTour"
  }

  /** Different tours never share a storage key, so their progress records
      are kept apart. */
  lemma KeyInjective(t: Tour, u: Tour)
    requires Key(t) == Key(u)
    ensures t == u
  {
  }

  /** The step ids of each tour (`tourSteps`), in order. Every known tour
      has at least one step and `unknownTour` has none, so the orchestrator
      creates a tour object exactly for mapped paths. */
  function Steps(t: Tour): (r: seq<StepId>)
    ensures |r| == 0 <==> t == UnknownTour
  {
    match t
    case Dashboard => DashboardSteps
    case Config => ConfigSteps
    case Contacts => ContactsSteps
    case ImportContacts => ImportContactsSteps
    case Segments => SegmentsSteps
    case Campaigns => ["campaigns1"]
    case Emails => ["emails1"]
    case MarketingMessages => ["marketingmessages1"]
    case FocusItems => ["focusitems1"]
    case Assets => ["assets1"]
    case Forms => ["forms1"]
    case LandingPages => ["landingpages1"]
    case DynamicContent => ["dynamiccontent1"]
    case PointActions => ["pointactions1"]
    case PointTriggers => ["pointtriggers1"]
    case PointGroups => ["pointgroups1"]
    case Stages => ["stages1"]
    case Reports => ["reports1"]
    case Tags => ["tags1"]
    case UnknownTour => []
  }

  /** The resolver exactly as the page script chains its tests: prefix tests
      (`startsWith`) and three exact tests (`===`), first hit wins. */
  function Resolve(path: string): (r: Tour)
    ensures r != UnknownTour ==> |path| >= |"/s/dwc"|
  {
    if StartsWith(path, "/s/dashboard") then Dashboard
    else if StartsWith(path, "/s/config") then Config
    else if path == "/s/contacts" then Contacts
    else if path == "/s/contacts/import/new" then ImportContacts
    else if StartsWith(path, "/s/segments") then Segments
    else if StartsWith(path, "/s/campaigns") then Campaigns
    else if StartsWith(path, "/s/emails") then Emails
    else if StartsWith(path, "/s/messages") then MarketingMessages
    else if StartsWith(path, "/s/focus") then FocusItems
    else if StartsWith(path, "/s/assets") then Assets
    else if StartsWith(path, "/s/forms") then Forms
    else if StartsWith(path, "/s/pages") then LandingPages
    else if StartsWith(path, "/s/dwc") then DynamicContent
    else if path == "/s/points" then PointActions
    else if StartsWith(path, "/s/points/triggers") then PointTriggers
    else if StartsWith(path, "/s/points/groups") then PointGroups
    else if StartsWith(path, "/s/stages") then Stages
    else if StartsWith(path, "/s/reports") then Reports
    else if StartsWith(path, "/s/tags") then Tags
    else UnknownTour
  }

  /** The tours a rule can select. */
  type KnownTour = t: Tour | !t.UnknownTour? witness Dashboard

  /** A reference definition of the same routing, as data: each known tour
      has one rule, and the rules are read by one generic first-match
      routine (`Lookup`) rather than by a chain of branches. */
  datatype Matcher = Exact(target: string) | Prefix(stem: string)

  predicate Matches(m: Matcher, path: string) {
    match m
    case Exact(t) => path == t
    case Prefix(s) => StartsWith(path, s)
  }

  function RuleOf(t: KnownTour): (r: Matcher)
    ensures r.Exact? <==> t in {Contacts, ImportContacts, PointActions}
  {
    match t
    case Dashboard => Prefix("/s/dashboard")
    case Config => Prefix("/s/config")
    case Contacts => Exact("/s/contacts")
    case ImportContacts => Exact("/s/contacts/import/new")
    case Segments => Prefix("/s/segments")
    case Campaigns => Prefix("/s/campaigns")
    case Emails => Prefix("/s/emails")
    case MarketingMessages => Prefix("/s/messages")
    case FocusItems => Prefix("/s/focus")
    case Assets => Prefix("/s/assets")
    case Forms => Prefix("/s/forms")
    case LandingPages => Prefix("/s/pages")
    case DynamicContent => Prefix("/s/dwc")
    case PointActions => Exact("/s/points")
    case PointTriggers => Prefix("/s/points/triggers")
    case PointGroups => Prefix("/s/points/groups")
    case Stages => Prefix("/s/stages")
    case Reports => Prefix("/s/reports")
    case Tags => Prefix("/s/tags")
  }

  /** The order in which the page script tries the rules. */
  const Priority: seq<KnownTour> := [
    Dashboard, Config, Contacts, ImportContacts, Segments, Campaigns, Emails,
    MarketingMessages, FocusItems, Assets, Forms, LandingPages, DynamicContent,
    PointActions, PointTriggers, PointGroups, Stages, Reports, Tags
  ]

  /** First-match lookup: the first tour of `order` whose rule matches. */
  function Lookup(order: seq<KnownTour>, path: string): (r: Tour)
    ensures r == UnknownTour || r in order
  {
    if |order| == 0 then UnknownTour
    else if Matches(RuleOf(order[0]), path) then order[0]
    else Lookup(order[1..], path)
  }

  /** A tour is selected by the resolver exactly when its own rule matches
      the path: no earlier branch of the chain shadows a later one. */
  lemma Decides(path: string, t: KnownTour)
    ensures Resolve(path) == t <==> Matches(RuleOf(t), path)
  {
    match t
    case Dashboard => OnlyDashboard(path);
    case Config => OnlyConfig(path);
    case Contacts => OnlyContacts(path);
    case ImportContacts => OnlyImportContacts(path);
    case Segments => OnlySegments(path);
    case Campaigns => OnlyCampaigns(path);
    case Emails => OnlyEmails(path);
    case MarketingMessages => OnlyMarketingMessages(path);
    case FocusItems => OnlyFocusItems(path);
    case Assets => OnlyAssets(path);
    case Forms => OnlyForms(path);
    case LandingPages => OnlyLandingPages(path);
    case DynamicContent => OnlyDynamicContent(path);
    case PointActions => OnlyPointActions(path);
    case PointTriggers => OnlyPointTriggers(path);
    case PointGroups => OnlyPointGroups(path);
    case Stages => OnlyStages(path);
    case Reports => OnlyReports(path);
    case Tags => OnlyTags(path);
  }

  /** No path matches the rules of two different tours. */
  lemma RulesDisjoint(path: string, t: KnownTour, u: KnownTour)
    requires Matches(RuleOf(t), path) && Matches(RuleOf(u), path)
    ensures t == u
  {
    Decides(path, t);
    Decides(path, u);
  }

  /** The fall-through `unknownTour` is chosen exactly when no rule matches. */
  lemma UnknownWhenNoRule(path: string)
    ensures Resolve(path) == UnknownTour <==> forall t: KnownTour :: !Matches(RuleOf(t), path)
  {
    if Resolve(path) != UnknownTour {
      Decides(path, Resolve(path));
    } else {
      forall t: KnownTour ensures !Matches(RuleOf(t), path) {
        Decides(path, t);
      }
    }
  }

  /** Because the rules are disjoint, the order in which they are tried does
      not matter: first-match lookup over ANY ordering of the known tours
      agrees with the resolver. */
  lemma {:induction false} LookupAnyOrder(order: seq<KnownTour>, path: string)
    requires forall t: KnownTour :: t in order
    ensures Lookup(order, path) == Resolve(path)
  {
    if Resolve(path) == UnknownTour {
      UnknownWhenNoRule(path);
      LookupNoMatch(order, path);
    } else {
      Decides(path, Resolve(path));
      LookupFinds(order, path, Resolve(path));
    }
  }

  lemma {:induction false} LookupNoMatch(order: seq<KnownTour>, path: string)
    requires forall t: KnownTour :: !Matches(RuleOf(t), path)
    ensures Lookup(order, path) == UnknownTour
  {
    if |order| > 0 {
      LookupNoMatch(order[1..], path);
    }
  }

  lemma {:induction false} LookupFinds(order: seq<KnownTour>, path: string, t: KnownTour)
    requires t in order && Matches(RuleOf(t), path)
    ensures Lookup(order, path) == t
  {
    if order[0] == t {
    } else if Matches(RuleOf(order[0]), path) {
      RulesDisjoint(path, order[0], t);
    } else {
      LookupFinds(order[1..], path, t);
    }
  }

  /** In particular the table, read in the page script's own order. */
  lemma ResolveIsTableLookup(path: string)
    ensures Resolve(path) == Lookup(Priority, path)
  {
    forall t: KnownTour ensures t in Priority {
      match t
      case Dashboard => assert Priority[0] == Dashboard;
      case Config => assert Priority[1] == Config;
      case Contacts => assert Priority[2] == Contacts;
      case ImportContacts => assert Priority[3] == ImportContacts;
      case Segments => assert Priority[4] == Segments;
      case Campaigns => assert Priority[5] == Campaigns;
      case Emails => assert Priority[6] == Emails;
      case MarketingMessages => assert Priority[7] == MarketingMessages;
      case FocusItems => assert Priority[8] == FocusItems;
      case Assets => assert Priority[9] == Assets;
      case Forms => assert Priority[10] == Forms;
      case LandingPages => assert Priority[11] == LandingPages;
      case DynamicContent => assert Priority[12] == DynamicContent;
      case PointActions => assert Priority[13] == PointActions;
      case PointTriggers => assert Priority[14] == PointTriggers;
      case PointGroups => assert Priority[15] == PointGroups;
      case Stages => assert Priority[16] == Stages;
      case Reports => assert Priority[17] == Reports;
      case Tags => assert Priority[18] == Tags;
    }
    LookupAnyOrder(Priority, path);
  }

  // One lemma per rule: the branch is taken only when the rule matches, and
  // a path matching the rule fails every earlier test, each refuted at a
  // position where the two rule strings differ (or by length).

  lemma OnlyDashboard(path: string)
    ensures Resolve(path) == Dashboard <==> StartsWith(path, "/s/dashboard")
  {
    if StartsWith(path, "/s/dashboard") {
      Discriminators(path, "/s/dashboard");
    }
  }

  lemma OnlyConfig(path: string)
    ensures Resolve(path) == Config <==> StartsWith(path, "/s/config")
  {
    if StartsWith(path, "/s/config") {
      Discriminators(path, "/s/config");
      NotPrefixAt(path, "/s/dashboard", 3);
    }
  }

  lemma OnlyContacts(path: string)
    ensures Resolve(path) == Contacts <==> path == "/s/contacts"
  {
    if path == "/s/contacts" {
      NotPrefixAt(path, "/s/dashboard", 3);
      NotPrefixAt(path, "/s/config", 6);
    }
  }

  lemma OnlyImportContacts(path: string)
    ensures Resolve(path) == ImportContacts <==> path == "/s/contacts/import/new"
  {
    if path == "/s/contacts/import/new" {
      NotPrefixAt(path, "/s/dashboard", 3);
      NotPrefixAt(path, "/s/config", 6);
    }
  }

  lemma OnlySegments(path: string)
    ensures Resolve(path) == Segments <==> StartsWith(path, "/s/segments")
  {
    if StartsWith(path, "/s/segments") {
      Discriminators(path, "/s/segments");
      NotPrefixAt(path, "/s/dashboard", 3);
      NotPrefixAt(path, "/s/config", 3);
      NotEqualAt(path, "/s/contacts", 3);
      NotEqualAt(path, "/s/contacts/import/new", 3);
    }
  }

  lemma OnlyCampaigns(path: string)
    ensures Resolve(path) == Campaigns <==> StartsWith(path, "/s/campaigns")
  {
    if StartsWith(path, "/s/campaigns") {
      Discriminators(path, "/s/campaigns");
      NotPrefixAt(path, "/s/dashboard", 3);
      NotPrefixAt(path, "/s/config", 4);
      NotEqualAt(path, "/s/contacts", 4);
      NotEqualAt(path, "/s/contacts/import/new", 4);
      NotPrefixAt(path, "/s/segments", 3);
    }
  }

  lemma OnlyEmails(path: string)
    ensures Resolve(path) == Emails <==> StartsWith(path, "/s/emails")
  {
    if StartsWith(path, "/s/emails") {
      Discriminators(path, "/s/emails");
      NotPrefixAt(path, "/s/dashboard", 3);
      NotPrefixAt(path, "/s/config", 3);
      NotEqualAt(path, "/s/contacts", 3);
      NotEqualAt(path, "/s/contacts/import/new", 3);
      NotPrefixAt(path, "/s/segments", 3);
      NotPrefixAt(path, "/s/campaigns", 3);
    }
  }

  lemma OnlyMarketingMessages(path: string)
    ensures Resolve(path) == MarketingMessages <==> StartsWith(path, "/s/messages")
  {
    if StartsWith(path, "/s/messages") {
      Discriminators(path, "/s/messages");
      NotPrefixAt(path, "/s/dashboard", 3);
      NotPrefixAt(path, "/s/config", 3);
      NotEqualAt(path, "/s/contacts", 3);
      NotEqualAt(path, "/s/contacts/import/new", 3);
      NotPrefixAt(path, "/s/segments", 3);
      NotPrefixAt(path, "/s/campaigns", 3);
      NotPrefixAt(path, "/s/emails", 3);
    }
  }

  lemma OnlyFocusItems(path: string)
    ensures Resolve(path) == FocusItems <==> StartsWith(path, "/s/focus")
  {
    if StartsWith(path, "/s/focus") {
      Discriminators(path, "/s/focus");
      NotPrefixAt(path, "/s/dashboard", 3);
      NotPrefixAt(path, "/s/config", 3);
      NotEqualAt(path, "/s/contacts", 3);
      NotEqualAt(path, "/s/contacts/import/new", 3);
      NotPrefixAt(path, "/s/segments", 3);
      NotPrefixAt(path, "/s/campaigns", 3);
      NotPrefixAt(path, "/s/emails", 3);
      NotPrefixAt(path, "/s/messages", 3);
    }
  }

  lemma OnlyAssets(path: string)
    ensures Resolve(path) == Assets <==> StartsWith(path, "/s/assets")
  {
    if StartsWith(path, "/s/assets") {
      Discriminators(path, "/s/assets");
      NotPrefixAt(path, "/s/dashboard", 3);
      NotPrefixAt(path, "/s/config", 3);
      NotEqualAt(path, "/s/contacts", 3);
      NotEqualAt(path, "/s/contacts/import/new", 3);
      NotPrefixAt(path, "/s/segments", 3);
      NotPrefixAt(path, "/s/campaigns", 3);
      NotPrefixAt(path, "/s/emails", 3);
      NotPrefixAt(path, "/s/messages", 3);
      NotPrefixAt(path, "/s/focus", 3);
    }
  }

  lemma OnlyForms(path: string)
    ensures Resolve(path) == Forms <==> StartsWith(path, "/s/forms")
  {
    if StartsWith(path, "/s/forms") {
      Discriminators(path, "/s/forms");
      NotPrefixAt(path, "/s/dashboard", 3);
      NotPrefixAt(path, "/s/config", 3);
      NotEqualAt(path, "/s/contacts", 3);
      NotEqualAt(path, "/s/contacts/import/new", 3);
      NotPrefixAt(path, "/s/segments", 3);
      NotPrefixAt(path, "/s/campaigns", 3);
      NotPrefixAt(path, "/s/emails", 3);
      NotPrefixAt(path, "/s/messages", 3);
      NotPrefixAt(path, "/s/focus", 5);
      NotPrefixAt(path, "/s/assets", 3);
    }
  }

  lemma OnlyLandingPages(path: string)
    ensures Resolve(path) == LandingPages <==> StartsWith(path, "/s/pages")
  {
    if StartsWith(path, "/s/pages") {
      Discriminators(path, "/s/pages");
      NotPrefixAt(path, "/s/dashboard", 3);
      NotPrefixAt(path, "/s/config", 3);
      NotEqualAt(path, "/s/contacts", 3);
      NotEqualAt(path, "/s/contacts/import/new", 3);
      NotPrefixAt(path, "/s/segments", 3);
      NotPrefixAt(path, "/s/campaigns", 3);
      NotPrefixAt(path, "/s/emails", 3);
      NotPrefixAt(path, "/s/messages", 3);
      NotPrefixAt(path, "/s/focus", 3);
      NotPrefixAt(path, "/s/assets", 3);
      NotPrefixAt(path, "/s/forms", 3);
    }
  }

  lemma OnlyDynamicContent(path: string)
    ensures Resolve(path) == DynamicContent <==> StartsWith(path, "/s/dwc")
  {
    if StartsWith(path, "/s/dwc") {
      Discriminators(path, "/s/dwc");
      NotPrefixAt(path, "/s/dashboard", 4);
      NotPrefixAt(path, "/s/config", 3);
      NotEqualAt(path, "/s/contacts", 3);
      NotEqualAt(path, "/s/contacts/import/new", 3);
      NotPrefixAt(path, "/s/segments", 3);
      NotPrefixAt(path, "/s/campaigns", 3);
      NotPrefixAt(path, "/s/emails", 3);
      NotPrefixAt(path, "/s/messages", 3);
      NotPrefixAt(path, "/s/focus", 3);
      NotPrefixAt(path, "/s/assets", 3);
      NotPrefixAt(path, "/s/forms", 3);
      NotPrefixAt(path, "/s/pages", 3);
    }
  }

  lemma OnlyPointActions(path: string)
    ensures Resolve(path) == PointActions <==> path == "/s/points"
  {
    if path == "/s/points" {
      NotPrefixAt(path, "/s/dashboard", 3);
      NotPrefixAt(path, "/s/config", 3);
      NotEqualAt(path, "/s/contacts", 3);
      NotEqualAt(path, "/s/contacts/import/new", 3);
      NotPrefixAt(path, "/s/segments", 3);
      NotPrefixAt(path, "/s/campaigns", 3);
      NotPrefixAt(path, "/s/emails", 3);
      NotPrefixAt(path, "/s/messages", 3);
      NotPrefixAt(path, "/s/focus", 3);
      NotPrefixAt(path, "/s/assets", 3);
      NotPrefixAt(path, "/s/forms", 3);
      NotPrefixAt(path, "/s/pages", 4);
      NotPrefixAt(path, "/s/dwc", 3);
    }
  }

  lemma OnlyPointTriggers(path: string)
    ensures Resolve(path) == PointTriggers <==> StartsWith(path, "/s/points/triggers")
  {
    if StartsWith(path, "/s/points/triggers") {
      Discriminators(path, "/s/points/triggers");
      NotPrefixAt(path, "/s/dashboard", 3);
      NotPrefixAt(path, "/s/config", 3);
      NotEqualAt(path, "/s/contacts", 3);
      NotEqualAt(path, "/s/contacts/import/new", 3);
      NotPrefixAt(path, "/s/segments", 3);
      NotPrefixAt(path, "/s/campaigns", 3);
      NotPrefixAt(path, "/s/emails", 3);
      NotPrefixAt(path, "/s/messages", 3);
      NotPrefixAt(path, "/s/focus", 3);
      NotPrefixAt(path, "/s/assets", 3);
      NotPrefixAt(path, "/s/forms", 3);
      NotPrefixAt(path, "/s/pages", 4);
      NotPrefixAt(path, "/s/dwc", 3);
    }
  }

  lemma OnlyPointGroups(path: string)
    ensures Resolve(path) == PointGroups <==> StartsWith(path, "/s/points/groups")
  {
    if StartsWith(path, "/s/points/groups") {
      Discriminators(path, "/s/points/groups");
      NotPrefixAt(path, "/s/dashboard", 3);
      NotPrefixAt(path, "/s/config", 3);
      NotEqualAt(path, "/s/contacts", 3);
      NotEqualAt(path, "/s/contacts/import/new", 3);
      NotPrefixAt(path, "/s/segments", 3);
      NotPrefixAt(path, "/s/campaigns", 3);
      NotPrefixAt(path, "/s/emails", 3);
      NotPrefixAt(path, "/s/messages", 3);
      NotPrefixAt(path, "/s/focus", 3);
      NotPrefixAt(path, "/s/assets", 3);
      NotPrefixAt(path, "/s/forms", 3);
      NotPrefixAt(path, "/s/pages", 4);
      NotPrefixAt(path, "/s/dwc", 3);
      NotPrefixAt(path, "/s/points/triggers", 10);
    }
  }

  lemma OnlyStages(path: string)
    ensures Resolve(path) == Stages <==> StartsWith(path, "/s/stages")
  {
    if StartsWith(path, "/s/stages") {
      Discriminators(path, "/s/stages");
      NotPrefixAt(path, "/s/dashboard", 3);
      NotPrefixAt(path, "/s/config", 3);
      NotEqualAt(path, "/s/contacts", 3);
      NotEqualAt(path, "/s/contacts/import/new", 3);
      NotPrefixAt(path, "/s/segments", 4);
      NotPrefixAt(path, "/s/campaigns", 3);
      NotPrefixAt(path, "/s/emails", 3);
      NotPrefixAt(path, "/s/messages", 3);
      NotPrefixAt(path, "/s/focus", 3);
      NotPrefixAt(path, "/s/assets", 3);
      NotPrefixAt(path, "/s/forms", 3);
      NotPrefixAt(path, "/s/pages", 3);
      NotPrefixAt(path, "/s/dwc", 3);
      NotEqualAt(path, "/s/points", 3);
      NotPrefixAt(path, "/s/points/triggers", 3);
      NotPrefixAt(path, "/s/points/groups", 3);
    }
  }

  lemma OnlyReports(path: string)
    ensures Resolve(path) == Reports <==> StartsWith(path, "/s/reports")
  {
    if StartsWith(path, "/s/reports") {
      Discriminators(path, "/s/reports");
      NotPrefixAt(path, "/s/dashboard", 3);
      NotPrefixAt(path, "/s/config", 3);
      NotEqualAt(path, "/s/contacts", 3);
      NotEqualAt(path, "/s/contacts/import/new", 3);
      NotPrefixAt(path, "/s/segments", 3);
      NotPrefixAt(path, "/s/campaigns", 3);
      NotPrefixAt(path, "/s/emails", 3);
      NotPrefixAt(path, "/s/messages", 3);
      NotPrefixAt(path, "/s/focus", 3);
      NotPrefixAt(path, "/s/assets", 3);
      NotPrefixAt(path, "/s/forms", 3);
      NotPrefixAt(path, "/s/pages", 3);
      NotPrefixAt(path, "/s/dwc", 3);
      NotEqualAt(path, "/s/points", 3);
      NotPrefixAt(path, "/s/points/triggers", 3);
      NotPrefixAt(path, "/s/points/groups", 3);
      NotPrefixAt(path, "/s/stages", 3);
    }
  }

  lemma OnlyTags(path: string)
    ensures Resolve(path) == Tags <==> StartsWith(path, "/s/tags")
  {
    if StartsWith(path, "/s/tags") {
      Discriminators(path, "/s/tags");
      NotPrefixAt(path, "/s/dashboard", 3);
      NotPrefixAt(path, "/s/config", 3);
      NotEqualAt(path, "/s/contacts", 3);
      NotEqualAt(path, "/s/contacts/import/new", 3);
      NotPrefixAt(path, "/s/segments", 3);
      NotPrefixAt(path, "/s/campaigns", 3);
      NotPrefixAt(path, "/s/emails", 3);
      NotPrefixAt(path, "/s/messages", 3);
      NotPrefixAt(path, "/s/focus", 3);
      NotPrefixAt(path, "/s/assets", 3);
      NotPrefixAt(path, "/s/forms", 3);
      NotPrefixAt(path, "/s/pages", 3);
      NotPrefixAt(path, "/s/dwc", 3);
      NotEqualAt(path, "/s/points", 3);
      NotPrefixAt(path, "/s/points/triggers", 3);
      NotPrefixAt(path, "/s/points/groups", 3);
      NotPrefixAt(path, "/s/stages", 3);
      NotPrefixAt(path, "/s/reports", 3);
    }
  }

  /** A path that differs from a stem at a position inside the stem does
      not start with it. */
  lemma NotPrefixAt(path: string, s: string, k: nat)
    requires k < |s| && (k >= |path| || path[k] != s[k])
    ensures !StartsWith(path, s)
  {
    if StartsWith(path, s) {
      StartsWithAt(path, s, k);
    }
  }

  /** A path that differs from a string at a position inside the string is
      not that string. */
  lemma NotEqualAt(path: string, s: string, k: nat)
    requires k < |s| && (k >= |path| || path[k] != s[k])
    ensures path != s
  {
  }

  /** The positions at which the rule strings differ from one another. */
  lemma Discriminators(path: string, s: string)
    requires StartsWith(path, s) && |s| >= 6
    ensures path[3] == s[3] && path[4] == s[4] && path[5] == s[5]
    ensures |s| > 6 ==> path[6] == s[6]
    ensures |s| > 10 ==> path[10] == s[10]
  {
    StartsWithAt(path, s, 3);
    StartsWithAt(path, s, 4);
    StartsWithAt(path, s, 5);
    if |s| > 6 { StartsWithAt(path, s, 6); }
    if |s| > 10 { StartsWithAt(path, s, 10); }
  }
}
