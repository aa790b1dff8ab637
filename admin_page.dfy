/**
 * The admin page's local state: the active tab and which sections it shows,
 * the criteria input with its add and remove actions, and the guarded reset.
 * Every server request is recorded in an append-only call log; the server's
 * answers come back as method parameters.
 */
module AdminPage {
  import opened Wrappers
  import opened Text
  import opened Records
  import opened Stats

  /** The six tabs, in the order of the navigation bar. */
  datatype Tab = Dashboard | Juries | Teams | Config | Exports | Criteria

  const TabBar: seq<Tab> := [Dashboard, Juries, Teams, Config, Exports, Criteria]

  /** The string id `setActiveTab` receives for each tab. */
  function TabId(t: Tab): string {
    match t
    case Dashboard => "dashboard"
    case Juries => "juries"
    case Teams => "teams"
    case Config => "config"
    case Exports => "exports"
    case Criteria => "criteria"
  }

  /** The tab a string id names, if any. */
  function ParseTab(id: string): (r: Option<Tab>)
    ensures r.Some? ==> TabId(r.value) == id
    ensures r.None? ==> forall t :: TabId(t) != id
  {
    if id == "dashboard" then Some(Dashboard)
    else if id == "juries" then Some(Juries)
    else if id == "teams" then Some(Teams)
    else if id == "config" then Some(Config)
    else if id == "exports" then Some(Exports)
    else if id == "criteria" then Some(Criteria)
    else None
  }

  /** Every tab's id reads back as that tab, so the six ids are distinct. */
  lemma TabIdRoundTrip(t: Tab)
    ensures ParseTab(TabId(t)) == Some(t)
  {
  }

  /** The navigation bar offers every tab exactly once. */
  lemma TabBarListsEachTabOnce()
    ensures forall t :: t in TabBar
    ensures forall i, j :: 0 <= i < j < |TabBar| ==> TabBar[i] != TabBar[j]
  {
    forall t ensures t in TabBar {
      match t
      case Dashboard => assert TabBar[0] == t;
      case Juries => assert TabBar[1] == t;
      case Teams => assert TabBar[2] == t;
      case Config => assert TabBar[3] == t;
      case Exports => assert TabBar[4] == t;
      case Criteria => assert TabBar[5] == t;
    }
  }

  /** The tabs whose body the external admin panel component renders. */
  predicate IsDelegated(t: Tab)
    ensures IsDelegated(t) <==> t != Dashboard && t != Criteria
  {
    t == Exports || t == Teams || t == Config || t == Juries
  }

  /** The blocks the content area can render. */
  datatype Section =
    | Overview                    // the statistics grid of the dashboard tab
    | CriteriaEditor              // the criteria list with its input
    | ExportActions               // the built-in leaderboard and per-jury export buttons
    | DelegatedPanel(tab: Tab)    // the external admin panel, told which tab is active

  /** The tab a section belongs to. */
  function Owner(s: Section): Tab {
    match s
    case Overview => Dashboard
    case CriteriaEditor => Criteria
    case ExportActions => Exports
    case DelegatedPanel(t) => t
  }

  /** The content area for the active tab: the four conditional blocks in page order. */
  function Sections(t: Tab): (r: seq<Section>)
    ensures r != []
    ensures forall k :: 0 <= k < |r| ==> Owner(r[k]) == t
    ensures Overview in r <==> t == Dashboard
    ensures CriteriaEditor in r <==> t == Criteria
    ensures ExportActions in r <==> t == Exports
    ensures forall u :: DelegatedPanel(u) in r <==> u == t && IsDelegated(t)
    ensures |r| == (if t == Exports then 2 else 1)
  {
    (if t == Dashboard then [Overview] else [])
    + (if t == Criteria then [CriteriaEditor] else [])
    + (if t == Exports then [ExportActions] else [])
    + (if IsDelegated(t) then [DelegatedPanel(t)] else [])
  }

  /** Two different tabs never share a rendered section. */
  lemma SectionsOfDistinctTabsDisjoint(t: Tab, u: Tab)
    requires t != u
    ensures forall s :: s in Sections(t) ==> s !in Sections(u)
  {
  }

  /** A request to the server, as issued by the page. */
  datatype ApiCall =
    | GetJuries
    | GetTeams
    | GetConfig
    | ResetAll
    | GetCriteria
    | AddCriterion(value: string)
    | RemoveCriterion(index: int)

  /** A toast notification. */
  datatype Notice = SuccessToast(text: string) | ErrorToast(text: string)

  const InvalidCriterionText: string := "Please enter a valid criterion"
  const ResetDoneText: string := "All data reset!"
  const ResetFailedPrefix: string := "Failed to reset: "

  /** The three concurrent requests of a full data reload. */
  const FetchDataCalls: seq<ApiCall> := [GetJuries, GetTeams, GetConfig]

  /**
   * What adding the typed text sends: nothing when it is blank after trimming,
   * otherwise the trimmed text in upper case.
   */
  function CriterionToSend(input: string): (r: Option<string>)
    ensures r.None? <==> AllSpace(input)
    ensures r.Some? ==> r.value != [] && Tight(r.value) && NoLowerCase(r.value)
  {
    var trimmed := Trim(input);
    if trimmed == [] then None
    else
      UpperIsNormal(trimmed);
      UpperKeepsTight(trimmed);
      Some(Upper(trimmed))
  }

  /**
   * The value sent is the typed text's core, upper-cased: whatever whitespace
   * surrounds a core with non-blank ends, the core alone is upper-cased and sent.
   */
  lemma CriterionToSendOfPadded(pre: string, core: string, post: string)
    requires AllSpace(pre) && AllSpace(post) && Tight(core) && core != []
    ensures CriterionToSend(pre + core + post) == Some(Upper(core))
  {
    TrimPadded(pre, core, post);
  }

  /** Sending is idempotent: a sent criterion would be sent again unchanged. */
  lemma CriterionToSendIdempotent(input: string)
    requires CriterionToSend(input).Some?
    ensures CriterionToSend(CriterionToSend(input).value) == CriterionToSend(input)
  {
    var v := CriterionToSend(input).value;
    TrimPadded([], v, []);
    assert [] + v + [] == v;
    UpperOfNoLowerCase(v);
  }

  /**
   * Surrounding whitespace and letter case do not change what is sent; in
   * particular the input field's own upper-casing changes nothing.
   */
  lemma CriterionToSendIgnoresCaseAndPadding(pre: string, input: string, post: string)
    requires AllSpace(pre) && AllSpace(post)
    ensures CriterionToSend(pre + input + post) == CriterionToSend(input)
    ensures CriterionToSend(Upper(input)) == CriterionToSend(input)
  {
    TrimIgnoresPadding(pre, input, post);
    TrimUpperCommute(input);
    UpperIsNormal(Trim(input));
  }

  /** A padded, lower-case criterion is sent trimmed and upper-cased. */
  lemma FairnessExample()
    ensures CriterionToSend("  fairness  ") == Some("FAIRNESS")
  {
    FairnessTrimmed();
    FairnessUpper();
  }

  lemma FairnessTrimmed()
    ensures Trim("  fairness  ") == "fairness"
  {
    TrimPadded("  ", "fairness", "  ");
    assert "  " + "fairness" + "  " == "  fairness  ";
  }

  lemma FairnessUpper()
    ensures Upper("fairness") == "FAIRNESS"
  {
    var u := Upper("fairness");
    assert forall k :: 0 <= k < 8 ==> u[k] == UpperChar("fairness"[k]);
  }

  /** Empty and whitespace-only inputs send nothing. */
  lemma BlankExample()
    ensures CriterionToSend("") == None && CriterionToSend("   ") == None
  {
    assert AllSpace("   ");
  }

  /** The error text of a failed reset: the server's message if non-empty, else the error's own. */
  function ResetFailureText(serverMessage: Option<string>, errorMessage: string): (text: string)
    ensures |text| >= |ResetFailedPrefix| && text[..|ResetFailedPrefix|] == ResetFailedPrefix
    ensures serverMessage.Some? && serverMessage.value != "" ==> text[|ResetFailedPrefix|..] == serverMessage.value
    ensures serverMessage.None? || serverMessage.value == "" ==> text[|ResetFailedPrefix|..] == errorMessage
  {
    ResetFailedPrefix + (if serverMessage.Some? && serverMessage.value != "" then serverMessage.value else errorMessage)
  }

  /** How the reset request ended. */
  datatype ResetOutcome = ResetOk | ResetFailed(serverMessage: Option<string>, errorMessage: string)

  /** The admin page component: its state fields and event handlers. */
  class Page {
    var activeTab: Tab
    var juries: seq<Jury>
    var teams: seq<Team>
    var criteria: seq<string>
    var newCriteria: string
    var calls: seq<ApiCall>       // every server request, in order
    var notices: seq<Notice>      // every toast shown, in order

    /** The page as first mounted: empty state, and the mount-time fetches issued. */
    constructor ()
      ensures activeTab == Dashboard
      ensures juries == [] && teams == [] && criteria == [] && newCriteria == ""
      ensures calls == FetchDataCalls + [GetCriteria] && notices == []
    {
      activeTab := Dashboard;
      juries, teams := [], [];
      criteria, newCriteria := [], "";
      calls := FetchDataCalls + [GetCriteria];
      notices := [];
    }

    /** The statistics the dashboard tab displays. */
    function CurrentStats(): (s: DashboardStats)
      reads this
      ensures s.totalJuries == |juries| && s.totalTeams == |teams|
      ensures s.submitted + s.paused + s.pending == s.totalJuries && s.pending >= 0
    {
      GetDashboardStats(juries, teams)
    }

    /** What the content area shows. */
    function VisibleSections(): (r: seq<Section>)
      reads this
      ensures forall k :: 0 <= k < |r| ==> Owner(r[k]) == activeTab
    {
      Sections(activeTab)
    }

    /** Clicking a tab: only the active tab changes, and nothing is requested. */
    method SelectTab(t: Tab)
      modifies this`activeTab
      ensures activeTab == t
      ensures calls == old(calls) && notices == old(notices)
    {
      activeTab := t;
    }

    /**
     * A full data reload (`fetchData`): the header's Refresh button, the error
     * view's retry button and the external panel's data-update callback all
     * issue the three concurrent requests, and nothing else.
     */
    method Refresh()
      modifies this`calls
      ensures calls == old(calls) + FetchDataCalls
    {
      calls := calls + FetchDataCalls;
    }

    /** Typing in the criteria input, which exists only on the criteria tab. */
    method EditCriterion(value: string)
      requires activeTab == Criteria
      modifies this`newCriteria
      ensures newCriteria == value
    {
      newCriteria := value;
    }

    /**
     * The Add button. Blank input raises an error toast and sends nothing.
     * Otherwise the normalised text is sent once; if the server accepts it the
     * input is cleared and the list re-fetched, and if it rejects it the
     * handler stops there with the input as it was. The displayed list is
     * never updated here: only a later `CriteriaLoaded` changes it.
     */
    method Add(addSucceeded: bool)
      requires activeTab == Criteria
      modifies this`newCriteria, this`calls, this`notices
      ensures CriterionToSend(old(newCriteria)).None? ==>
        calls == old(calls) && newCriteria == old(newCriteria) &&
        notices == old(notices) + [ErrorToast(InvalidCriterionText)]
      ensures CriterionToSend(old(newCriteria)).Some? ==>
        notices == old(notices) &&
        calls == old(calls) + [AddCriterion(CriterionToSend(old(newCriteria)).value)]
                 + (if addSucceeded then [GetCriteria] else []) &&
        newCriteria == (if addSucceeded then "" else old(newCriteria))
    {
      var trimmed := Trim(newCriteria);
      if trimmed != "" {
        var capitalized := Upper(trimmed);
        calls := calls + [AddCriterion(capitalized)];
        if addSucceeded {
          newCriteria := "";
          calls := calls + [GetCriteria];
        }
      } else {
        notices := notices + [ErrorToast(InvalidCriterionText)];
      }
    }

    /** A criterion's delete button: forwards its position, then re-fetches if accepted. */
    method Remove(index: int, removeSucceeded: bool)
      requires activeTab == Criteria
      modifies this`calls
      ensures calls == old(calls) + [RemoveCriterion(index)] + (if removeSucceeded then [GetCriteria] else [])
    {
      calls := calls + [RemoveCriterion(index)];
      if removeSucceeded {
        calls := calls + [GetCriteria];
      }
    }

    /** The criteria request answered: the list shown is exactly the server's. */
    method CriteriaLoaded(fetched: seq<string>)
      modifies this`criteria
      ensures criteria == fetched
    {
      criteria := fetched;
    }

    /** The full reload answered. */
    method DataLoaded(fetchedJuries: seq<Jury>, fetchedTeams: seq<Team>)
      modifies this`juries, this`teams
      ensures juries == fetchedJuries && teams == fetchedTeams
    {
      juries, teams := fetchedJuries, fetchedTeams;
    }

    /**
     * The Reset button. Without confirmation nothing is requested and nothing
     * changes. Confirmed, the reset is requested once; success shows a toast and
     * reloads all data, failure shows the error toast.
     */
    method Reset(confirmed: bool, outcome: ResetOutcome)
      modifies this`calls, this`notices
      ensures !confirmed ==> calls == old(calls) && notices == old(notices)
      ensures confirmed && outcome.ResetOk? ==>
        calls == old(calls) + [ResetAll] + FetchDataCalls &&
        notices == old(notices) + [SuccessToast(ResetDoneText)]
      ensures confirmed && outcome.ResetFailed? ==>
        calls == old(calls) + [ResetAll] &&
        notices == old(notices) + [ErrorToast(ResetFailureText(outcome.serverMessage, outcome.errorMessage))]
    {
      if confirmed {
        calls := calls + [ResetAll];
        match outcome {
          case ResetOk =>
            notices := notices + [SuccessToast(ResetDoneText)];
            calls := calls + FetchDataCalls;
          case ResetFailed(serverMessage, errorMessage) =>
            notices := notices + [ErrorToast(ResetFailureText(serverMessage, errorMessage))];
        }
      }
    }
  }
}
