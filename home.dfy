/**
 * The jury landing page: the quick statistics over the jury list and the
 * access gate that a jury card opens. Navigation is recorded, not performed.
 */
module Home {
  import opened Wrappers
  import opened Text
  import opened Records
  import Stats

  /** The key that opens every jury's marking page. */
  const MasterKey: string := "CDD123"

  const IncorrectPasswordText: string := "Incorrect password. Please try again."

  /**
   * The submit check: the trimmed, upper-cased input must equal the jury's
   * trimmed, upper-cased name or the master key.
   */
  predicate AccessGranted(input: string, juryName: string) {
    var entered := Upper(Trim(input));
    entered == Upper(Trim(juryName)) || entered == MasterKey
  }

  /** The master key is already in normal form, so the comparison can match it. */
  lemma MasterKeyIsNormal()
    ensures Tight(MasterKey) && NoLowerCase(MasterKey)
    ensures Upper(Trim(MasterKey)) == MasterKey
  {
    TrimPadded([], MasterKey, []);
    assert [] + MasterKey + [] == MasterKey;
    UpperOfNoLowerCase(MasterKey);
  }

  /**
   * Whitespace around the input and the letter case of the input never change
   * the decision.
   */
  lemma GateIgnoresCaseAndPadding(pre: string, input: string, post: string, juryName: string)
    requires AllSpace(pre) && AllSpace(post)
    ensures AccessGranted(pre + input + post, juryName) == AccessGranted(input, juryName)
    ensures AccessGranted(Upper(input), juryName) == AccessGranted(input, juryName)
  {
    TrimIgnoresPadding(pre, input, post);
    TrimUpperCommute(input);
    UpperIsNormal(Trim(input));
  }

  /** The master key, in any letter case and with any padding, opens every jury. */
  lemma MasterKeyOpensEveryJury(pre: string, typed: string, post: string, juryName: string)
    requires AllSpace(pre) && AllSpace(post) && Upper(typed) == MasterKey
    ensures AccessGranted(pre + typed + post, juryName)
  {
    GateIgnoresCaseAndPadding(pre, typed, post, juryName);
    GateIgnoresCaseAndPadding([], typed, [], juryName);
    MasterKeyIsNormal();
  }

  /** A jury's own name, in any letter case and with any padding, opens that jury. */
  lemma OwnNameOpensJury(pre: string, juryName: string, post: string)
    requires AllSpace(pre) && AllSpace(post)
    ensures AccessGranted(pre + juryName + post, juryName)
    ensures AccessGranted(pre + Upper(juryName) + post, juryName)
  {
    GateIgnoresCaseAndPadding(pre, juryName, post, juryName);
    GateIgnoresCaseAndPadding(pre, Upper(juryName), post, juryName);
    GateIgnoresCaseAndPadding([], juryName, [], juryName);
  }

  /** A jury whose name is blank is opened by empty input. */
  lemma BlankNameOpensOnEmptyInput(juryName: string)
    requires AllSpace(juryName)
    ensures AccessGranted("", juryName)
  {
  }

  /** Input that differs from the jury's name only in letter case opens the jury. */
  lemma NameInAnyCaseOpens(typed: string, juryName: string)
    requires Upper(typed) == Upper(juryName)
    ensures AccessGranted(typed, juryName)
  {
    TrimUpperCommute(typed);
    TrimUpperCommute(juryName);
  }

  /**
   * The converse of the lemmas above: access is granted only when the
   * upper-cased input is the jury's upper-cased trimmed name, or the master
   * key, surrounded by whitespace.
   */
  lemma OnlyNameOrKeyOpens(input: string, juryName: string) returns (pre: string, post: string)
    requires AccessGranted(input, juryName)
    ensures AllSpace(pre) && AllSpace(post)
    ensures Upper(input) == pre + Upper(Trim(juryName)) + post || Upper(input) == pre + MasterKey + post
  {
    var p, q := TrimSplit(input);
    UpperConcat(p, Trim(input));
    UpperConcat(p + Trim(input), q);
    UpperKeepsAllSpace(p);
    UpperKeepsAllSpace(q);
    pre, post := Upper(p), Upper(q);
  }

  /** And the shapes `OnlyNameOrKeyOpens` names do open: the two directions form an iff. */
  lemma PaddedNameOrKeyOpens(input: string, juryName: string, pre: string, post: string)
    requires AllSpace(pre) && AllSpace(post)
    requires Upper(input) == pre + Upper(Trim(juryName)) + post || Upper(input) == pre + MasterKey + post
    ensures AccessGranted(input, juryName)
  {
    TrimUpperCommute(input);
    UpperKeepsTight(Trim(juryName));
    MasterKeyIsNormal();
    if Upper(input) == pre + Upper(Trim(juryName)) + post {
      TrimPadded(pre, Upper(Trim(juryName)), post);
    } else {
      TrimPadded(pre, MasterKey, post);
    }
  }

  /** A different name is refused: "panel b" does not open "Panel A". */
  lemma WrongNameRefused()
    ensures !AccessGranted("panel b", "Panel A")
  {
    var entered := NormalisedAt("panel b", 6);
    var name := NormalisedAt("Panel A", 6);
    assert entered[6] != name[6];
  }

  /** The character at position `k` of a string with non-blank ends, after normalisation. */
  lemma NormalisedAt(s: string, k: nat) returns (n: string)
    requires Tight(s) && k < |s|
    ensures n == Upper(Trim(s)) && |n| == |s| && n[k] == UpperChar(s[k])
  {
    TrimPadded([], s, []);
    assert [] + s + [] == s;
    n := Upper(Trim(s));
  }

  /** The quick-statistics filters, written out separately from the admin page's. */
  predicate ShowsAsSubmitted(j: Jury) {
    j.hasSubmitted
  }

  predicate ShowsAsPaused(j: Jury)
    ensures ShowsAsPaused(j) ==> !ShowsAsSubmitted(j)
  {
    j.paused && !j.hasSubmitted
  }

  datatype QuickStatCounts = QuickStatCounts(total: nat, submitted: nat, paused: nat)

  /** The quick-statistics panel: shown only when there is at least one jury. */
  function QuickStats(juries: seq<Jury>): (r: Option<QuickStatCounts>)
    ensures r.Some? <==> |juries| > 0
    ensures r.Some? ==> r.value.total == |juries| && r.value.submitted + r.value.paused <= r.value.total
    ensures r.Some? ==>
      r.value.submitted == Stats.GetDashboardStats(juries, []).submitted &&
      r.value.paused == Stats.GetDashboardStats(juries, []).paused
  {
    if |juries| > 0 then
      QuickStatsAgree(juries, []);
      Some(QuickStatCounts(|juries|, |Filter(juries, ShowsAsSubmitted)|, |Filter(juries, ShowsAsPaused)|))
    else
      None
  }

  /** The landing page's submitted and paused counts are the admin dashboard's. */
  lemma QuickStatsAgree(juries: seq<Jury>, teams: seq<Team>)
    ensures |Filter(juries, ShowsAsSubmitted)| == Stats.GetDashboardStats(juries, teams).submitted
    ensures |Filter(juries, ShowsAsPaused)| == Stats.GetDashboardStats(juries, teams).paused
  {
    FilterExtensional(juries, ShowsAsSubmitted, Stats.CountsAsSubmitted);
    FilterExtensional(juries, ShowsAsPaused, Stats.CountsAsPaused);
  }

  /** A navigation the page performs. */
  datatype Route = JuryRoute(juryName: string)

  /** The landing page component: its state fields and event handlers. */
  class Page {
    var juries: seq<Jury>
    var selectedJury: Option<Jury>   // the jury whose modal is open
    var passwordInput: string
    var passwordError: string
    var navigations: seq<Route>      // every navigation, in order

    /** With the modal closed nothing is typed and no error shows; the only error is the fixed one. */
    predicate Valid()
      reads this
    {
      (selectedJury.None? ==> passwordInput == "" && passwordError == "") &&
      (passwordError == "" || passwordError == IncorrectPasswordText)
    }

    predicate ModalOpen()
      reads this
    {
      selectedJury.Some?
    }

    constructor ()
      ensures Valid() && !ModalOpen()
      ensures juries == [] && passwordInput == "" && passwordError == "" && navigations == []
    {
      juries := [];
      selectedJury := None;
      passwordInput, passwordError := "", "";
      navigations := [];
    }

    /** The jury list request answered. */
    method JuriesLoaded(loaded: seq<Jury>)
      requires Valid()
      modifies this`juries
      ensures Valid()
      ensures juries == loaded
    {
      juries := loaded;
    }

    /** The quick statistics for the current list. */
    function CurrentQuickStats(): (r: Option<QuickStatCounts>)
      reads this
      ensures r.Some? <==> |juries| > 0
    {
      QuickStats(juries)
    }

    /** Clicking a jury card (one per listed jury) opens its modal with an empty input and no error. */
    method SelectJury(jury: Jury)
      requires Valid() && jury in juries
      modifies this`selectedJury, this`passwordInput, this`passwordError
      ensures Valid() && ModalOpen()
      ensures selectedJury == Some(jury) && passwordInput == "" && passwordError == ""
      ensures navigations == old(navigations)
    {
      selectedJury := Some(jury);
      passwordInput := "";
      passwordError := "";
    }

    /** Typing in the modal's input; an error already shown stays. */
    method EditPassword(value: string)
      requires Valid() && ModalOpen()
      modifies this`passwordInput
      ensures Valid() && ModalOpen()
      ensures passwordInput == value
    {
      passwordInput := value;
    }

    /**
     * Unlock: on success navigate to the marking route of the jury's name as
     * stored (untrimmed); on failure show the fixed error and keep the modal,
     * the input and the selection as they are.
     */
    method SubmitPassword() returns (granted: bool)
      requires Valid() && ModalOpen()
      modifies this`passwordError, this`navigations
      ensures Valid() && ModalOpen()
      ensures granted == AccessGranted(passwordInput, selectedJury.value.name)
      ensures granted ==>
        navigations == old(navigations) + [JuryRoute(selectedJury.value.name)] &&
        passwordError == old(passwordError)
      ensures !granted ==>
        navigations == old(navigations) && passwordError == IncorrectPasswordText
    {
      var entered := Upper(Trim(passwordInput));
      var juryNameUpper := Upper(Trim(selectedJury.value.name));
      if entered == juryNameUpper || entered == MasterKey {
        navigations := navigations + [JuryRoute(selectedJury.value.name)];
        granted := true;
      } else {
        passwordError := IncorrectPasswordText;
        granted := false;
      }
    }

    /** Cancel: back to idle, discarding the typed input and any error. */
    method CloseModal()
      requires Valid()
      modifies this`selectedJury, this`passwordInput, this`passwordError
      ensures Valid() && !ModalOpen()
      ensures passwordInput == "" && passwordError == ""
      ensures navigations == old(navigations)
    {
      selectedJury := None;
      passwordInput := "";
      passwordError := "";
    }
  }
}
