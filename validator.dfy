/** `validate_report`: the structural check run on a report before it is
    written. The functions below say what the check reports for any report
    value, front to back as the source visits it; the methods do it the way
    the source does, with loops over sections, visuals and query sources,
    and are proved to agree with those functions. */
module Validator {
  import opened Json

  /** The assertion that fails first in a visual's `prototypeQuery`. */
  datatype QueryFault = WrongVersion | NoFrom | NoSelect | WrongFromType

  /** One appended error message, identified by what it reports and where.
      Sections are identified by their position in `sections`. */
  datatype Issue =
    | TopConfigUnparseable
    | TopConfigMissing(key: string)
    | ThemeMissing
    | SectionConfigUnparseable(section: nat)
    | SectionFiltersUnparseable(section: nat)
    | SectionFiltersNotList(section: nat)
    | VisualConfigUnparseable(section: nat, visual: nat)
    | VisualNameMissing(section: nat, visual: nat)
    | VisualNameDuplicate(section: nat, visual: nat, name: Value)
    | VisualTypeMissing(name: Value)
    | QueryInvalid(section: nat, visual: nat, name: Value, fault: QueryFault)
    | VisualFiltersUnparseable(section: nat, visual: nat)
    | VisualFiltersNotList(section: nat, visual: nat)

  /** What a call returns: the list of errors, or an exception the check
      does not catch (a missing key, a value of the wrong type). */
  datatype Outcome = Reported(issues: seq<Issue>) | Raised

  /** What checking one visual yields: its errors and the set of names seen
      so far in its section, or an uncaught exception. */
  datatype VisualResult = Checked(issues: seq<Issue>, seen: set<Value>) | Crashed

  /** What checking a `prototypeQuery` yields. */
  datatype QueryResult = QueryOk | QueryFailed(fault: QueryFault) | QueryCrashed

  /** Errors appended before a later step runs. */
  function Prepend(issues: seq<Issue>, rest: Outcome): Outcome
  {
    match rest
    case Raised => Raised
    case Reported(more) => Reported(issues + more)
  }

  /** One step followed by another: an exception in either ends the call. */
  function Then(first: Outcome, rest: Outcome): Outcome
  {
    match first
    case Raised => Raised
    case Reported(issues) => Prepend(issues, rest)
  }

  lemma PrependAppend(a: seq<Issue>, b: seq<Issue>, rest: Outcome)
    ensures Prepend(a, Prepend(b, rest)) == Prepend(a + b, rest)
  {
    if rest.Reported? {
      assert a + (b + rest.issues) == (a + b) + rest.issues;
    }
  }

  // ---------------------------------------------------------------------
  // What the check reports
  // ---------------------------------------------------------------------

  /** The top-level config must parse, hold `version` and `themeCollection`,
      and its theme collection must hold `customTheme`; the first of these
      that fails is the one error. */
  function TopConfigIssues(text: Value): Outcome
  {
    match Loads(text)
    case NotText => Raised
    case Rejected => Reported([TopConfigUnparseable])
    case Loaded(top) =>
      match Contains(top, "version")
      case None => Raised
      case Some(false) => Reported([TopConfigMissing("version")])
      case Some(true) =>
        match Contains(top, "themeCollection")
        case None => Raised
        case Some(false) => Reported([TopConfigMissing("themeCollection")])
        case Some(true) =>
          if !top.Obj? then Raised
          else
            match Contains(GetOr(top, "themeCollection", Obj(map[])), "customTheme")
            case None => Raised
            case Some(false) => Reported([TopConfigMissing("customTheme")])
            case Some(true) => Reported([])
  }

  /** A `filters` text must parse to a list. */
  function FiltersIssues(text: Option<Value>, unparseable: Issue, notList: Issue): Outcome
  {
    match text
    case None => Raised
    case Some(t) =>
      match Loads(t)
      case NotText => Raised
      case Rejected => Reported([unparseable])
      case Loaded(f) => Reported(if f.Arr? then [] else [notList])
  }

  /** Every source from position `k` on is a dict whose `Type` equals 0; the
      first that is not stops the check. */
  function FromCheck(froms: seq<Value>, k: nat): QueryResult
    decreases |froms| - k
  {
    if k >= |froms| then QueryOk
    else if !froms[k].Obj? then QueryCrashed
    else if !EqualsInt(GetOr(froms[k], "Type", Null), 0) then QueryFailed(WrongFromType)
    else FromCheck(froms, k + 1)
  }

  /** The four assertions on a non-empty `prototypeQuery`, in order. */
  function QueryCheck(pq: Value): QueryResult
  {
    if !pq.Obj? then QueryCrashed
    else if !EqualsInt(GetOr(pq, "Version", Null), 2) then QueryFailed(WrongVersion)
    else if "From" !in pq.fields then QueryFailed(NoFrom)
    else if "Select" !in pq.fields then QueryFailed(NoSelect)
    else
      match DictElements(pq.fields["From"])
      case None => QueryCrashed
      case Some(froms) => FromCheck(froms, 0)
  }

  /** The name, type and query checks on a parsed visual config, given the
      names already seen in the section. */
  function ConfigIssues(i: nat, j: nat, config: Value, seen: set<Value>): VisualResult
  {
    if !config.Obj? then Crashed
    else
      var name := GetOr(config, "name", Str(""));
      var missing := if Truthy(name) then [] else [VisualNameMissing(i, j)];
      if !Hashable(name) then Crashed
      else
        var duplicate := if HashKey(name) in seen then [VisualNameDuplicate(i, j, name)] else [];
        var seen' := seen + {HashKey(name)};
        var sv := GetOr(config, "singleVisual", Obj(map[]));
        if !sv.Obj? then Crashed
        else
          var typeIssue := if Truthy(GetOr(sv, "visualType", Str(""))) then [] else [VisualTypeMissing(name)];
          var pq := GetOr(sv, "prototypeQuery", Null);
          var head := missing + duplicate + typeIssue;
          if !Truthy(pq) then Checked(head, seen')
          else
            match QueryCheck(pq)
            case QueryCrashed => Crashed
            case QueryOk => Checked(head, seen')
            case QueryFailed(f) => Checked(head + [QueryInvalid(i, j, name, f)], seen')
  }

  /** Visual `j` of section `i`: its config, then its filters. */
  function VisualIssues(i: nat, j: nat, vc: Value, seen: set<Value>): VisualResult
  {
    match Get(vc, "config")
    case None => Crashed
    case Some(text) =>
      var head :=
        match Loads(text)
        case NotText => Crashed
        case Rejected => Checked([VisualConfigUnparseable(i, j)], seen)
        case Loaded(config) => ConfigIssues(i, j, config, seen);
      if head.Crashed? then Crashed
      else
        match FiltersIssues(Get(vc, "filters"), VisualFiltersUnparseable(i, j), VisualFiltersNotList(i, j))
        case Raised => Crashed
        case Reported(more) => Checked(head.issues + more, head.seen)
  }

  /** The visuals of section `i` from position `j` on, given the names seen before `j`. */
  function VisualsFrom(i: nat, vcs: seq<Value>, j: nat, seen: set<Value>): Outcome
    decreases |vcs| - j
  {
    if j >= |vcs| then Reported([])
    else
      match VisualIssues(i, j, vcs[j], seen)
      case Crashed => Raised
      case Checked(issues, seen') => Prepend(issues, VisualsFrom(i, vcs, j + 1, seen'))
  }

  /** The `try` block on a section config: it must parse. */
  function SectionConfigIssues(i: nat, text: Value): Outcome
  {
    match Loads(text)
    case NotText => Raised
    case Rejected => Reported([SectionConfigUnparseable(i)])
    case Loaded(_) => Reported([])
  }

  /** The visuals of a section, with a fresh set of names. */
  function SectionVisuals(i: nat, section: Value): Outcome
    requires section.Obj?
  {
    match DictElements(GetOr(section, "visualContainers", Arr([])))
    case None => Raised
    case Some(vcs) => VisualsFrom(i, vcs, 0, {})
  }

  /** Section `i`: its config, its filters, then its visuals. */
  function SectionIssues(i: nat, section: Value): Outcome
  {
    if !section.Obj? || "config" !in section.fields then Raised
    else
      Then(SectionConfigIssues(i, section.fields["config"]),
        Then(FiltersIssues(Get(section, "filters"), SectionFiltersUnparseable(i), SectionFiltersNotList(i)),
          SectionVisuals(i, section)))
  }

  /** The sections from position `i` on. */
  function SectionsFrom(sections: seq<Value>, i: nat): Outcome
    decreases |sections| - i
  {
    if i >= |sections| then Reported([])
    else Then(SectionIssues(i, sections[i]), SectionsFrom(sections, i + 1))
  }

  /** What `validate_report(report)` does. */
  function ReportOutcome(report: Value): Outcome
  {
    if !report.Obj? || "config" !in report.fields then Raised
    else
      Then(TopConfigIssues(report.fields["config"]),
        Prepend(if "theme" in report.fields then [] else [ThemeMissing], ReportSections(report)))
  }

  /** The sections of a report, each checked in turn. */
  function ReportSections(report: Value): Outcome
    requires report.Obj?
  {
    if "sections" !in report.fields then Raised
    else
      match DictElements(report.fields["sections"])
      case None => Raised
      case Some(sections) => SectionsFrom(sections, 0)
  }


  // ---------------------------------------------------------------------
  // The check as the source runs it
  // ---------------------------------------------------------------------

  /** The assertions on a non-empty `prototypeQuery`, with the loop over its sources. */
  method CheckQuery(pq: Value) returns (r: QueryResult)
    ensures r == QueryCheck(pq)
  {
    if !pq.Obj? {
      return QueryCrashed;
    }
    if !EqualsInt(GetOr(pq, "Version", Null), 2) {
      return QueryFailed(WrongVersion);
    }
    if "From" !in pq.fields {
      return QueryFailed(NoFrom);
    }
    if "Select" !in pq.fields {
      return QueryFailed(NoSelect);
    }
    var froms := DictElements(pq.fields["From"]);
    if froms.None? {
      return QueryCrashed;
    }
    var k := 0;
    while k < |froms.value|
      invariant 0 <= k <= |froms.value|
      invariant FromCheck(froms.value, 0) == FromCheck(froms.value, k)
    {
      var frm := froms.value[k];
      if !frm.Obj? {
        return QueryCrashed;
      }
      if !EqualsInt(GetOr(frm, "Type", Null), 0) {
        return QueryFailed(WrongFromType);
      }
      k := k + 1;
    }
    return QueryOk;
  }

  /** The `try` block on a `filters` text: it must parse, to a list. */
  method CheckFilters(text: Value, unparseable: Issue, notList: Issue) returns (r: Outcome)
    ensures r == FiltersIssues(Some(text), unparseable, notList)
  {
    var errors: seq<Issue> := [];
    match Loads(text) {
      case NotText =>
        return Raised;
      case Rejected =>
        errors := errors + [unparseable];
      case Loaded(f) =>
        if !f.Arr? {
          errors := errors + [notList];
        }
    }
    return Reported(errors);
  }

  /** The `try` block on a parsed visual config: name, type and query. */
  method CheckConfig(i: nat, j: nat, config: Value, names: set<Value>) returns (r: VisualResult)
    ensures r == ConfigIssues(i, j, config, names)
  {
    var errors: seq<Issue> := [];
    var seen := names;
    if !config.Obj? {
      return Crashed;
    }
    var name := GetOr(config, "name", Str(""));
    if !Truthy(name) {
      errors := errors + [VisualNameMissing(i, j)];
    }
    if !Hashable(name) {
      return Crashed;
    }
    if HashKey(name) in seen {
      errors := errors + [VisualNameDuplicate(i, j, name)];
    }
    seen := seen + {HashKey(name)};
    var sv := GetOr(config, "singleVisual", Obj(map[]));
    if !sv.Obj? {
      return Crashed;
    }
    if !Truthy(GetOr(sv, "visualType", Str(""))) {
      errors := errors + [VisualTypeMissing(name)];
    }
    var pq := GetOr(sv, "prototypeQuery", Null);
    if Truthy(pq) {
      var q := CheckQuery(pq);
      if q.QueryCrashed? {
        return Crashed;
      }
      if q.QueryFailed? {
        errors := errors + [QueryInvalid(i, j, name, q.fault)];
      }
    }
    return Checked(errors, seen);
  }

  /** One visual container: its config, then its filters. */
  method CheckVisual(i: nat, j: nat, vc: Value, names: set<Value>) returns (r: VisualResult)
    ensures r == VisualIssues(i, j, vc, names)
  {
    var errors: seq<Issue> := [];
    var seen := names;
    if !HasKey(vc, "config") {
      return Crashed;
    }
    match Loads(vc.fields["config"]) {
      case NotText =>
        return Crashed;
      case Rejected =>
        errors := errors + [VisualConfigUnparseable(i, j)];
      case Loaded(config) =>
        var c := CheckConfig(i, j, config, names);
        if c.Crashed? {
          return Crashed;
        }
        errors, seen := c.issues, c.seen;
    }
    if !HasKey(vc, "filters") {
      return Crashed;
    }
    var filters := CheckFilters(vc.fields["filters"], VisualFiltersUnparseable(i, j), VisualFiltersNotList(i, j));
    if filters.Raised? {
      return Crashed;
    }
    errors := errors + filters.issues;
    return Checked(errors, seen);
  }

  /** The visuals of section `i`, front to back, with the set of names seen so far. */
  method CheckVisuals(i: nat, vcs: seq<Value>) returns (r: Outcome)
    ensures r == VisualsFrom(i, vcs, 0, {})
  {
    var errors: seq<Issue> := [];
    var names: set<Value> := {};
    var j := 0;
    while j < |vcs|
      invariant 0 <= j <= |vcs|
      invariant VisualsFrom(i, vcs, 0, {}) == Prepend(errors, VisualsFrom(i, vcs, j, names))
    {
      var v := CheckVisual(i, j, vcs[j], names);
      if v.Crashed? {
        return Raised;
      }
      PrependAppend(errors, v.issues, VisualsFrom(i, vcs, j + 1, v.seen));
      errors := errors + v.issues;
      names := v.seen;
      j := j + 1;
    }
    return Reported(errors);
  }

  /** One section: its config and filters, then its visuals, the set of
      names starting empty. */
  method CheckSection(i: nat, section: Value) returns (r: Outcome)
    ensures r == SectionIssues(i, section)
  {
    var errors: seq<Issue> := [];
    if !section.Obj? || !HasKey(section, "config") {
      return Raised;
    }
    match Loads(section.fields["config"]) {
      case NotText =>
        return Raised;
      case Rejected =>
        errors := errors + [SectionConfigUnparseable(i)];
      case Loaded(_) =>
    }
    if !HasKey(section, "filters") {
      return Raised;
    }
    var filters := CheckFilters(section.fields["filters"], SectionFiltersUnparseable(i), SectionFiltersNotList(i));
    if filters.Raised? {
      return Raised;
    }
    var vcs := DictElements(GetOr(section, "visualContainers", Arr([])));
    if vcs.None? {
      return Raised;
    }
    var visuals := CheckVisuals(i, vcs.value);
    if visuals.Raised? {
      return Raised;
    }
    PrependAppend(errors, filters.issues, visuals);
    return Reported(errors + filters.issues + visuals.issues);
  }

  /** The sections, front to back. */
  method CheckSections(sections: seq<Value>) returns (r: Outcome)
    ensures r == SectionsFrom(sections, 0)
  {
    var errors: seq<Issue> := [];
    var i := 0;
    while i < |sections|
      invariant 0 <= i <= |sections|
      invariant SectionsFrom(sections, 0) == Prepend(errors, SectionsFrom(sections, i))
    {
      var s := CheckSection(i, sections[i]);
      if s.Raised? {
        return Raised;
      }
      PrependAppend(errors, s.issues, SectionsFrom(sections, i + 1));
      errors := errors + s.issues;
      i := i + 1;
    }
    return Reported(errors);
  }

  /** The `try` block on the top-level config. */
  method CheckTopConfig(text: Value) returns (r: Outcome)
    ensures r == TopConfigIssues(text)
  {
    match Loads(text) {
      case NotText =>
        return Raised;
      case Rejected =>
        return Reported([TopConfigUnparseable]);
      case Loaded(top) =>
        var hasVersion := Contains(top, "version");
        if hasVersion.None? {
          return Raised;
        }
        if !hasVersion.value {
          return Reported([TopConfigMissing("version")]);
        }
        var hasCollection := Contains(top, "themeCollection");
        if hasCollection.None? {
          return Raised;
        }
        if !hasCollection.value {
          return Reported([TopConfigMissing("themeCollection")]);
        }
        if !top.Obj? {
          return Raised;
        }
        var hasCustom := Contains(GetOr(top, "themeCollection", Obj(map[])), "customTheme");
        if hasCustom.None? {
          return Raised;
        }
        if !hasCustom.value {
          return Reported([TopConfigMissing("customTheme")]);
        }
        return Reported([]);
    }
  }

  /** `validate_report`: the top-level config, the theme, then every section. */
  method ValidateReport(report: Value) returns (outcome: Outcome)
    ensures outcome == ReportOutcome(report)
  {
    var errors: seq<Issue> := [];
    if !HasKey(report, "config") {
      return Raised;
    }
    var top := CheckTopConfig(report.fields["config"]);
    if top.Raised? {
      return Raised;
    }
    errors := errors + top.issues;
    if "theme" !in report.fields {
      errors := errors + [ThemeMissing];
    }
    if !HasKey(report, "sections") {
      return Raised;
    }
    var sections := DictElements(report.fields["sections"]);
    if sections.None? {
      return Raised;
    }
    var checked := CheckSections(sections.value);
    if checked.Raised? {
      return Raised;
    }
    PrependAppend(top.issues, if "theme" in report.fields then [] else [ThemeMissing], checked);
    return Reported(errors + checked.issues);
  }
}
