/** What `validate_report` promises, proved about the functions that say
    what it reports. */
module ValidatorLemmas {
  import opened Json
  import opened Validator

  // ---------------------------------------------------------------------
  // Query checks
  // ---------------------------------------------------------------------

  /** A source the query check accepts: a dict whose `Type` equals 0. */
  predicate FromAccepted(f: Value)
  {
    f.Obj? && EqualsInt(GetOr(f, "Type", Null), 0)
  }

  /** The source loop passes exactly when every source from `k` on is
      accepted, and it reports a wrong type exactly when the first source
      it does not accept is a dict. */
  lemma {:induction false} FromCheckMeaning(froms: seq<Value>, k: nat)
    requires k <= |froms|
    ensures FromCheck(froms, k) == QueryOk <==> forall m :: k <= m < |froms| ==> FromAccepted(froms[m])
    ensures FromCheck(froms, k) == QueryFailed(WrongFromType) <==>
      exists m :: k <= m < |froms| && froms[m].Obj? && !FromAccepted(froms[m]) && forall p :: k <= p < m ==> FromAccepted(froms[p])
    ensures FromCheck(froms, k).QueryFailed? ==> FromCheck(froms, k).fault == WrongFromType
    decreases |froms| - k
  {
    if k < |froms| {
      FromCheckMeaning(froms, k + 1);
      if FromAccepted(froms[k]) {
        if FromCheck(froms, k) == QueryFailed(WrongFromType) {
          var m :| k + 1 <= m < |froms| && froms[m].Obj? && !FromAccepted(froms[m]) && forall p :: k + 1 <= p < m ==> FromAccepted(froms[p]);
          assert forall p :: k <= p < m ==> FromAccepted(froms[p]);
        }
        if exists m :: k <= m < |froms| && froms[m].Obj? && !FromAccepted(froms[m]) && forall p :: k <= p < m ==> FromAccepted(froms[p]) {
          var m :| k <= m < |froms| && froms[m].Obj? && !FromAccepted(froms[m]) && forall p :: k <= p < m ==> FromAccepted(froms[p]);
          assert m != k;
        }
      }
    }
  }

  /** A non-empty `prototypeQuery` passes exactly when it is a dict with
      version 2, `From` and `Select`, and `From` lists accepted sources. */
  lemma QueryCheckPasses(pq: Value)
    ensures QueryCheck(pq) == QueryOk <==>
      && pq.Obj?
      && EqualsInt(GetOr(pq, "Version", Null), 2)
      && "From" in pq.fields && "Select" in pq.fields
      && DictElements(pq.fields["From"]).Some?
      && forall m :: 0 <= m < |DictElements(pq.fields["From"]).value| ==> FromAccepted(DictElements(pq.fields["From"]).value[m])
  {
    if pq.Obj? && "From" in pq.fields && DictElements(pq.fields["From"]).Some? {
      FromCheckMeaning(DictElements(pq.fields["From"]).value, 0);
    }
  }

  /** The assertions run in order and the first that fails is the one
      reported: a later fault implies every earlier assertion held. */
  lemma QueryFaultOrder(pq: Value)
    ensures QueryCheck(pq).QueryFailed? ==> pq.Obj?
    ensures QueryCheck(pq) == QueryFailed(WrongVersion) <==> pq.Obj? && !EqualsInt(GetOr(pq, "Version", Null), 2)
    ensures QueryCheck(pq) == QueryFailed(NoFrom) <==>
      pq.Obj? && EqualsInt(GetOr(pq, "Version", Null), 2) && "From" !in pq.fields
    ensures QueryCheck(pq) == QueryFailed(NoSelect) <==>
      pq.Obj? && EqualsInt(GetOr(pq, "Version", Null), 2) && "From" in pq.fields && "Select" !in pq.fields
    ensures QueryCheck(pq) == QueryFailed(WrongFromType) <==>
      && pq.Obj? && EqualsInt(GetOr(pq, "Version", Null), 2) && "From" in pq.fields && "Select" in pq.fields
      && DictElements(pq.fields["From"]).Some?
      && var froms := DictElements(pq.fields["From"]).value;
         exists m :: 0 <= m < |froms| && froms[m].Obj? && !FromAccepted(froms[m]) && forall p :: 0 <= p < m ==> FromAccepted(froms[p])
  {
    if pq.Obj? && "From" in pq.fields && DictElements(pq.fields["From"]).Some? {
      FromCheckMeaning(DictElements(pq.fields["From"]).value, 0);
    }
  }

  /** The `singleVisual` block of a parsed visual config (empty when absent). */
  function SingleVisual(config: Value): Value
    requires config.Obj?
  {
    GetOr(config, "singleVisual", Obj(map[]))
  }

  /** The type and query checks on a parsed config: a missing type is
      reported exactly when `visualType` counts as false; an absent or empty
      `prototypeQuery` is not checked; otherwise the first failing assertion
      is the one query error, and a query the assertions cannot even read
      raises. */
  lemma ConfigTypeAndQuery(i: nat, j: nat, config: Value, seen: set<Value>)
    requires config.Obj? && Hashable(GetOr(config, "name", Str(""))) && SingleVisual(config).Obj?
    ensures var r := ConfigIssues(i, j, config, seen);
      var name := GetOr(config, "name", Str(""));
      var pq := GetOr(SingleVisual(config), "prototypeQuery", Null);
      && (r.Crashed? <==> Truthy(pq) && QueryCheck(pq) == QueryCrashed)
      && (r.Checked? ==>
            && (VisualTypeMissing(name) in r.issues <==> !Truthy(GetOr(SingleVisual(config), "visualType", Str(""))))
            && (forall f :: QueryInvalid(i, j, name, f) in r.issues <==> Truthy(pq) && QueryCheck(pq) == QueryFailed(f))
            && (!Truthy(pq) ==> forall k :: 0 <= k < |r.issues| ==> !r.issues[k].QueryInvalid?))
  {
  }

  /** The issues a visual contributes about its query: at most one. */
  lemma AtMostOneQueryIssue(i: nat, j: nat, vc: Value, seen: set<Value>)
    requires VisualIssues(i, j, vc, seen).Checked?
    ensures var issues := VisualIssues(i, j, vc, seen).issues;
      forall a, b :: 0 <= a < b < |issues| && issues[a].QueryInvalid? ==> !issues[b].QueryInvalid?
  {
  }

  /** A config that does not parse yields exactly one error for the config,
      leaves the set of names as it was, and only the filters check follows. */
  lemma UnparseableConfigSkipsChecks(i: nat, j: nat, vc: Value, seen: set<Value>)
    requires Get(vc, "config").Some? && Loads(Get(vc, "config").value) == Rejected
    requires VisualIssues(i, j, vc, seen).Checked?
    ensures var r := VisualIssues(i, j, vc, seen);
      && r.seen == seen
      && 1 <= |r.issues| <= 2
      && r.issues[0] == VisualConfigUnparseable(i, j)
      && forall k :: 1 <= k < |r.issues| ==> r.issues[k] in {VisualFiltersUnparseable(i, j), VisualFiltersNotList(i, j)}
  {
  }

  // ---------------------------------------------------------------------
  // Names
  // ---------------------------------------------------------------------

  /** The name the check reads off a visual whose config parses to a dict
      (the empty string when it has none). */
  function ConfigName(vc: Value): Option<Value>
  {
    match Get(vc, "config")
    case Some(text) =>
      (match Loads(text)
       case Loaded(config) => if config.Obj? then Some(GetOr(config, "name", Str(""))) else None
       case _ => None)
    case None => None
  }

  /** The set elements the names of visuals `0 .. j-1` stand for. */
  function NamesBefore(vcs: seq<Value>, j: nat): set<Value>
    requires j <= |vcs|
  {
    if j == 0 then {}
    else NamesBefore(vcs, j - 1) + (if ConfigName(vcs[j - 1]).Some? then {HashKey(ConfigName(vcs[j - 1]).value)} else {})
  }

  /** Visual `v` carries name `n`, and an earlier visual of the same list carries an equal name. */
  predicate DuplicateAt(vcs: seq<Value>, v: nat, n: Value)
  {
    v < |vcs| && ConfigName(vcs[v]) == Some(n) && HashKey(n) in NamesBefore(vcs, v)
  }

  /** Visual `v` carries a name Python counts as false: absent, empty, 0, ... */
  predicate NameMissingAt(vcs: seq<Value>, v: nat)
  {
    v < |vcs| && ConfigName(vcs[v]).Some? && !Truthy(ConfigName(vcs[v]).value)
  }

  /** An issue that a section's own checks can report: anything but the
      top-level ones, and, where it names a section, section `i`. */
  predicate OfSection(issue: Issue, i: nat)
  {
    match issue
    case TopConfigUnparseable => false
    case TopConfigMissing(_) => false
    case ThemeMissing => false
    case VisualTypeMissing(_) => true
    case _ => issue.section == i
  }

  /** One visual adds its name, if its config parses to a dict, to the set of names seen. */
  lemma VisualSeen(i: nat, j: nat, vc: Value, seen: set<Value>)
    requires VisualIssues(i, j, vc, seen).Checked?
    ensures VisualIssues(i, j, vc, seen).seen == seen + (if ConfigName(vc).Some? then {HashKey(ConfigName(vc).value)} else {})
  {
  }

  /** One visual reports a duplicate name exactly when its name was seen
      before, and a missing name exactly when its name counts as false. */
  lemma VisualNameIssues(i: nat, j: nat, vc: Value, seen: set<Value>)
    requires VisualIssues(i, j, vc, seen).Checked?
    ensures var issues := VisualIssues(i, j, vc, seen).issues;
      && (forall s, v, n :: VisualNameDuplicate(s, v, n) in issues <==>
            s == i && v == j && ConfigName(vc) == Some(n) && HashKey(n) in seen)
      && (forall s, v :: VisualNameMissing(s, v) in issues <==>
            s == i && v == j && ConfigName(vc).Some? && !Truthy(ConfigName(vc).value))
  {
  }

  /** Every issue one visual reports belongs to its section. */
  lemma VisualIssuesOfSection(i: nat, j: nat, vc: Value, seen: set<Value>)
    requires VisualIssues(i, j, vc, seen).Checked?
    ensures var issues := VisualIssues(i, j, vc, seen).issues;
      forall k :: 0 <= k < |issues| ==> OfSection(issues[k], i)
  {
  }

  /** Within one section, visual `v` gets a duplicate-name error exactly when
      an earlier visual of that section carries an equal name, and a
      missing-name error exactly when its name counts as false. */
  lemma {:induction false} VisualsFromNames(i: nat, vcs: seq<Value>, j: nat, seen: set<Value>)
    requires j <= |vcs| && seen == NamesBefore(vcs, j)
    requires VisualsFrom(i, vcs, j, seen).Reported?
    ensures var issues := VisualsFrom(i, vcs, j, seen).issues;
      && (forall s, v, n :: VisualNameDuplicate(s, v, n) in issues <==> s == i && j <= v && DuplicateAt(vcs, v, n))
      && (forall s, v :: VisualNameMissing(s, v) in issues <==> s == i && j <= v && NameMissingAt(vcs, v))
      && (forall k :: 0 <= k < |issues| ==> OfSection(issues[k], i))
    decreases |vcs| - j
  {
    if j < |vcs| {
      var r := VisualIssues(i, j, vcs[j], seen);
      VisualSeen(i, j, vcs[j], seen);
      VisualNameIssues(i, j, vcs[j], seen);
      VisualIssuesOfSection(i, j, vcs[j], seen);
      VisualsFromNames(i, vcs, j + 1, r.seen);
      var rest := VisualsFrom(i, vcs, j + 1, r.seen);
      var issues := VisualsFrom(i, vcs, j, seen).issues;
      assert issues == r.issues + rest.issues;
      forall s, v, n
        ensures VisualNameDuplicate(s, v, n) in issues <==> s == i && j <= v && DuplicateAt(vcs, v, n)
      {
        if v == j {
          assert VisualNameDuplicate(s, v, n) !in rest.issues;
        }
      }
      forall s, v
        ensures VisualNameMissing(s, v) in issues <==> s == i && j <= v && NameMissingAt(vcs, v)
      {
        if v == j {
          assert VisualNameMissing(s, v) !in rest.issues;
        }
      }
      forall k | 0 <= k < |issues|
        ensures OfSection(issues[k], i)
      {
        if k >= |r.issues| {
          assert issues[k] == rest.issues[k - |r.issues|];
        }
      }
    }
  }

  /** The visual containers a section's loop visits. */
  function VisualList(section: Value): seq<Value>
  {
    if !section.Obj? then []
    else
      match DictElements(GetOr(section, "visualContainers", Arr([])))
      case Some(vcs) => vcs
      case None => []
  }

  /** The sections a report's loop visits. */
  function SectionList(report: Value): seq<Value>
  {
    if !report.Obj? || "sections" !in report.fields then []
    else
      match DictElements(report.fields["sections"])
      case Some(sections) => sections
      case None => []
  }

  /** The names are checked per section: the set of names starts empty for
      every section. */
  lemma SectionNames(i: nat, section: Value)
    requires SectionIssues(i, section).Reported?
    ensures var issues := SectionIssues(i, section).issues;
      && (forall s, v, n :: VisualNameDuplicate(s, v, n) in issues <==> s == i && DuplicateAt(VisualList(section), v, n))
      && (forall s, v :: VisualNameMissing(s, v) in issues <==> s == i && NameMissingAt(VisualList(section), v))
      && (forall k :: 0 <= k < |issues| ==> OfSection(issues[k], i))
  {
    var config := SectionConfigIssues(i, section.fields["config"]);
    var filters := FiltersIssues(Get(section, "filters"), SectionFiltersUnparseable(i), SectionFiltersNotList(i));
    var visuals := SectionVisuals(i, section);
    VisualsFromNames(i, VisualList(section), 0, {});
    var issues := SectionIssues(i, section).issues;
    assert issues == config.issues + (filters.issues + visuals.issues);
    assert forall k :: 0 <= k < |config.issues + filters.issues| ==> OfSection((config.issues + filters.issues)[k], i);
    forall k | 0 <= k < |issues|
      ensures OfSection(issues[k], i)
    {
      if k >= |config.issues| + |filters.issues| {
        assert issues[k] == visuals.issues[k - |config.issues| - |filters.issues|];
      } else if k >= |config.issues| {
        assert issues[k] == filters.issues[k - |config.issues|];
      }
    }
  }

  /** Over all sections from `i` on: a duplicate-name error for visual `v`
      of section `s` exactly when an earlier visual of section `s` itself
      carries an equal name. */
  lemma {:induction false} SectionsFromNames(sections: seq<Value>, i: nat)
    requires i <= |sections|
    requires SectionsFrom(sections, i).Reported?
    ensures var issues := SectionsFrom(sections, i).issues;
      && (forall s: nat, v: nat, n :: VisualNameDuplicate(s, v, n) in issues <==>
            i <= s < |sections| && DuplicateAt(VisualList(sections[s]), v, n))
      && (forall s: nat, v: nat :: VisualNameMissing(s, v) in issues <==>
            i <= s < |sections| && NameMissingAt(VisualList(sections[s]), v))
      && (forall k :: 0 <= k < |issues| ==> !issues[k].ThemeMissing? && !issues[k].TopConfigMissing? && !issues[k].TopConfigUnparseable?)
    decreases |sections| - i
  {
    if i < |sections| {
      var head := SectionIssues(i, sections[i]);
      var rest := SectionsFrom(sections, i + 1);
      SectionNames(i, sections[i]);
      SectionsFromNames(sections, i + 1);
      var issues := SectionsFrom(sections, i).issues;
      assert issues == head.issues + rest.issues;
      forall k | 0 <= k < |issues|
        ensures !issues[k].ThemeMissing? && !issues[k].TopConfigMissing? && !issues[k].TopConfigUnparseable?
      {
        if k < |head.issues| {
          assert OfSection(head.issues[k], i);
        } else {
          assert issues[k] == rest.issues[k - |head.issues|];
        }
      }
    }
  }

  /** The top-level config contributes at most one error, and none exactly
      when it parses to a dict holding `version` and a `themeCollection`
      that holds `customTheme`. */
  lemma TopConfigAtMostOne(text: Value)
    requires TopConfigIssues(text).Reported?
    ensures |TopConfigIssues(text).issues| <= 1
    ensures TopConfigIssues(text).issues == [] <==>
      && Loads(text).Loaded?
      && Loads(text).value.Obj?
      && "version" in Loads(text).value.fields
      && "themeCollection" in Loads(text).value.fields
      && Contains(Loads(text).value.fields["themeCollection"], "customTheme") == Some(true)
    ensures forall k :: 0 <= k < |TopConfigIssues(text).issues| ==>
      TopConfigIssues(text).issues[k].TopConfigUnparseable? || TopConfigIssues(text).issues[k].TopConfigMissing?
  {
  }

  /** Over the whole report: the name errors are those of each section on
      its own, so the same name on two sections is no error; the theme error
      is reported exactly when `theme` is absent. */
  lemma ReportNames(report: Value)
    requires ReportOutcome(report).Reported?
    ensures var issues := ReportOutcome(report).issues;
      && (forall s: nat, v: nat, n :: VisualNameDuplicate(s, v, n) in issues <==>
            s < |SectionList(report)| && DuplicateAt(VisualList(SectionList(report)[s]), v, n))
      && (forall s: nat, v: nat :: VisualNameMissing(s, v) in issues <==>
            s < |SectionList(report)| && NameMissingAt(VisualList(SectionList(report)[s]), v))
      && (ThemeMissing in issues <==> "theme" !in report.fields)
  {
    var top := TopConfigIssues(report.fields["config"]);
    var theme := if "theme" in report.fields then [] else [ThemeMissing];
    var sections := ReportSections(report);
    TopConfigAtMostOne(report.fields["config"]);
    SectionsFromNames(SectionList(report), 0);
    var issues := ReportOutcome(report).issues;
    assert issues == top.issues + (theme + sections.issues);
    forall s: nat, v: nat, n
      ensures VisualNameDuplicate(s, v, n) in issues <==> VisualNameDuplicate(s, v, n) in sections.issues
      ensures VisualNameMissing(s, v) in issues <==> VisualNameMissing(s, v) in sections.issues
    {
    }
    assert ThemeMissing !in sections.issues by {
      forall k | 0 <= k < |sections.issues|
        ensures sections.issues[k] != ThemeMissing
      {
      }
    }
  }

  /** Every name of visuals `0 .. j-1` is among the names seen before `j`. */
  lemma {:induction false} NamesBeforeHolds(vcs: seq<Value>, k: nat, j: nat)
    requires k < j <= |vcs| && ConfigName(vcs[k]).Some?
    ensures HashKey(ConfigName(vcs[k]).value) in NamesBefore(vcs, j)
    decreases j
  {
    if k < j - 1 {
      NamesBeforeHolds(vcs, k, j - 1);
    }
  }

  /** The set of names seen before visual `j` holds exactly the set
      elements of the names of the visuals before `j` whose config parses
      to a dict. */
  lemma {:induction false} NamesBeforeMeaning(vcs: seq<Value>, j: nat, x: Value)
    requires j <= |vcs|
    ensures x in NamesBefore(vcs, j) <==>
      exists k :: 0 <= k < j && ConfigName(vcs[k]).Some? && HashKey(ConfigName(vcs[k]).value) == x
    decreases j
  {
    if j > 0 {
      NamesBeforeMeaning(vcs, j - 1, x);
      if x in NamesBefore(vcs, j - 1) {
        var k :| 0 <= k < j - 1 && ConfigName(vcs[k]).Some? && HashKey(ConfigName(vcs[k]).value) == x;
        assert 0 <= k < j;
      }
    }
  }

  /** An empty name is reported as missing, and is still added to the set
      of names: a second empty name in the same section is reported as
      missing and as a duplicate. */
  lemma EmptyNameTwice(i: nat, section: Value, k: nat, j: nat)
    requires SectionIssues(i, section).Reported?
    requires k < j < |VisualList(section)|
    requires ConfigName(VisualList(section)[k]) == Some(Str(""))
    requires ConfigName(VisualList(section)[j]) == Some(Str(""))
    ensures VisualNameMissing(i, k) in SectionIssues(i, section).issues
    ensures VisualNameMissing(i, j) in SectionIssues(i, section).issues
    ensures VisualNameDuplicate(i, j, Str("")) in SectionIssues(i, section).issues
  {
    SectionNames(i, section);
    NamesBeforeHolds(VisualList(section), k, j);
  }

  /** A `filters` text yields one error when it does not parse to a list and
      none when it does; a value that is not text raises. */
  lemma FiltersAtMostOne(text: Value, unparseable: Issue, notList: Issue)
    ensures FiltersIssues(Some(text), unparseable, notList).Raised? <==> !IsText(text)
    ensures FiltersIssues(Some(text), unparseable, notList) == Reported([]) <==>
      Loads(text).Loaded? && Loads(text).value.Arr?
    ensures FiltersIssues(Some(text), unparseable, notList).Reported? ==>
      |FiltersIssues(Some(text), unparseable, notList).issues| <= 1
  {
  }

  /** The check raises instead of reporting when a report has no
      `sections`, whatever errors it has collected before. */
  lemma MissingSectionsRaises(report: Value)
    requires report.Obj? && "sections" !in report.fields
    ensures ReportOutcome(report) == Raised
  {
  }
}
