/** `main`: build the report, validate it, serialise it, read it back and
    walk the readback for embedded texts that do not parse. The lemmas here
    show that what the builders produce passes both checks, so the report
    is written. */
module Pipeline {
  import opened Json
  import opened Visuals
  import opened Validator
  import opened ValidatorLemmas
  import opened Embedded
  import opened Report

  // ---------------------------------------------------------------------
  // The built report passes `validate_report`
  // ---------------------------------------------------------------------

  /** Sources of type 0 are all accepted by the query check. */
  lemma {:induction false} TableSourcesAccepted(froms: seq<Value>, k: nat)
    requires k <= |froms|
    requires forall m :: 0 <= m < |froms| ==> Get(froms[m], "Type") == Some(Num(0))
    ensures FromCheck(froms, k) == QueryOk
    decreases |froms| - k
  {
    if k < |froms| {
      TableSourcesAccepted(froms, k + 1);
    }
  }

  /** A well-formed query passes the four assertions. */
  lemma QueryPasses(config: Value)
    requires QueryWellFormed(config) && Visual(config, "prototypeQuery").Some?
    ensures QueryCheck(Visual(config, "prototypeQuery").value) == QueryOk
  {
    var pq := Visual(config, "prototypeQuery").value;
    assert Query(config, "From") == Some(pq.fields["From"]);
    TableSourcesAccepted(Froms(config), 0);
  }

  /** A well-built visual whose name has not been seen in its section
      contributes no error and adds its name to the names seen. */
  lemma WellBuiltChecked(i: nat, j: nat, vc: Value, name: string, seen: set<Value>)
    requires WellBuilt(vc, name)
    requires Str(name) !in seen
    ensures VisualIssues(i, j, vc, seen) == Checked([], seen + {Str(name)})
  {
    var config := ConfigOf(vc).value;
    assert Get(vc, "config").Some? && Loads(Get(vc, "config").value) == Loaded(config);
    assert GetOr(config, "name", Str("")) == Str(name);
    var sv := GetOr(config, "singleVisual", Obj(map[]));
    assert Truthy(GetOr(sv, "visualType", Str("")));
    if Visual(config, "prototypeQuery").Some? {
      QueryPasses(config);
    } else {
      assert GetOr(sv, "prototypeQuery", Null) == Null;
    }
    assert ConfigIssues(i, j, config, seen) == Checked([], seen + {Str(name)});
  }

  /** The names of the first `j` visuals, as set elements. */
  function NamesSeen(names: seq<string>, j: nat): set<Value>
    requires j <= |names|
  {
    set k | 0 <= k < j :: Str(names[k])
  }

  /** The visuals of a page from `j` on, with the names before `j` seen, contribute no error. */
  lemma {:induction false} PageVisualsChecked(i: nat, vcs: seq<Value>, names: seq<string>, j: nat, seen: set<Value>)
    requires PageVisuals(vcs, names) && j <= |vcs|
    requires seen == NamesSeen(names, j)
    ensures VisualsFrom(i, vcs, j, seen) == Reported([])
    decreases |vcs| - j
  {
    if j < |vcs| {
      assert Str(names[j]) !in seen;
      WellBuiltChecked(i, j, vcs[j], names[j], seen);
      assert seen + {Str(names[j])} == NamesSeen(names, j + 1);
      PageVisualsChecked(i, vcs, names, j + 1, seen + {Str(names[j])});
    }
  }

  /** A page dict whose filters are a list and whose visuals are well built
      under distinct names passes the section checks, at any position. */
  lemma PageChecked(i: nat, displayName: string, filters: Value, name: string, ordinal: int, vcs: seq<Value>, names: seq<string>)
    requires filters.Arr?
    requires PageVisuals(vcs, names)
    ensures SectionIssues(i, PageOf(displayName, filters, name, ordinal, vcs)) == Reported([])
  {
    var page := PageOf(displayName, filters, name, ordinal, vcs);
    assert NamesSeen(names, 0) == {};
    PageVisualsChecked(i, vcs, names, 0, {});
    assert SectionVisuals(i, page) == Reported([]);
    assert SectionConfigIssues(i, page.fields["config"]) == Reported([]);
    assert FiltersIssues(Get(page, "filters"), SectionFiltersUnparseable(i), SectionFiltersNotList(i)) == Reported([]);
  }

  /** Sections that each pass on their own pass together. */
  lemma {:induction false} SectionsChecked(sections: seq<Value>, i: nat)
    requires i <= |sections|
    requires forall k :: 0 <= k < |sections| ==> SectionIssues(k, sections[k]) == Reported([])
    ensures SectionsFrom(sections, i) == Reported([])
    decreases |sections| - i
  {
    if i < |sections| {
      SectionsChecked(sections, i + 1);
    }
  }

  /** A report whose config holds a version and a custom theme, and whose
      two pages pass, is reported clean. */
  lemma ReportChecked(config: Value, packages: Value, page1: Value, page2: Value, theme: string)
    requires HasKey(config, "version") && HasKey(config, "themeCollection")
    requires HasKey(config.fields["themeCollection"], "customTheme")
    requires SectionIssues(0, page1) == Reported([]) && SectionIssues(1, page2) == Reported([])
    ensures ReportOutcome(ReportOf(config, packages, [page1, page2], theme)) == Reported([])
  {
    var r := ReportOf(config, packages, [page1, page2], theme);
    SectionsChecked([page1, page2], 0);
    assert ReportSections(r) == Reported([]);
    assert TopConfigIssues(r.fields["config"]) == Reported([]);
  }

  lemma Page1Checked()
    ensures SectionIssues(0, BuildPage1()) == Reported([])
  {
    Page1Built();
    PageChecked(0, "都道府県一覧", Arr([]), Page1Name, 0, Rendered(Page1Specs()), SpecNames(Page1Specs()));
  }

  lemma Page2Checked()
    ensures SectionIssues(1, BuildPage2()) == Reported([])
  {
    Page2Built();
    PageChecked(1, "市区町村詳細", PageFilters(), Page2Name, 1, Rendered(Page2Specs()), SpecNames(Page2Specs()));
  }

  lemma ConfigHoldsTheme()
    ensures HasKey(ReportConfig(), "version") && HasKey(ReportConfig(), "themeCollection")
    ensures HasKey(ReportConfig().fields["themeCollection"], "customTheme")
  {
  }

  /** `validate_report(build_report())` returns no errors. */
  lemma BuiltReportChecked()
    ensures ReportOutcome(BuildReport()) == Reported([])
  {
    Page1Checked();
    Page2Checked();
    ConfigHoldsTheme();
    ReportChecked(ReportConfig(), ResourcePackages(), BuildPage1(), BuildPage2(), CustomTheme);
  }

  // ---------------------------------------------------------------------
  // The built report passes `validate_embedded`
  // ---------------------------------------------------------------------

  /** A container's two embedded texts are serialised documents, so they parse. */
  lemma ContainerEmbedded(config: Value, filters: Value, x: int, y: int, w: int, h: int, z: int)
    ensures ValidateEmbedded(MakeVisualContainer(config, filters, x, y, w, h, z))
  {
  }

  lemma RenderEmbedded(s: VisualSpec)
    ensures ValidateEmbedded(Render(s))
  {
    match s
    case TextboxSpec(name, x, y, w, h, paragraphs) =>
      ContainerEmbedded(TextboxConfig(name, x, y, w, h, 0, paragraphs, None), Arr([]), x, y, w, h, 0);
    case CardSpec(name, x, y, w, h, measure) =>
      ContainerEmbedded(CardConfig(name, x, y, w, h, 0, measure), Arr([]), x, y, w, h, 0);
    case SlicerSpec(name, x, y, w, h, column, title) =>
      ContainerEmbedded(SlicerConfig(name, x, y, w, h, 0, column, title), Arr([]), x, y, w, h, 0);
    case InlineSpec(name, x, y, w, h, visualType, alias, entity, fields, extra, roles, objects) =>
      ContainerEmbedded(QueryVisualConfig(name, x, y, w, h, 0, visualType, alias, entity, fields, extra, roles, objects), Arr([]), x, y, w, h, 0);
    case ButtonSpec(name, x, y, w, h, caption, destination) =>
      ContainerEmbedded(ButtonConfig(name, x, y, w, h, caption, destination), Arr([]), x, y, w, h, 0);
  }

  /** A page's config and filters are serialised documents, and so are those of its visuals. */
  lemma PageEmbedded(displayName: string, filters: Value, name: string, ordinal: int, specs: seq<VisualSpec>)
    ensures ValidateEmbedded(PageOf(displayName, filters, name, ordinal, Rendered(specs)))
  {
    var vcs := Rendered(specs);
    forall k | 0 <= k < |vcs|
      ensures ValidateEmbedded(vcs[k])
    {
      RenderEmbedded(specs[k]);
    }
    ListEmbedded(vcs);
  }

  /** A dict with no blob key whose values all pass the walk passes it. */
  lemma PlainDictEmbedded(m: map<string, Value>)
    requires forall key | key in m :: !IsBlobKey(key) && ValidateEmbedded(m[key])
    ensures ValidateEmbedded(Obj(m))
  {
  }

  /** A list whose items all pass the walk passes it. */
  lemma ListEmbedded(xs: seq<Value>)
    requires forall k | 0 <= k < |xs| :: ValidateEmbedded(xs[k])
    ensures ValidateEmbedded(Arr(xs))
  {
  }

  /** A resource package holds no `config` or `filters` key at any depth. */
  lemma PackageEmbedded(packageName: string, packageType: int, itemName: string, itemPath: string, itemType: int)
    ensures ValidateEmbedded(ResourcePackage(packageName, packageType, itemName, itemPath, itemType))
  {
    var itemFields := map["name" := Str(itemName), "path" := Str(itemPath), "type" := Num(itemType)];
    PlainDictEmbedded(itemFields);
    var item := Obj(itemFields);
    ListEmbedded([item]);
    var packageFields := map[
      "disabled" := Bool(false),
      "items" := Arr([item]),
      "name" := Str(packageName),
      "type" := Num(packageType)];
    PlainDictEmbedded(packageFields);
    PlainDictEmbedded(map["resourcePackage" := Obj(packageFields)]);
  }

  lemma ReportEmbedded(config: Value, packages: Value, pages: seq<Value>, theme: string)
    requires ValidateEmbedded(packages)
    requires forall k :: 0 <= k < |pages| ==> ValidateEmbedded(pages[k])
    ensures ValidateEmbedded(ReportOf(config, packages, pages, theme))
  {
    assert ValidateEmbedded(Arr(pages));
  }

  lemma PackagesEmbedded()
    ensures ValidateEmbedded(ResourcePackages())
  {
    PackageEmbedded("SharedResources", 2, BaseTheme, "BaseThemes/" + BaseTheme + ".json", 202);
    PackageEmbedded("RegisteredResources", 1, CustomTheme, CustomTheme, 201);
  }

  lemma PagesEmbedded()
    ensures ValidateEmbedded(BuildPage1()) && ValidateEmbedded(BuildPage2())
  {
    PageEmbedded("都道府県一覧", Arr([]), Page1Name, 0, Page1Specs());
    PageEmbedded("市区町村詳細", PageFilters(), Page2Name, 1, Page2Specs());
  }

  /** `validate_embedded` passes on the report `build_report` returns. */
  lemma BuiltReportEmbedded()
    ensures ValidateEmbedded(BuildReport())
  {
    PagesEmbedded();
    TwoPagesEmbedded(BuildPage1(), BuildPage2());
  }

  /** The report config and packages with two pages that pass the walk pass it. */
  lemma TwoPagesEmbedded(p1: Value, p2: Value)
    requires ValidateEmbedded(p1) && ValidateEmbedded(p2)
    ensures ValidateEmbedded(ReportOf(ReportConfig(), ResourcePackages(), [p1, p2], CustomTheme))
  {
    PackagesEmbedded();
    ReportEmbedded(ReportConfig(), ResourcePackages(), [p1, p2], CustomTheme);
  }

  // ---------------------------------------------------------------------
  // `main`
  // ---------------------------------------------------------------------

  /** How a run ends: the report written as the given text; exit status 1
      after printing the validation errors; an exception escaping
      `validate_report`; or the `ValueError` `validate_embedded` raises. */
  datatype RunResult = Written(text: Value) | ValidationFailed(issues: seq<Issue>) | ValidatorRaised | EmbeddedInvalid

  /** `main` on a given report: validate, stop on errors, serialise, read
      back, walk the readback. */
  method Run(report: Value) returns (r: RunResult)
    ensures r == ValidatorRaised <==> ReportOutcome(report).Raised?
    ensures r.ValidationFailed? <==> ReportOutcome(report).Reported? && ReportOutcome(report).issues != []
    ensures r.ValidationFailed? ==> r.issues == ReportOutcome(report).issues
    ensures r == EmbeddedInvalid <==> ReportOutcome(report) == Reported([]) && !ValidateEmbedded(report)
    ensures r.Written? ==> Loads(r.text) == Loaded(report)
  {
    var outcome := ValidateReport(report);
    if outcome.Raised? {
      return ValidatorRaised;
    }
    if |outcome.issues| > 0 {
      return ValidationFailed(outcome.issues);
    }
    var text := Dumps(report);
    var readback := Loads(text).value;
    if !ValidateEmbedded(readback) {
      return EmbeddedInvalid;
    }
    return Written(text);
  }

  /** `main`: the report `build_report` returns is written, and the text
      written reads back as that report. */
  method Generate() returns (r: RunResult)
    ensures r.Written? && Loads(r.text) == Loaded(BuildReport())
  {
    BuiltReportChecked();
    BuiltReportEmbedded();
    r := Run(BuildReport());
  }
}
