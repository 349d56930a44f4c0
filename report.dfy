/** The two pages and the report the generator assembles (`build_page1`,
    `build_page2`, `build_report`), with what holds of every visual they
    place: its placement agrees with its config and lies on the page, it
    has a name and a type, and its query, if any, is one the validator
    accepts and the projections can rely on. */
module Report {
  import opened Json
  import opened Literals
  import opened Visuals

  const Page1Name: string := "ReportSection_page1"
  const Page2Name: string := "ReportSection_page2"
  const BaseTheme: string := "CY23SU08"
  const CustomTheme: string := "Digital_Agency_Dashboard_Desig3362615343750506.json"

  /** The three measures both pages show on cards. */
  const RateMeasure: string := "子育て介護26手続完了率"
  const CompletedMeasure: string := "子育て介護26手続完了自治体数"
  const TotalMeasure: string := "自治体数"

  /** The table the donut chart reads from. */
  const CompletionTable: string := "完了状況"

  /** Every page is 1920 by 1080. */
  const PageWidth: int := 1920
  const PageHeight: int := 1080

  // ---------------------------------------------------------------------
  // What every placed visual satisfies
  // ---------------------------------------------------------------------

  /** The container's placement agrees with its config, it carries no
      filters, and its rectangle lies within the page. */
  predicate Placed(vc: Value)
  {
    && LayoutAgrees(vc)
    && FiltersOf(vc) == Some(Arr([]))
    && var r := RectOf(vc).value;
       0 <= r.x && 0 <= r.y && r.x + r.width <= PageWidth && r.y + r.height <= PageHeight
  }

  /** A config with no query, or with a query shaped as the validator
      demands, listing its sources, naming each selected field after it,
      and holding every name the projections refer to. */
  predicate QueryWellFormed(config: Value)
  {
    || Visual(config, "prototypeQuery").None?
    || (&& QueryShaped(config)
        && Query(config, "From").value.Arr?
        && SelectsConventional(config)
        && ProjectionsSelected(config))
  }

  /** The non-empty visual type of a config. */
  predicate Typed(config: Value)
  {
    match Visual(config, "visualType")
    case Some(Str(t)) => |t| > 0
    case _ => false
  }

  /** A visual container as the pages build it, named `name`. */
  predicate WellBuilt(vc: Value, name: string)
  {
    && Placed(vc)
    && |name| > 0
    && Get(ConfigOf(vc).value, "name") == Some(Str(name))
    && Typed(ConfigOf(vc).value)
    && QueryWellFormed(ConfigOf(vc).value)
  }

  predicate Distinct(names: seq<string>)
  {
    forall a, b :: 0 <= a < b < |names| ==> names[a] != names[b]
  }

  /** Every visual of a page is well built, under the name listed for it, and no name is listed twice. */
  predicate PageVisuals(vcs: seq<Value>, names: seq<string>)
  {
    && |vcs| == |names|
    && Distinct(names)
    && forall k :: 0 <= k < |vcs| ==> WellBuilt(vcs[k], names[k])
  }

  /** The page dict both builders return: an empty config, the page filters
      serialised, 1920 by 1080. */
  function PageOf(displayName: string, filters: Value, name: string, ordinal: int, visuals: seq<Value>): Value
  {
    Obj(map[
      "config" := Dumps(Obj(map[])),
      "displayName" := Str(displayName),
      "displayOption" := Num(1),
      "filters" := Dumps(filters),
      "height" := Num(PageHeight),
      "name" := Str(name),
      "ordinal" := Num(ordinal),
      "visualContainers" := Arr(visuals),
      "width" := Num(PageWidth)])
  }

  lemma TextboxWellBuilt(name: string, x: int, y: int, w: int, h: int, paragraphs: Value)
    requires |name| > 0 && 0 <= x && 0 <= y && x + w <= PageWidth && y + h <= PageHeight
    ensures WellBuilt(MakeTextbox(name, x, y, w, h, 0, paragraphs, None), name)
  {
  }

  lemma CardWellBuilt(name: string, x: int, y: int, w: int, h: int, measure: string)
    requires |name| > 0 && 0 <= x && 0 <= y && x + w <= PageWidth && y + h <= PageHeight
    ensures WellBuilt(MakeCard(name, x, y, w, h, 0, measure), name)
  {
    var c := CardConfig(name, x, y, w, h, 0, measure);
    assert Query(c, "From").value.Arr?;
  }

  lemma SlicerWellBuilt(name: string, x: int, y: int, w: int, h: int, column: string, title: string)
    requires |name| > 0 && 0 <= x && 0 <= y && x + w <= PageWidth && y + h <= PageHeight
    ensures WellBuilt(MakeSlicer(name, x, y, w, h, 0, column, title), name)
  {
    var c := SlicerConfig(name, x, y, w, h, 0, column, title);
    assert Query(c, "From").value.Arr?;
  }

  // ---------------------------------------------------------------------
  // The calls a page builder makes
  // ---------------------------------------------------------------------

  /** One call a page builder makes to place a visual at depth 0: a
      textbox, a card or a slicer through its builder, or a config written
      inline (a visual over one table, or a navigation button) passed to
      `make_visual_container` with no filters. */
  datatype VisualSpec =
    | TextboxSpec(name: string, x: int, y: int, w: int, h: int, paragraphs: Value)
    | CardSpec(name: string, x: int, y: int, w: int, h: int, measure: string)
    | SlicerSpec(name: string, x: int, y: int, w: int, h: int, column: string, title: string)
    | InlineSpec(name: string, x: int, y: int, w: int, h: int, visualType: string, alias: string, entity: string,
                 fields: seq<FieldRef>, extra: map<string, Value>, roles: map<string, seq<FieldRef>>, objects: Value)
    | ButtonSpec(name: string, x: int, y: int, w: int, h: int, caption: string, destination: string)

  /** The visual container a call returns. */
  function Render(s: VisualSpec): Value
  {
    match s
    case TextboxSpec(name, x, y, w, h, paragraphs) => MakeTextbox(name, x, y, w, h, 0, paragraphs, None)
    case CardSpec(name, x, y, w, h, measure) => MakeCard(name, x, y, w, h, 0, measure)
    case SlicerSpec(name, x, y, w, h, column, title) => MakeSlicer(name, x, y, w, h, 0, column, title)
    case InlineSpec(name, x, y, w, h, visualType, alias, entity, fields, extra, roles, objects) =>
      MakeVisualContainer(QueryVisualConfig(name, x, y, w, h, 0, visualType, alias, entity, fields, extra, roles, objects), Arr([]), x, y, w, h, 0)
    case ButtonSpec(name, x, y, w, h, caption, destination) =>
      MakeVisualContainer(ButtonConfig(name, x, y, w, h, caption, destination), Arr([]), x, y, w, h, 0)
  }

  function Rendered(specs: seq<VisualSpec>): seq<Value>
  {
    seq(|specs|, k requires 0 <= k < |specs| => Render(specs[k]))
  }

  function SpecNames(specs: seq<VisualSpec>): seq<string>
  {
    seq(|specs|, k requires 0 <= k < |specs| => specs[k].name)
  }

  /** What the page builders' arguments satisfy: a name, a rectangle on the
      page, a type and projections over selected fields for an inline
      query visual, and a config naming itself and placed where the
      container is for one without a query. */
  predicate SpecOk(s: VisualSpec)
  {
    && |s.name| > 0 && 0 <= s.x && 0 <= s.y && s.x + s.w <= PageWidth && s.y + s.h <= PageHeight
    && match s
       case InlineSpec(_, _, _, _, _, visualType, _, _, fields, _, roles, _) =>
         |visualType| > 0 && RolesSelected(fields, roles) && forall k :: 0 <= k < |fields| ==> IsFieldKind(fields[k].kind)
       case _ => true
  }

  /** Each call with sound arguments returns a well-built visual under the name given. */
  lemma SpecWellBuilt(s: VisualSpec)
    requires SpecOk(s)
    ensures WellBuilt(Render(s), s.name)
  {
    match s
    case TextboxSpec(name, x, y, w, h, paragraphs) =>
      TextboxWellBuilt(name, x, y, w, h, paragraphs);
    case CardSpec(name, x, y, w, h, measure) =>
      CardWellBuilt(name, x, y, w, h, measure);
    case SlicerSpec(name, x, y, w, h, column, title) =>
      SlicerWellBuilt(name, x, y, w, h, column, title);
    case InlineSpec(name, x, y, w, h, visualType, alias, entity, fields, extra, roles, objects) =>
      InlineWellBuilt(s);
    case ButtonSpec(name, x, y, w, h, caption, destination) =>
  }

  lemma InlineWellBuilt(s: VisualSpec)
    requires s.InlineSpec? && SpecOk(s)
    ensures WellBuilt(Render(s), s.name)
  {
    QueryVisualRead(s.name, s.x, s.y, s.w, s.h, 0, s.visualType, s.alias, s.entity, s.fields, s.extra, s.roles, s.objects);
  }

  /** A page placing visuals with sound arguments under distinct names has only well-built visuals. */
  lemma RenderedWellBuilt(specs: seq<VisualSpec>)
    requires forall k :: 0 <= k < |specs| ==> SpecOk(specs[k])
    requires Distinct(SpecNames(specs))
    ensures PageVisuals(Rendered(specs), SpecNames(specs))
  {
    forall k | 0 <= k < |specs|
      ensures WellBuilt(Rendered(specs)[k], SpecNames(specs)[k])
    {
      SpecWellBuilt(specs[k]);
    }
  }

  // ---------------------------------------------------------------------
  // Page 1: the prefecture overview
  // ---------------------------------------------------------------------

  function TitleParagraphs(): Value
  {
    Obj(map["paragraphs" := Arr([Obj(map["textRuns" := Arr([Obj(map[
      "value" := Str("子育て・介護関係の26手続のオンライン化取組状況"),
      "textStyle" := Obj(map["fontWeight" := Str("bold")])])])])])])
  }

  /** The donut selects the status column and the completion measure of `完了状況`. */
  function DonutFields(): seq<FieldRef>
  {
    [FieldRef("Column", "ステータス"), FieldRef("Measure", "完了状況値")]
  }

  /** The categories are the statuses, the slice sizes the completion measure. */
  function DonutRoles(): map<string, seq<FieldRef>>
  {
    map["Category" := [DonutFields()[0]], "Y" := [DonutFields()[1]]]
  }

  /** The donut's slices are ordered ascending by the `順序` column of its source. */
  function DonutOrderBy(): Value
  {
    Arr([Obj(map["Direction" := Num(1), "Expression" := Obj(map["Column" := FieldExpr("k", "順序")])])])
  }

  function DonutObjects(): Value
  {
    Obj(map["legend" := Arr([Obj(map["properties" := Obj(map["show" := LitBool(true)])])])])
  }

  /** The multi-row card lists each prefecture with the three card measures. */
  function PrefFields(): seq<FieldRef>
  {
    [FieldRef("Column", "都道府県"), FieldRef("Measure", RateMeasure), FieldRef("Measure", CompletedMeasure), FieldRef("Measure", TotalMeasure)]
  }

  /** The visuals of page 1, front to back. */
  function Page1Specs(): seq<VisualSpec>
  {
    [
      TextboxSpec("vc_p1_title", 40, 20, 900, 50, TitleParagraphs()),
      CardSpec("vc_p1_card_rate", 40, 90, 250, 80, RateMeasure),
      CardSpec("vc_p1_card_completed", 300, 90, 250, 80, CompletedMeasure),
      CardSpec("vc_p1_card_total", 560, 90, 250, 80, TotalMeasure),
      InlineSpec("vc_p1_donut", 40, 190, 400, 400, "donutChart", "k", CompletionTable, DonutFields(),
        map["OrderBy" := DonutOrderBy()], DonutRoles(), DonutObjects()),
      InlineSpec("vc_p1_pref_cards", 40, 190, 1860, 870, "multiRowCard", "o", StatusTable, PrefFields(),
        map[], map["Values" := PrefFields()], Obj(map[]))
    ]
  }

  /** `build_page1`: the first page, unfiltered, holding one container per
      visual of `Page1Specs`, in order. */
  function BuildPage1(): (p: Value)
    ensures p.Obj? && Get(p, "name") == Some(Str(Page1Name)) && Get(p, "ordinal") == Some(Num(0))
    ensures Get(p, "width") == Some(Num(PageWidth)) && Get(p, "height") == Some(Num(PageHeight))
    ensures "filters" in p.fields && Loads(p.fields["filters"]) == Loaded(Arr([]))
    ensures "visualContainers" in p.fields && p.fields["visualContainers"].Arr?
    ensures var vcs := p.fields["visualContainers"].items;
      |vcs| == |Page1Specs()| && forall k :: 0 <= k < |vcs| ==> vcs[k] == Render(Page1Specs()[k])
  {
    PageOf("都道府県一覧", Arr([]), Page1Name, 0, Rendered(Page1Specs()))
  }

  /** The multi-row card is placed at the donut chart's own corner and is
      larger in both directions: it covers the donut entirely. */
  lemma PrefCardsCoverDonut()
    ensures var donut, cards := Page1Specs()[4], Page1Specs()[5];
      && donut.name == "vc_p1_donut" && cards.name == "vc_p1_pref_cards"
      && cards.x == donut.x && cards.y == donut.y && donut.w <= cards.w && donut.h <= cards.h
  {
  }

  lemma DonutRolesSelected()
    ensures RolesSelected(DonutFields(), DonutRoles())
  {
    var fields := DonutFields();
    assert fields[0] in fields && fields[1] in fields;
  }

  lemma Page1SpecsOk()
    ensures forall k :: 0 <= k < |Page1Specs()| ==> SpecOk(Page1Specs()[k])
  {
    var specs := Page1Specs();
    DonutRolesSelected();
    PrefRolesSelected();
    assert SpecOk(specs[0]);
    assert SpecOk(specs[1]) && SpecOk(specs[2]) && SpecOk(specs[3]);
    assert SpecOk(specs[4]);
    assert SpecOk(specs[5]);
  }

  /** The multi-row card shows exactly the fields its query selects. */
  lemma PrefRolesSelected()
    ensures RolesSelected(PrefFields(), map["Values" := PrefFields()])
  {
  }

  lemma Page1NamesDistinct()
    ensures Distinct(SpecNames(Page1Specs()))
  {
    var names := SpecNames(Page1Specs());
    assert names == ["vc_p1_title", "vc_p1_card_rate", "vc_p1_card_completed", "vc_p1_card_total", "vc_p1_donut", "vc_p1_pref_cards"];
  }

  /** Every visual of page 1 is well built, under a name of its own. */
  lemma Page1Built()
    ensures PageVisuals(Rendered(Page1Specs()), SpecNames(Page1Specs()))
  {
    Page1SpecsOk();
    Page1NamesDistinct();
    RenderedWellBuilt(Page1Specs());
  }

  // ---------------------------------------------------------------------
  // Page 2: the municipality detail
  // ---------------------------------------------------------------------

  /** One value of an `In` condition: the quoted text as a literal. */
  function InValue(s: string): Value
  {
    Arr([Obj(map["Literal" := Obj(map["Value" := Str("'" + s + "'")])])])
  }

  /** A hidden categorical page filter keeping the rows of the status table
      whose `サブカテゴリ` is one of `subcategories`. */
  function SubcategoryFilter(subcategories: seq<string>): Value
  {
    Obj(map[
      "name" := Str("filter_subcat"),
      "expression" := Obj(map["Column" := Obj(map[
        "Expression" := Obj(map["SourceRef" := Obj(map["Entity" := Str(StatusTable)])]),
        "Property" := Str("サブカテゴリ")])]),
      "type" := Str("Categorical"),
      "filter" := Obj(map[
        "Version" := Num(2),
        "From" := Arr([FromEntry("o", StatusTable)]),
        "Where" := Arr([Obj(map["Condition" := Obj(map["In" := Obj(map[
          "Expressions" := Arr([Obj(map["Column" := FieldExpr("o", "サブカテゴリ")])]),
          "Values" := Arr(seq(|subcategories|, k requires 0 <= k < |subcategories| => InValue(subcategories[k])))])])])])]),
      "isHiddenInViewMode" := Bool(true)])
  }

  /** The page filters of page 2: child care and nursing care procedures only. */
  function PageFilters(): Value
  {
    Arr([SubcategoryFilter(["ア.子育て関係", "イ.介護関係"])])
  }

  /** The values an `In` condition's filter admits, as written. */
  function InValues(filter: Value): seq<Value>
  {
    Entries(Field(Field(Field(Item(Field(Get(filter, "filter"), "Where"), 0), "Condition"), "In"), "Values"))
  }

  /** The token an `In` value reads as. */
  function InToken(v: Value): Option<Token>
  {
    match Field(Item(Some(v), 0), "Literal")
    case Some(lit) =>
      (match Get(lit, "Value")
       case Some(Str(t)) => DecodeToken(t)
       case _ => None)
    case None => None
  }

  /** A subcategory filter admits exactly the subcategories given, each read
      back as the text given, and hides itself in view mode. */
  lemma SubcategoryFilterReads(subcategories: seq<string>)
    ensures var values := InValues(SubcategoryFilter(subcategories));
      && |values| == |subcategories|
      && forall k :: 0 <= k < |values| ==> InToken(values[k]) == Some(TextToken(subcategories[k]))
    ensures Get(SubcategoryFilter(subcategories), "isHiddenInViewMode") == Some(Bool(true))
  {
    var f := SubcategoryFilter(subcategories);
    var vs := seq(|subcategories|, k requires 0 <= k < |subcategories| => InValue(subcategories[k]));
    var inCond := Obj(map[
      "Expressions" := Arr([Obj(map["Column" := FieldExpr("o", "サブカテゴリ")])]),
      "Values" := Arr(vs)]);
    var where := Obj(map["Condition" := Obj(map["In" := inCond])]);
    assert Field(Get(f, "filter"), "Where") == Some(Arr([where]));
    assert Field(Field(Item(Some(Arr([where])), 0), "Condition"), "In") == Some(inCond);
    assert InValues(f) == vs;
    forall k | 0 <= k < |vs|
      ensures InToken(vs[k]) == Some(TextToken(subcategories[k]))
    {
      InValueReads(subcategories[k]);
    }
  }

  /** One value of an `In` condition reads back as the text quoted. */
  lemma InValueReads(s: string)
    ensures InToken(InValue(s)) == Some(TextToken(s))
  {
    var t := "'" + s + "'";
    assert t[1..|t| - 1] == s;
  }

  /** The `objects` of a navigation button: no icon or outline, the
      caption shown, and a page-navigation action to `destination`. */
  function ButtonObjects(caption: string, destination: string): (r: Value)
    ensures PropertyOf(Some(r), "action", "type") == LitStr("PageNavigation")
    ensures PropertyOf(Some(r), "action", "destination") == LitStr(destination)
    ensures PropertyOf(Some(r), "text", "text") == LitStr(caption)
  {
    var text := map["show" := LitBool(true), "text" := LitStr(caption)];
    var action := map["type" := LitStr("PageNavigation"), "destination" := LitStr(destination)];
    var group := map[
      "icon" := HiddenBlock(),
      "outline" := HiddenBlock(),
      "text" := Arr([Obj(map["properties" := Obj(text)])]),
      "action" := Arr([Obj(map["properties" := Obj(action)])])];
    BlockPropertyReads(group, "action", action, "type");
    BlockPropertyReads(group, "action", action, "destination");
    BlockPropertyReads(group, "text", text, "text");
    Obj(group)
  }

  function ButtonVisual(caption: string, destination: string): (v: Value)
    ensures Get(v, "visualType") == Some(Str("actionButton"))
    ensures Get(v, "prototypeQuery").None?
    ensures Get(v, "objects") == Some(ButtonObjects(caption, destination))
    ensures Get(v, "vcObjects") == Some(HiddenVcObjects())
  {
    var fields := map["visualType" := Str("actionButton"), "objects" := ButtonObjects(caption, destination), "vcObjects" := HiddenVcObjects()];
    DictReads(fields);
    Obj(fields)
  }

  /** A config holding a name, a layout and a visual reads back as them. */
  lemma ConfigReads(c: Value, name: string, x: int, y: int, w: int, h: int, v: Value)
    requires c == Obj(map["name" := Str(name), "layouts" := Layouts(x, y, 0, w, h), "singleVisual" := v])
    ensures Get(c, "name") == Some(Str(name))
    ensures forall key :: Visual(c, key) == Get(v, key)
    ensures LayoutRect(c) == Some(Rect(x, y, w, h, 0))
  {
    LayoutsPlaced(c, x, y, 0, w, h);
  }

  /** The inline config of page 2's back button: an action button with no
      query, every container decoration hidden. */
  function ButtonConfig(name: string, x: int, y: int, w: int, h: int, caption: string, destination: string): (c: Value)
    ensures Get(c, "name") == Some(Str(name))
    ensures Visual(c, "visualType") == Some(Str("actionButton"))
    ensures Visual(c, "prototypeQuery").None?
    ensures Visual(c, "objects") == Some(ButtonObjects(caption, destination))
    ensures LayoutRect(c) == Some(Rect(x, y, w, h, 0))
  {
    var v := ButtonVisual(caption, destination);
    var c := Obj(map["name" := Str(name), "layouts" := Layouts(x, y, 0, w, h), "singleVisual" := v]);
    ConfigReads(c, name, x, y, w, h, v);
    c
  }

  /** The matrix's rows are subcategory and procedure, its columns the
      municipality, its cells the status text. */
  function MatrixFields(): seq<FieldRef>
  {
    [FieldRef("Column", "サブカテゴリ"), FieldRef("Column", "手続名"), FieldRef("Column", "団体名"), FieldRef("Measure", "ステータス表示")]
  }

  function MatrixRoles(): map<string, seq<FieldRef>>
  {
    map["Rows" := MatrixFields()[..2], "Columns" := [MatrixFields()[2]], "Values" := [MatrixFields()[3]]]
  }

  /** Neither row nor column subtotals. */
  function MatrixObjects(): Value
  {
    Obj(map["subTotals" := Arr([Obj(map["properties" := Obj(map["rowSubtotals" := LitBool(false), "columnSubtotals" := LitBool(false)])])])])
  }

  /** The visuals of page 2, front to back. */
  function Page2Specs(): seq<VisualSpec>
  {
    [
      ButtonSpec("vc_p2_back", 20, 20, 240, 36, "< 都道府県一覧に戻る", Page1Name),
      SlicerSpec("vc_p2_slicer_pref", 20, 70, 280, 55, "都道府県", "都道府県"),
      SlicerSpec("vc_p2_slicer_muni", 320, 70, 280, 55, "団体名", "団体名"),
      CardSpec("vc_p2_card_rate", 620, 70, 200, 55, RateMeasure),
      CardSpec("vc_p2_card_completed", 840, 70, 200, 55, CompletedMeasure),
      CardSpec("vc_p2_card_total", 1060, 70, 200, 55, TotalMeasure),
      InlineSpec("vc_p2_matrix", 20, 140, 1880, 920, "pivotTable", "o", StatusTable, MatrixFields(),
        map[], MatrixRoles(), MatrixObjects())
    ]
  }

  /** `build_page2`: the second page, filtered to the subcategories,
      holding one container per visual of `Page2Specs`, in order. */
  function BuildPage2(): (p: Value)
    ensures p.Obj? && Get(p, "name") == Some(Str(Page2Name)) && Get(p, "ordinal") == Some(Num(1))
    ensures Get(p, "width") == Some(Num(PageWidth)) && Get(p, "height") == Some(Num(PageHeight))
    ensures "filters" in p.fields && Loads(p.fields["filters"]) == Loaded(PageFilters())
    ensures "visualContainers" in p.fields && p.fields["visualContainers"].Arr?
    ensures var vcs := p.fields["visualContainers"].items;
      |vcs| == |Page2Specs()| && forall k :: 0 <= k < |vcs| ==> vcs[k] == Render(Page2Specs()[k])
  {
    PageOf("市区町村詳細", PageFilters(), Page2Name, 1, Rendered(Page2Specs()))
  }

  lemma MatrixRolesSelected()
    ensures RolesSelected(MatrixFields(), MatrixRoles())
  {
    var fields := MatrixFields();
    assert fields[0] in fields && fields[1] in fields && fields[2] in fields && fields[3] in fields;
    assert fields[..2] == [fields[0], fields[1]];
  }

  lemma Page2SpecsOk()
    ensures forall k :: 0 <= k < |Page2Specs()| ==> SpecOk(Page2Specs()[k])
  {
    var specs := Page2Specs();
    MatrixRolesSelected();
    assert SpecOk(specs[0]);
    assert SpecOk(specs[1]) && SpecOk(specs[2]) && SpecOk(specs[3]) && SpecOk(specs[4]) && SpecOk(specs[5]);
  }

  lemma Page2NamesDistinct()
    ensures Distinct(SpecNames(Page2Specs()))
  {
    var names := SpecNames(Page2Specs());
    assert names == ["vc_p2_back", "vc_p2_slicer_pref", "vc_p2_slicer_muni", "vc_p2_card_rate",
                     "vc_p2_card_completed", "vc_p2_card_total", "vc_p2_matrix"];
  }

  /** Every visual of page 2 is well built, under a name of its own. */
  lemma Page2Built()
    ensures PageVisuals(Rendered(Page2Specs()), SpecNames(Page2Specs()))
  {
    Page2SpecsOk();
    Page2NamesDistinct();
    RenderedWellBuilt(Page2Specs());
  }

  /** A navigation button's action is a page navigation whose destination
      reads back as the page name given. */
  lemma ButtonNavigates(name: string, x: int, y: int, w: int, h: int, caption: string, destination: string)
    ensures var c := ButtonConfig(name, x, y, w, h, caption, destination);
      && Decode(Properties(c, "objects", "action", "type")) == Some(TextToken("PageNavigation"))
      && Decode(Properties(c, "objects", "action", "destination")) == Some(TextToken(destination))
      && Decode(Properties(c, "objects", "text", "text")) == Some(TextToken(caption))
  {
    LitStrDecodes("PageNavigation");
    LitStrDecodes(destination);
    LitStrDecodes(caption);
  }

  /** Page 2's back button navigates to the page `build_page1` names. */
  lemma BackButtonTargetsPage1()
    ensures var c := ConfigOf(Rendered(Page2Specs())[0]).value;
      Decode(Properties(c, "objects", "action", "destination")) == Some(TextToken(Page1Name))
    ensures Get(BuildPage1(), "name") == Some(Str(Page1Name))
  {
    var spec := Page2Specs()[0];
    assert spec == ButtonSpec("vc_p2_back", 20, 20, 240, 36, "< 都道府県一覧に戻る", Page1Name);
    ButtonNavigates(spec.name, spec.x, spec.y, spec.w, spec.h, spec.caption, spec.destination);
  }

  /** The values page 2 filters on are child care and nursing care. */
  lemma Page2Filtered()
    ensures var values := InValues(PageFilters().items[0]);
      && |values| == 2
      && InToken(values[0]) == Some(TextToken("ア.子育て関係"))
      && InToken(values[1]) == Some(TextToken("イ.介護関係"))
  {
    SubcategoryFilterReads(["ア.子育て関係", "イ.介護関係"]);
  }

  // ---------------------------------------------------------------------
  // The report
  // ---------------------------------------------------------------------

  /** A theme reference `{"name": name, "version": "5.46", "type": type}`. */
  function ThemeRef(name: string, kind: int): Value
  {
    Obj(map["name" := Str(name), "version" := Str("5.46"), "type" := Num(kind)])
  }

  /** The report-level config: format version, the base and custom themes, page 0 active, and the settings. */
  function ReportConfig(): Value
  {
    Obj(map[
      "version" := Str("5.44"),
      "themeCollection" := Obj(map["baseTheme" := ThemeRef(BaseTheme, 2), "customTheme" := ThemeRef(CustomTheme, 1)]),
      "activeSectionIndex" := Num(0),
      "defaultDrillFilterOtherVisuals" := Bool(true),
      "linguisticSchemaSyncVersion" := Num(2),
      "settings" := Obj(map[
        "useNewFilterPaneExperience" := Bool(true),
        "allowChangeFilterTypes" := Bool(true),
        "useStylableVisualContainerHeader" := Bool(true),
        "queryLimitOption" := Num(6),
        "useEnhancedTooltips" := Bool(true),
        "exportDataMode" := Num(1),
        "useDefaultAggregateDisplayName" := Bool(true)])])
  }

  /** A resource package holding one item. */
  function ResourcePackage(packageName: string, packageType: int, itemName: string, itemPath: string, itemType: int): Value
  {
    Obj(map["resourcePackage" := Obj(map[
      "disabled" := Bool(false),
      "items" := Arr([Obj(map["name" := Str(itemName), "path" := Str(itemPath), "type" := Num(itemType)])]),
      "name" := Str(packageName),
      "type" := Num(packageType)])])
  }

  /** The shared base theme and the registered custom theme file. */
  function ResourcePackages(): Value
  {
    Arr([
      ResourcePackage("SharedResources", 2, BaseTheme, "BaseThemes/" + BaseTheme + ".json", 202),
      ResourcePackage("RegisteredResources", 1, CustomTheme, CustomTheme, 201)])
  }

  /** The report dict: its config serialised, the pages in order, the theme named. */
  function ReportOf(config: Value, packages: Value, pages: seq<Value>, theme: string): Value
  {
    Obj(map[
      "config" := Dumps(config),
      "layoutOptimization" := Num(0),
      "resourcePackages" := packages,
      "sections" := Arr(pages),
      "theme" := Str(theme)])
  }

  /** The report dict reads back as the config, packages, pages and theme it is built from. */
  lemma ReportOfReads(config: Value, packages: Value, pages: seq<Value>, theme: string)
    ensures var r := ReportOf(config, packages, pages, theme);
      && r.Obj? && "config" in r.fields && Loads(r.fields["config"]) == Loaded(config)
      && Get(r, "theme") == Some(Str(theme))
      && Get(r, "sections") == Some(Arr(pages))
      && Get(r, "resourcePackages") == Some(packages)
  {
  }

  /** `build_report`: the report config serialised, the theme it names,
      the resource packages, and the two pages in order. */
  function BuildReport(): (r: Value)
    ensures r.Obj? && "config" in r.fields && Loads(r.fields["config"]) == Loaded(ReportConfig())
    ensures Get(r, "theme") == Some(Str(CustomTheme))
    ensures Get(r, "sections") == Some(Arr([BuildPage1(), BuildPage2()]))
    ensures Get(r, "resourcePackages") == Some(ResourcePackages())
  {
    var pages := [BuildPage1(), BuildPage2()];
    ReportOfReads(ReportConfig(), ResourcePackages(), pages, CustomTheme);
    ReportOf(ReportConfig(), ResourcePackages(), pages, CustomTheme)
  }

  /** The config's theme collection names the custom and the base theme. */
  lemma ConfigThemes()
    ensures Field(Field(Some(ReportConfig()), "themeCollection"), "customTheme") == Some(ThemeRef(CustomTheme, 1))
    ensures Field(Field(Some(ReportConfig()), "themeCollection"), "baseTheme") == Some(ThemeRef(BaseTheme, 2))
  {
  }

  /** The registered package holds the custom theme file, the shared one the base theme. */
  lemma PackageThemes()
    ensures var registered := Item(Field(Field(Item(Some(ResourcePackages()), 1), "resourcePackage"), "items"), 0);
      Field(registered, "name") == Some(Str(CustomTheme)) && Field(registered, "path") == Some(Str(CustomTheme))
    ensures var shared := Item(Field(Field(Item(Some(ResourcePackages()), 0), "resourcePackage"), "items"), 0);
      Field(shared, "name") == Some(Str(BaseTheme))
  {
  }

  /** The theme the report names is the config's custom theme and the file
      registered as a resource; the base theme is the shared resource. */
  lemma ThemesRegistered()
    ensures Get(BuildReport(), "theme") == Some(Str(CustomTheme))
    ensures Field(Field(Some(ReportConfig()), "themeCollection"), "customTheme") == Some(ThemeRef(CustomTheme, 1))
    ensures Field(Field(Some(ReportConfig()), "themeCollection"), "baseTheme") == Some(ThemeRef(BaseTheme, 2))
    ensures var registered := Item(Field(Field(Item(Some(ResourcePackages()), 1), "resourcePackage"), "items"), 0);
      Field(registered, "name") == Some(Str(CustomTheme)) && Field(registered, "path") == Some(Str(CustomTheme))
    ensures var shared := Item(Field(Field(Item(Some(ResourcePackages()), 0), "resourcePackage"), "items"), 0);
      Field(shared, "name") == Some(Str(BaseTheme))
  {
    ConfigThemes();
    PackageThemes();
  }

  /** The measures a list of visuals shows on cards, in order. */
  function CardMeasures(specs: seq<VisualSpec>): seq<string>
  {
    if specs == [] then []
    else (if specs[0].CardSpec? then [specs[0].measure] else []) + CardMeasures(specs[1..])
  }

  /** Page 1 shows the rate, completed and total measures on cards, in that order. */
  lemma Page1Cards()
    ensures CardMeasures(Page1Specs()) == [RateMeasure, CompletedMeasure, TotalMeasure]
  {
  }

  /** Page 2 shows the same three measures on cards, in the same order as page 1. */
  lemma Page2Cards()
    ensures CardMeasures(Page2Specs()) == [RateMeasure, CompletedMeasure, TotalMeasure]
    ensures CardMeasures(Page2Specs()) == CardMeasures(Page1Specs())
  {
  }
}
