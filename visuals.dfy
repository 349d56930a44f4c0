/** The visual-container builders of the report generator
    (`make_visual_container`, `make_textbox`, `make_card`, `make_slicer`) and
    the readings of a container they are proved against: its parsed config,
    its placement, its query and its projections. */
module Visuals {
  import opened Json
  import opened Literals

  /** The table the cards and slicers read from. */
  const StatusTable: string := "オンライン化状況"

  // ---------------------------------------------------------------------
  // Reading a visual container
  // ---------------------------------------------------------------------

  /** The document a container's embedded text `key` parses to. */
  function EmbeddedDoc(vc: Value, key: string): Option<Value>
  {
    match Get(vc, key)
    case Some(text) =>
      (match Loads(text)
       case Loaded(d) => Some(d)
       case _ => None)
    case None => None
  }

  function ConfigOf(vc: Value): Option<Value>
  {
    EmbeddedDoc(vc, "config")
  }

  function FiltersOf(vc: Value): Option<Value>
  {
    EmbeddedDoc(vc, "filters")
  }

  /** The placement stored in `layouts[0].position` of a visual config. */
  function LayoutRect(config: Value): Option<Rect>
  {
    match Field(Item(Get(config, "layouts"), 0), "position")
    case Some(p) => RectOf(p)
    case None => None
  }

  /** The container's own x/y/width/height/z agree with the position in its config. */
  predicate LayoutAgrees(vc: Value)
  {
    ConfigOf(vc).Some? && RectOf(vc).Some? && LayoutRect(ConfigOf(vc).value) == RectOf(vc)
  }

  function Visual(config: Value, key: string): Option<Value>
  {
    Field(Get(config, "singleVisual"), key)
  }

  function Query(config: Value, key: string): Option<Value>
  {
    Field(Visual(config, "prototypeQuery"), key)
  }

  /** `group[block][0]["properties"][prop]` of a style group, `Null` when absent. */
  function PropertyOf(group: Option<Value>, block: string, prop: string): Value
  {
    match Field(Field(Item(Field(group, block), 0), "properties"), prop)
    case Some(v) => v
    case None => Null
  }

  /** A block built as `[{"properties": props}]` reads back its properties. */
  lemma BlockPropertyReads(group: map<string, Value>, block: string, props: map<string, Value>, prop: string)
    requires block in group && group[block] == Arr([Obj(map["properties" := Obj(props)])])
    requires prop in props
    ensures PropertyOf(Some(Obj(group)), block, prop) == props[prop]
  {
  }

  /** `singleVisual[group][block][0]["properties"][prop]` of a visual config,
      `Null` when absent. */
  function Properties(config: Value, group: string, block: string, prop: string): Value
  {
    PropertyOf(Visual(config, group), block, prop)
  }

  function Entries(v: Option<Value>): seq<Value>
  {
    match v
    case Some(Arr(xs)) => xs
    case _ => []
  }

  function Froms(config: Value): seq<Value>
  {
    Entries(Query(config, "From"))
  }

  function Selects(config: Value): seq<Value>
  {
    Entries(Query(config, "Select"))
  }

  /** The `Name`s the query gives its sources and its selected fields. */
  function NamesOf(entries: seq<Value>): set<Value>
  {
    set e | e in entries && HasKey(e, "Name") :: e.fields["Name"]
  }

  /** The source alias and property a `Select` entry reads, from its
      `Column` or `Measure` expression. */
  function SelectedField(sel: Value): Option<(string, string)>
  {
    var field := if HasKey(sel, "Column") then Get(sel, "Column") else Get(sel, "Measure");
    match field
    case Some(f) =>
      (match (Field(Field(Get(f, "Expression"), "SourceRef"), "Source"), Get(f, "Property"))
       case (Some(Str(src)), Some(Str(prop))) => Some((src, prop))
       case _ => None)
    case None => None
  }

  /** A `Select` entry named `<source>.<property>` after the field it reads,
      from a source the query declares in `From`. */
  predicate SelectConventional(sel: Value, sources: set<Value>)
  {
    match SelectedField(sel)
    case Some((src, prop)) => Str(src) in sources && Get(sel, "Name") == Some(Str(src + "." + prop))
    case None => false
  }

  predicate SelectsConventional(config: Value)
  {
    forall i :: 0 <= i < |Selects(config)| ==> SelectConventional(Selects(config)[i], NamesOf(Froms(config)))
  }

  /** The query references a projection role lists. */
  function RoleRefs(config: Value, role: string): seq<Value>
  {
    var refs := Entries(Field(Visual(config, "projections"), role));
    seq(|refs|, i requires 0 <= i < |refs| => match Get(refs[i], "queryRef") case Some(q) => q case None => Null)
  }

  function Roles(config: Value): set<string>
  {
    match Visual(config, "projections")
    case Some(Obj(m)) => m.Keys
    case _ => {}
  }

  /** Every query reference in the projections names a `Select` entry. */
  predicate ProjectionsSelected(config: Value)
  {
    forall role, q :: role in Roles(config) && q in RoleRefs(config, role) ==> q in NamesOf(Selects(config))
  }

  /** The query shape the validator demands: version 2, `From` and `Select`
      present, and every source of type 0 (a table). */
  predicate QueryShaped(config: Value)
  {
    && Query(config, "Version") == Some(Num(2))
    && Query(config, "From").Some? && Query(config, "Select").Some?
    && forall i :: 0 <= i < |Froms(config)| ==> Get(Froms(config)[i], "Type") == Some(Num(0))
  }

  /** A config whose query reads one field of the status table through the
      alias `o`, selected under `o.<property>` and projected once as `Values`. */
  predicate SingleFieldQuery(config: Value, kind: string, property: string)
  {
    && QueryShaped(config)
    && |Froms(config)| == 1
    && Get(Froms(config)[0], "Name") == Some(Str("o"))
    && Get(Froms(config)[0], "Entity") == Some(Str(StatusTable))
    && |Selects(config)| == 1
    && HasKey(Selects(config)[0], kind)
    && SelectedField(Selects(config)[0]) == Some(("o", property))
    && Roles(config) == {"Values"}
    && RoleRefs(config, "Values") == [Str("o." + property)]
    && ProjectionsSelected(config)
    && SelectsConventional(config)
  }

  // ---------------------------------------------------------------------
  // Builders
  // ---------------------------------------------------------------------

  /** `make_visual_container`: config and filters stored as serialised text,
      placement stored beside them. */
  function MakeVisualContainer(config: Value, filters: Value, x: int, y: int, w: int, h: int, z: int): (vc: Value)
    ensures ConfigOf(vc) == Some(config) && FiltersOf(vc) == Some(filters)
    ensures RectOf(vc) == Some(Rect(x, y, w, h, z))
  {
    Obj(map[
      "config" := Dumps(config),
      "filters" := Dumps(filters),
      "height" := Num(h),
      "width" := Num(w),
      "x" := Num(x),
      "y" := Num(y),
      "z" := Num(z)])
  }

  /** The `layouts` entry every builder writes: layout 0 at the given position. */
  function Layouts(x: int, y: int, z: int, w: int, h: int): Value
  {
    Arr([Obj(map["id" := Num(0), "position" := Position(x, y, z, w, h)])])
  }

  /** The `singleVisual` record of a textbox. */
  function TextboxVisual(paragraphs: Value, style: Value): (v: Value)
    ensures Get(v, "visualType") == Some(Str("textbox"))
    ensures Get(v, "prototypeQuery").None?
    ensures Get(v, "vcObjects") == Some(style)
    ensures LiteralValue(PropertyOf(Get(v, "objects"), "general", "paragraphs")) == Some(Dumps(paragraphs))
  {
    Obj(map[
      "visualType" := Str("textbox"),
      "objects" := Obj(map[
        "general" := Arr([Obj(map["properties" := Obj(map["paragraphs" := Lit(Dumps(paragraphs))])])])]),
      "vcObjects" := style])
  }

  /** The config `make_textbox` serialises; `vcObjects` defaults to `hidden_vc_objects()`. */
  function TextboxConfig(name: string, x: int, y: int, w: int, h: int, z: int, paragraphs: Value, vcObjects: Option<Value>): (c: Value)
    ensures Get(c, "name") == Some(Str(name))
    ensures Visual(c, "visualType") == Some(Str("textbox"))
    ensures Visual(c, "prototypeQuery").None?
    ensures LiteralValue(Properties(c, "objects", "general", "paragraphs")) == Some(Dumps(paragraphs))
    ensures Visual(c, "vcObjects") == Some(if vcObjects.Some? then vcObjects.value else HiddenVcObjects())
    ensures LayoutRect(c) == Some(Rect(x, y, w, h, z))
  {
    var style := if vcObjects.Some? then vcObjects.value else HiddenVcObjects();
    var c := Obj(map["name" := Str(name), "layouts" := Layouts(x, y, z, w, h), "singleVisual" := TextboxVisual(paragraphs, style)]);
    assert Get(c, "name") == Some(Str(name));
    LayoutsPlaced(c, x, y, z, w, h);
    c
  }

  /** `make_textbox`: a textbox whose paragraphs are serialised into a
      literal, placed where its config's layout says. */
  function MakeTextbox(name: string, x: int, y: int, w: int, h: int, z: int, paragraphs: Value, vcObjects: Option<Value>): (vc: Value)
    ensures LayoutAgrees(vc) && FiltersOf(vc) == Some(Arr([]))
    ensures ConfigOf(vc) == Some(TextboxConfig(name, x, y, w, h, z, paragraphs, vcObjects))
  {
    MakeVisualContainer(TextboxConfig(name, x, y, w, h, z, paragraphs, vcObjects), Arr([]), x, y, w, h, z)
  }

  /** A field a query selects from its one source: a `Column` or a `Measure`. */
  datatype FieldRef = FieldRef(kind: string, property: string)

  predicate IsFieldKind(kind: string)
  {
    kind == "Column" || kind == "Measure"
  }

  /** The name a query gives a selected field: `<alias>.<property>`. */
  function FieldName(alias: string, f: FieldRef): string
  {
    alias + "." + f.property
  }

  /** `{"Name": alias, "Entity": entity, "Type": 0}`: a table source. */
  function FromEntry(alias: string, entity: string): Value
  {
    Obj(map["Name" := Str(alias), "Entity" := Str(entity), "Type" := Num(0)])
  }

  /** `{"Expression": {"SourceRef": {"Source": alias}}, "Property": property}`:
      a property of the source `alias`. */
  function FieldExpr(alias: string, property: string): Value
  {
    Obj(map["Expression" := Obj(map["SourceRef" := Obj(map["Source" := Str(alias)])]), "Property" := Str(property)])
  }

  /** A `Select` entry reading `f` of the source `alias`, named after it. */
  function SelectEntry(alias: string, f: FieldRef): Value
  {
    Obj(map[f.kind := FieldExpr(alias, f.property), "Name" := Str(FieldName(alias, f))])
  }

  function SelectList(alias: string, fields: seq<FieldRef>): seq<Value>
  {
    seq(|fields|, k requires 0 <= k < |fields| => SelectEntry(alias, fields[k]))
  }

  /** A version-2 query over the one table `entity`, aliased `alias`, selecting `fields`. */
  function QueryOf(alias: string, entity: string, fields: seq<FieldRef>): Value
  {
    Obj(map["Version" := Num(2), "From" := Arr([FromEntry(alias, entity)]), "Select" := Arr(SelectList(alias, fields))])
  }

  /** A projection role: the list `[{"queryRef": n} for n in names]`. */
  function QueryRefs(names: seq<string>): Value
  {
    Arr(seq(|names|, k requires 0 <= k < |names| => Obj(map["queryRef" := Str(names[k])])))
  }

  /** The config's query holds, at least, the version, source and selection of `QueryOf(alias, entity, fields)`. */
  predicate QueryBuilt(config: Value, alias: string, entity: string, fields: seq<FieldRef>)
  {
    && Query(config, "Version") == Some(Num(2))
    && Query(config, "From") == Some(Arr([FromEntry(alias, entity)]))
    && Query(config, "Select") == Some(Arr(SelectList(alias, fields)))
  }

  lemma SelectEntryRead(alias: string, f: FieldRef)
    requires IsFieldKind(f.kind)
    ensures HasKey(SelectEntry(alias, f), f.kind)
    ensures SelectedField(SelectEntry(alias, f)) == Some((alias, f.property))
    ensures Get(SelectEntry(alias, f), "Name") == Some(Str(FieldName(alias, f)))
  {
  }

  /** A built query has the shape the validator demands, names its one
      source `alias`, and names each selected field after it. */
  lemma QueryBuiltRead(config: Value, alias: string, entity: string, fields: seq<FieldRef>)
    requires QueryBuilt(config, alias, entity, fields)
    requires forall k :: 0 <= k < |fields| ==> IsFieldKind(fields[k].kind)
    ensures QueryShaped(config)
    ensures Froms(config) == [FromEntry(alias, entity)]
    ensures NamesOf(Froms(config)) == {Str(alias)}
    ensures Selects(config) == SelectList(alias, fields)
    ensures SelectsConventional(config)
    ensures forall k :: 0 <= k < |fields| ==> Str(FieldName(alias, fields[k])) in NamesOf(Selects(config))
  {
    var froms := [FromEntry(alias, entity)];
    assert Froms(config) == froms;
    assert froms[0] in froms && HasKey(froms[0], "Name");
    assert NamesOf(Froms(config)) == {Str(alias)};
    var sels := SelectList(alias, fields);
    forall k | 0 <= k < |fields|
      ensures SelectConventional(sels[k], NamesOf(Froms(config)))
      ensures Str(FieldName(alias, fields[k])) in NamesOf(Selects(config))
    {
      SelectEntryRead(alias, fields[k]);
      assert alias + "." + fields[k].property == FieldName(alias, fields[k]);
      assert sels[k] in Selects(config) && HasKey(sels[k], "Name");
    }
  }

  /** Every field a role shows is one the query selects. */
  predicate RolesSelected(fields: seq<FieldRef>, roles: map<string, seq<FieldRef>>)
  {
    forall r, k :: r in roles && 0 <= k < |roles[r]| ==> roles[r][k] in fields
  }

  /** The query names of `refs`. */
  function RoleNames(alias: string, refs: seq<FieldRef>): seq<string>
  {
    seq(|refs|, k requires 0 <= k < |refs| => FieldName(alias, refs[k]))
  }

  /** A `projections` record: each role refers, by query name, to the fields given for it. */
  function ProjectionsOf(alias: string, roles: map<string, seq<FieldRef>>): Value
  {
    Obj(map r | r in roles :: QueryRefs(RoleNames(alias, roles[r])))
  }

  /** A role built by `QueryRefs(names)` refers to exactly `names`. */
  lemma QueryRefsRead(config: Value, role: string, names: seq<string>)
    requires Field(Visual(config, "projections"), role) == Some(QueryRefs(names))
    ensures RoleRefs(config, role) == seq(|names|, k requires 0 <= k < |names| => Str(names[k]))
  {
  }

  /** A role showing selected fields refers only to names the query gives. */
  lemma RoleSelected(config: Value, alias: string, fields: seq<FieldRef>, role: string, refs: seq<FieldRef>)
    requires forall k :: 0 <= k < |refs| ==> refs[k] in fields
    requires Field(Visual(config, "projections"), role) == Some(QueryRefs(RoleNames(alias, refs)))
    requires forall m :: 0 <= m < |fields| ==> Str(FieldName(alias, fields[m])) in NamesOf(Selects(config))
    ensures forall q :: q in RoleRefs(config, role) ==> q in NamesOf(Selects(config))
  {
    var names := RoleNames(alias, refs);
    QueryRefsRead(config, role, names);
    forall q | q in RoleRefs(config, role)
      ensures q in NamesOf(Selects(config))
    {
      var k :| 0 <= k < |names| && RoleRefs(config, role)[k] == q;
      var m :| 0 <= m < |fields| && fields[m] == refs[k];
      assert q == Str(FieldName(alias, fields[m]));
    }
  }

  /** Projections showing selected fields are all satisfied by the query,
      and their roles are the ones given. */
  lemma ProjectionsRead(config: Value, alias: string, entity: string, fields: seq<FieldRef>, roles: map<string, seq<FieldRef>>)
    requires QueryBuilt(config, alias, entity, fields)
    requires forall k :: 0 <= k < |fields| ==> IsFieldKind(fields[k].kind)
    requires RolesSelected(fields, roles)
    requires Visual(config, "projections") == Some(ProjectionsOf(alias, roles))
    ensures Roles(config) == roles.Keys
    ensures ProjectionsSelected(config)
  {
    QueryBuiltRead(config, alias, entity, fields);
    forall role | role in Roles(config)
      ensures forall q :: q in RoleRefs(config, role) ==> q in NamesOf(Selects(config))
    {
      RoleSelected(config, alias, fields, role, roles[role]);
    }
  }

  /** The `singleVisual` of a visual built inline over one table: its query
      is `QueryOf(alias, entity, fields)` with the extra clauses `extra`
      (such as `OrderBy`), its projections refer to selected fields, its
      title is hidden. */
  function QueryVisual(visualType: string, alias: string, entity: string, fields: seq<FieldRef>, extra: map<string, Value>,
                       roles: map<string, seq<FieldRef>>, objects: Value): (v: Value)
    ensures Get(v, "visualType") == Some(Str(visualType))
    ensures Get(v, "prototypeQuery") == Some(Obj(extra + QueryOf(alias, entity, fields).fields))
    ensures Get(v, "projections") == Some(ProjectionsOf(alias, roles))
    ensures Get(v, "objects") == Some(objects)
    ensures Get(v, "vcObjects") == Some(MinimalVcObjects())
  {
    var v := Obj(map[
      "visualType" := Str(visualType),
      "projections" := ProjectionsOf(alias, roles),
      "prototypeQuery" := Obj(extra + QueryOf(alias, entity, fields).fields),
      "objects" := objects,
      "vcObjects" := MinimalVcObjects()]);
    assert Get(v, "visualType") == Some(Str(visualType));
    v
  }

  /** The config of a visual built inline over one table. */
  function QueryVisualConfig(name: string, x: int, y: int, w: int, h: int, z: int, visualType: string, alias: string, entity: string,
                             fields: seq<FieldRef>, extra: map<string, Value>, roles: map<string, seq<FieldRef>>, objects: Value): (c: Value)
    ensures Get(c, "name") == Some(Str(name))
    ensures Visual(c, "visualType") == Some(Str(visualType))
    ensures Visual(c, "prototypeQuery") == Some(Obj(extra + QueryOf(alias, entity, fields).fields))
    ensures Visual(c, "projections") == Some(ProjectionsOf(alias, roles))
    ensures Visual(c, "objects") == Some(objects)
    ensures LayoutRect(c) == Some(Rect(x, y, w, h, z))
  {
    var c := Obj(map["name" := Str(name), "layouts" := Layouts(x, y, z, w, h), "singleVisual" := QueryVisual(visualType, alias, entity, fields, extra, roles, objects)]);
    assert Get(c, "name") == Some(Str(name));
    LayoutsPlaced(c, x, y, z, w, h);
    c
  }

  /** An inline-built visual's query keeps what `QueryOf` sets, whatever
      the extra clauses, and holds each extra clause under another key. */
  lemma QueryVisualBuilt(config: Value, alias: string, entity: string, fields: seq<FieldRef>, extra: map<string, Value>)
    requires Visual(config, "prototypeQuery") == Some(Obj(extra + QueryOf(alias, entity, fields).fields))
    ensures QueryBuilt(config, alias, entity, fields)
    ensures forall key :: key in extra && key != "Version" && key != "From" && key != "Select" ==> Query(config, key) == Some(extra[key])
  {
  }

  /** An inline-built visual's query has the shape the validator demands,
      and its projections are satisfied by it. */
  lemma QueryVisualRead(name: string, x: int, y: int, w: int, h: int, z: int, visualType: string, alias: string, entity: string,
                        fields: seq<FieldRef>, extra: map<string, Value>, roles: map<string, seq<FieldRef>>, objects: Value)
    requires RolesSelected(fields, roles)
    requires forall k :: 0 <= k < |fields| ==> IsFieldKind(fields[k].kind)
    ensures var c := QueryVisualConfig(name, x, y, w, h, z, visualType, alias, entity, fields, extra, roles, objects);
      && QueryShaped(c) && Query(c, "From").value.Arr? && SelectsConventional(c)
      && Roles(c) == roles.Keys && ProjectionsSelected(c)
  {
    var c := QueryVisualConfig(name, x, y, w, h, z, visualType, alias, entity, fields, extra, roles, objects);
    QueryVisualBuilt(c, alias, entity, fields, extra);
    QueryBuiltRead(c, alias, entity, fields);
    ProjectionsRead(c, alias, entity, fields, roles);
  }

  /** The `prototypeQuery` of a visual reading one field (`kind` is
      "Measure" or "Column") of the status table under the alias `o`. */
  function SingleFieldQueryOf(kind: string, property: string): Value
  {
    QueryOf("o", StatusTable, [FieldRef(kind, property)])
  }

  /** Its `projections`: the one role `Values`, referring to that field. */
  function SingleFieldProjections(property: string): Value
  {
    Obj(map["Values" := QueryRefs(["o." + property])])
  }

  lemma LayoutsPlaced(config: Value, x: int, y: int, z: int, w: int, h: int)
    requires Get(config, "layouts") == Some(Layouts(x, y, z, w, h))
    ensures LayoutRect(config) == Some(Rect(x, y, w, h, z))
  {
    assert Field(Item(Get(config, "layouts"), 0), "position") == Some(Position(x, y, z, w, h));
  }

  lemma SingleFieldFromsRead(config: Value, kind: string, property: string)
    requires Visual(config, "prototypeQuery") == Some(SingleFieldQueryOf(kind, property))
    ensures QueryShaped(config)
    ensures |Froms(config)| == 1
    ensures Get(Froms(config)[0], "Name") == Some(Str("o"))
    ensures Get(Froms(config)[0], "Entity") == Some(Str(StatusTable))
    ensures NamesOf(Froms(config)) == {Str("o")}
  {
    var q := SingleFieldQueryOf(kind, property);
    assert Froms(config) == q.fields["From"].items;
  }

  lemma SingleFieldSelectsRead(config: Value, kind: string, property: string)
    requires kind == "Measure" || kind == "Column"
    requires Visual(config, "prototypeQuery") == Some(SingleFieldQueryOf(kind, property))
    ensures |Selects(config)| == 1
    ensures HasKey(Selects(config)[0], kind)
    ensures SelectedField(Selects(config)[0]) == Some(("o", property))
    ensures Get(Selects(config)[0], "Name") == Some(Str("o." + property))
    ensures NamesOf(Selects(config)) == {Str("o." + property)}
  {
    var q := SingleFieldQueryOf(kind, property);
    var sel := q.fields["Select"].items[0];
    assert Selects(config) == [sel];
    assert sel == SelectEntry("o", FieldRef(kind, property));
    assert FieldName("o", FieldRef(kind, property)) == "o." + property;
  }

  lemma SingleFieldProjectionsRead(config: Value, property: string)
    requires Visual(config, "projections") == Some(SingleFieldProjections(property))
    ensures Roles(config) == {"Values"}
    ensures RoleRefs(config, "Values") == [Str("o." + property)]
  {
  }

  lemma SingleFieldQueryRead(config: Value, kind: string, property: string)
    requires kind == "Measure" || kind == "Column"
    requires Visual(config, "prototypeQuery") == Some(SingleFieldQueryOf(kind, property))
    requires Visual(config, "projections") == Some(SingleFieldProjections(property))
    ensures SingleFieldQuery(config, kind, property)
  {
    SingleFieldFromsRead(config, kind, property);
    SingleFieldSelectsRead(config, kind, property);
    SingleFieldProjectionsRead(config, property);
    assert "o" + "." + property == "o." + property;
  }

  /** The `singleVisual` record of a card. */
  function CardVisual(measure: string): (v: Value)
    ensures Get(v, "visualType") == Some(Str("card"))
    ensures Get(v, "vcObjects") == Some(MinimalVcObjects())
    ensures Get(v, "prototypeQuery") == Some(SingleFieldQueryOf("Measure", measure))
    ensures Get(v, "projections") == Some(SingleFieldProjections(measure))
  {
    Obj(map[
      "visualType" := Str("card"),
      "projections" := SingleFieldProjections(measure),
      "prototypeQuery" := SingleFieldQueryOf("Measure", measure),
      "objects" := Obj(map["categoryLabels" := HiddenBlock()]),
      "vcObjects" := MinimalVcObjects()])
  }

  /** The config `make_card` serialises. */
  function CardConfig(name: string, x: int, y: int, w: int, h: int, z: int, measure: string): (c: Value)
    ensures Get(c, "name") == Some(Str(name))
    ensures Visual(c, "visualType") == Some(Str("card"))
    ensures Visual(c, "vcObjects") == Some(MinimalVcObjects())
    ensures LayoutRect(c) == Some(Rect(x, y, w, h, z))
    ensures SingleFieldQuery(c, "Measure", measure)
  {
    var c := Obj(map["name" := Str(name), "layouts" := Layouts(x, y, z, w, h), "singleVisual" := CardVisual(measure)]);
    assert Get(c, "name") == Some(Str(name));
    LayoutsPlaced(c, x, y, z, w, h);
    SingleFieldQueryRead(c, "Measure", measure);
    c
  }

  /** `make_card`: a card showing one measure of the status table. */
  function MakeCard(name: string, x: int, y: int, w: int, h: int, z: int, measure: string): (vc: Value)
    ensures LayoutAgrees(vc) && FiltersOf(vc) == Some(Arr([]))
    ensures ConfigOf(vc) == Some(CardConfig(name, x, y, w, h, z, measure))
  {
    MakeVisualContainer(CardConfig(name, x, y, w, h, z, measure), Arr([]), x, y, w, h, z)
  }

  /** The `objects` group of a slicer: a responsive dropdown allowing several selections, header hidden. */
  function SlicerObjects(): (r: Value)
    ensures PropertyOf(Some(r), "data", "mode") == LitStr("Dropdown")
    ensures PropertyOf(Some(r), "selection", "singleSelect") == LitBool(false)
    ensures PropertyOf(Some(r), "general", "responsive") == LitBool(true)
    ensures Get(r, "header") == Some(HiddenBlock())
  {
    Obj(map[
      "general" := Arr([Obj(map["properties" := Obj(map["responsive" := LitBool(true)])])]),
      "data" := Arr([Obj(map["properties" := Obj(map["mode" := LitStr("Dropdown")])])]),
      "selection" := Arr([Obj(map["properties" := Obj(map["singleSelect" := LitBool(false)])])]),
      "header" := HiddenBlock()])
  }

  /** The `vcObjects` group of a slicer: the title shown, reading `title`. */
  function SlicerTitle(title: string): (r: Value)
    ensures PropertyOf(Some(r), "title", "show") == LitBool(true)
    ensures PropertyOf(Some(r), "title", "text") == LitStr(title)
  {
    Obj(map["title" := Arr([Obj(map["properties" := Obj(map["show" := LitBool(true), "text" := LitStr(title)])])])])
  }

  /** The `singleVisual` record of a slicer. */
  function SlicerVisual(column: string, title: string): (v: Value)
    ensures Get(v, "visualType") == Some(Str("slicer"))
    ensures Get(v, "prototypeQuery") == Some(SingleFieldQueryOf("Column", column))
    ensures Get(v, "projections") == Some(SingleFieldProjections(column))
    ensures Get(v, "objects") == Some(SlicerObjects())
    ensures Get(v, "vcObjects") == Some(SlicerTitle(title))
  {
    var v := Obj(map[
      "visualType" := Str("slicer"),
      "projections" := SingleFieldProjections(column),
      "prototypeQuery" := SingleFieldQueryOf("Column", column),
      "objects" := SlicerObjects(),
      "vcObjects" := SlicerTitle(title)]);
    assert Get(v, "visualType") == Some(Str("slicer"));
    v
  }

  /** The config `make_slicer` serialises. */
  function SlicerConfig(name: string, x: int, y: int, w: int, h: int, z: int, column: string, title: string): (c: Value)
    ensures Get(c, "name") == Some(Str(name))
    ensures Visual(c, "visualType") == Some(Str("slicer"))
    ensures LayoutRect(c) == Some(Rect(x, y, w, h, z))
    ensures SingleFieldQuery(c, "Column", column)
    ensures Properties(c, "objects", "data", "mode") == LitStr("Dropdown")
    ensures Properties(c, "vcObjects", "title", "text") == LitStr(title)
    ensures Properties(c, "vcObjects", "title", "show") == LitBool(true)
  {
    var c := Obj(map["name" := Str(name), "layouts" := Layouts(x, y, z, w, h), "singleVisual" := SlicerVisual(column, title)]);
    assert Get(c, "name") == Some(Str(name));
    LayoutsPlaced(c, x, y, z, w, h);
    SingleFieldQueryRead(c, "Column", column);
    c
  }

  /** `make_slicer`: a dropdown slicer over one column of the status table,
      titled `title`. */
  function MakeSlicer(name: string, x: int, y: int, w: int, h: int, z: int, column: string, title: string): (vc: Value)
    ensures LayoutAgrees(vc) && FiltersOf(vc) == Some(Arr([]))
    ensures ConfigOf(vc) == Some(SlicerConfig(name, x, y, w, h, z, column, title))
  {
    MakeVisualContainer(SlicerConfig(name, x, y, w, h, z, column, title), Arr([]), x, y, w, h, z)
  }

  /** A slicer is a dropdown whose title is shown and reads back as the title given. */
  lemma SlicerStyled(name: string, x: int, y: int, w: int, h: int, z: int, column: string, title: string)
    ensures var c := ConfigOf(MakeSlicer(name, x, y, w, h, z, column, title)).value;
      && Decode(Properties(c, "objects", "data", "mode")) == Some(TextToken("Dropdown"))
      && Decode(Properties(c, "vcObjects", "title", "text")) == Some(TextToken(title))
      && Decode(Properties(c, "vcObjects", "title", "show")) == Some(BoolToken(true))
  {
    LitStrDecodes("Dropdown");
    LitStrDecodes(title);
    LitBoolDecodes(true);
  }

  /** The paragraphs a textbox embeds read back, through `json.loads`, as the paragraphs given. */
  lemma TextboxParagraphsRoundTrip(name: string, x: int, y: int, w: int, h: int, z: int, paragraphs: Value, vcObjects: Option<Value>)
    ensures var c := ConfigOf(MakeTextbox(name, x, y, w, h, z, paragraphs, vcObjects)).value;
      && LiteralValue(Properties(c, "objects", "general", "paragraphs")).Some?
      && Loads(LiteralValue(Properties(c, "objects", "general", "paragraphs")).value) == Loaded(paragraphs)
  {
  }
}
