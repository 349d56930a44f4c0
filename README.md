# Power BI report generator: builders and validators

`generate_report.py` writes the `report.json` of a Power BI report with two
pages about the online availability of 26 child-care and nursing-care
procedures. Page 1 (`ReportSection_page1`, 都道府県一覧) is the prefecture
overview: a title, three measure cards, a donut chart and a multi-row card.
Page 2 (`ReportSection_page2`, 市区町村詳細) is the municipality detail: a back
button, two dropdown slicers, the same three cards and a matrix. The page is
filtered to the two subcategories.

The script builds the report in memory from small builders:
- the literal-expression helpers `lit*`, `solid_color`, `position` and the two `vcObjects` presets;
- the visual-container builders `make_visual_container`, `make_textbox`, `make_card` and `make_slicer`;
- the page and report assemblers.

Each container stores its `config` and `filters` as serialised JSON text.
`validate_report` then walks the tree and collects errors. After
serialising and reading the report back, `main` walks the readback with
`validate_embedded`, which raises on any `config` or `filters` text that
does not parse.

The Dafny project models that in-memory core:

- `json.dfy` (module `Json`): JSON values, and the Python operations the script uses on them. These are `json.loads`, `json.dumps`, indexing, `.get`, `in`, truthiness, set membership and iteration.
- `literals.dfy` (module `Literals`): the literal and style helpers, and a decoder for the literal tokens they write. Each literal helper is proved against that decoder, and `position` against the rectangle it reads back as.
- `visuals.dfy` (module `Visuals`): the container builders, and the readings of a container they are proved against. Those readings are:
  - its parsed config;
  - its placement;
  - its query;
  - its projections.
- `report.dfy` (module `Report`): `build_page1`, `build_page2` and `build_report`, and what holds of every visual they place.
- `validator.dfy` (module `Validator`): `validate_report`. The functions say what it reports for any report value of the model, with texts compared as the model represents them (see `Json.HashKey` under "## Left out"). The methods run the source's loops and are proved equal to those functions.
- `validator_lemmas.dfy` (module `ValidatorLemmas`): what those reports mean. It covers:
  - the order in which query checks fail;
  - duplicate names per section;
  - empty names;
  - at most one error per top-level config or filters text.
- `embedded.dfy` (module `Embedded`): `validate_embedded`, and its characterisation by a path to a bad text.
- `pipeline.dfy` (module `Pipeline`): `main` without its I/O. It proves the report `build_report` returns passes both checks and is written.

A serialised sub-document is the value `Doc(Parsed(v))`, and `json.loads` reads it back as `v`. Text that does not parse is `Doc(Unparseable)`.

The model also records one fact about the layout (`Report.PrefCardsCoverDonut`):
- page 1's multi-row card starts at the same corner as the donut chart (40, 190);
- it is 1860 by 870, while the donut is 400 by 400;
- so the card covers the donut completely.

## Model

| member | source | states |
|---|---|---|
| `Json.Loads` | generate_report.py:558 | `json.loads` raises a type error exactly on a non-string, and any value it returns is what the text serialises |
| `Json.Dumps` | generate_report.py:62-63 | what `json.dumps` writes, `json.loads` reads back as the very value |
| `Json.Get` | generate_report.py:558 | `d[key]` succeeds exactly when `d` is a dict holding `key`, and then returns the value stored under `key` |
| `Json.GetOr` | generate_report.py:589 | `d.get(key, default)` is the stored value when the key is present and the default otherwise |
| `Json.HashKey` | generate_report.py:592-594 | a set identifies `True` with `1` and `False` with `0`: a boolean stands for the number 1 or 0, and every other hashable value stands for itself |
| `Json.Contains` | generate_report.py:559-561 | `key in d` tests a dict's keys, a list's elements and a string's substrings; on serialised text it answers false; `in` raises exactly on `None`, booleans and numbers |
| `Json.DictElements` | generate_report.py:606-607 | a loop that needs dicts visits a list's items; it succeeds on nothing else but an empty dict or empty string, which it does not enter |
| `Literals.DigitsRoundTrip` | generate_report.py:36-41 | the decimal digits written for a natural number read back as that number |
| `Literals.DecimalRoundTrip` | generate_report.py:36-41 | the decimal text `f"{n}"` writes for any integer, negative ones included, reads back as `n` |
| `Literals.Lit` | generate_report.py:23-25 | the literal expression holds exactly the value wrapped |
| `Literals.LitStrDecodes` | generate_report.py:28-29 | `lit_str(s)` holds the token `'` + `s` + `'`, with nothing escaped; read with its outer quotes as delimiters it gives back `s` |
| `Literals.LitBoolDecodes` | generate_report.py:32-33 | `lit_bool(b)` holds `true` or `false` and reads back as the boolean `b` |
| `Literals.LitIntDecodes` | generate_report.py:36-37 | `lit_int(n)` is `n` followed by `L` and reads back as the integer `n` |
| `Literals.LitDoubleDecodes` | generate_report.py:40-41 | `lit_double(n)` is `n` followed by `D` and reads back as the number `n` |
| `Literals.SolidColorDecodes` | generate_report.py:44-45 | `solid_color(c)` holds a string literal under `solid.color` that reads back as `c` |
| `Literals.Position` | generate_report.py:52-53 | the position record reads back as the rectangle and depth given, with tab order `tab` |
| `Literals.MinimalVcObjects` | generate_report.py:76-80 | `minimal_vc_objects()` styles the title and nothing else |
| `Literals.HiddenVcObjects` | generate_report.py:83-90 | `hidden_vc_objects()` styles exactly title, background, border and visual header, all with the same block |
| `Literals.HiddenBlockHides` | generate_report.py:79 | the block `[{"properties": {"show": lit_bool(False)}}]` reads back as `show = false` |
| `Literals.VcObjectsHide` | generate_report.py:76-90 | every block of both presets hides what it styles |
| `Visuals.MakeVisualContainer` | generate_report.py:60-69 | the container's `config` and `filters` parse back to the config and filters given, and its own x, y, width, height, z are the ones given |
| `Visuals.LayoutsPlaced` | generate_report.py:107 | a config whose `layouts` is built by the builders places the visual, through `layouts[0].position`, at the rectangle given |
| `Visuals.TextboxVisual` | generate_report.py:108-116 | a textbox has no query, and its `general.paragraphs` literal holds the serialised paragraphs |
| `Visuals.TextboxConfig` | generate_report.py:103-117 | the textbox config carries its name and a layout at its rectangle; `vcObjects` defaults to the hidden preset when none is given |
| `Visuals.MakeTextbox` | generate_report.py:97-118 | the container's placement agrees with its config's layout and it carries an empty filter list |
| `Visuals.TextboxParagraphsRoundTrip` | generate_report.py:112 | the paragraphs a textbox embeds read back through `json.loads` as the paragraphs given |
| `Visuals.CardVisual` | generate_report.py:130-150 | a card reads one measure of the status table and keeps the minimal `vcObjects` preset |
| `Visuals.CardConfig` | generate_report.py:127-151 | the card's query is version 2 with one table source `o` and one `Select` entry, whose `Measure` property is the given measure. That entry's name `o.<measure>` is the one `Values` query reference |
| `Visuals.MakeCard` | generate_report.py:125-152 | the card container's placement agrees with its config's layout; it carries an empty filter list |
| `Visuals.SlicerObjects` | generate_report.py:180-185 | a slicer is a responsive dropdown allowing several selections, header hidden |
| `Visuals.SlicerTitle` | generate_report.py:186-191 | a slicer's title is shown and holds the title text as a string literal |
| `Visuals.SlicerVisual` | generate_report.py:164-192 | a slicer reads one column of the status table, styled as a dropdown under its title |
| `Visuals.SlicerConfig` | generate_report.py:161-193 | the slicer's query is version 2 with one table source `o` and one `Select` entry, whose `Column` property is the given column. That entry's name `o.<column>` is the one `Values` query reference. It is a dropdown whose title text is the title given |
| `Visuals.MakeSlicer` | generate_report.py:159-194 | the slicer container's placement agrees with its config's layout; it carries an empty filter list |
| `Visuals.SlicerStyled` | generate_report.py:180-191 | a slicer's mode reads back as `Dropdown`, its title as the title given, and the title is shown |
| `Visuals.SingleFieldFromsRead` | generate_report.py:137 | a card or slicer query has exactly one source, named `o`, of type 0, over the status table |
| `Visuals.SingleFieldSelectsRead` | generate_report.py:138-144 | a card or slicer query selects exactly one field, of the given kind and property, named `o.<property>` |
| `Visuals.SingleFieldProjectionsRead` | generate_report.py:132-134 | a card or slicer has the one role `Values`, referring to `o.<property>` only |
| `Visuals.SingleFieldQueryRead` | generate_report.py:132-145 | a card or slicer query has the validator's shape, and every projection reference names a `Select` entry |
| `Visuals.SelectEntryRead` | generate_report.py:236-249 | a `Select` entry reads the field it is built for and is named `<alias>.<property>` |
| `Visuals.QueryBuiltRead` | generate_report.py:232-250 | a query over one table source has the validator's shape and names its one source by its alias. Each selected field is named `<alias>.<property>` after the field it reads |
| `Visuals.QueryRefsRead` | generate_report.py:228-231 | a projection role built from a list of names refers to exactly those names, in order |
| `Visuals.RoleSelected` | generate_report.py:228-231 | a role showing only selected fields refers only to names the query gives its `Select` entries |
| `Visuals.ProjectionsRead` | generate_report.py:228-250 | the projections have exactly the roles given, and every query reference in them names a `Select` entry |
| `Visuals.QueryVisual` | generate_report.py:226-265 | an inline visual carries its type, the built query extended by the extra clauses, its projections, its objects and the minimal `vcObjects` preset |
| `Visuals.QueryVisualConfig` | generate_report.py:223-266 | an inline config carries its name, type, query, projections and objects, and a layout at its rectangle |
| `Visuals.QueryVisualBuilt` | generate_report.py:232-260 | extra clauses such as `OrderBy` leave version, source and selection as built and are readable under their own keys |
| `Visuals.QueryVisualRead` | generate_report.py:223-267 | an inline visual over one table has a query of the validator's shape; every projection reference names a `Select` entry |
| `Report.TextboxWellBuilt` | generate_report.py:97-118 | a textbox with a name and a rectangle on the page is well built: placed consistently, named, typed, no query |
| `Report.CardWellBuilt` | generate_report.py:125-152 | a card with a name and a rectangle on the page is well built, its query one the validator accepts |
| `Report.SlicerWellBuilt` | generate_report.py:159-194 | a slicer with a name and a rectangle on the page is well built, its query one the validator accepts |
| `Report.InlineWellBuilt` | generate_report.py:223-267 | an inline visual with a type and roles over selected fields is well built, its query accepted and its projections satisfied |
| `Report.SpecWellBuilt` | generate_report.py:211-321 | every call a page builder makes with sound arguments yields a well-built visual under the name given |
| `Report.RenderedWellBuilt` | generate_report.py:201-321 | a page whose calls have sound arguments and distinct names holds only well-built visuals, in that order |
| `Report.BuildPage1` | generate_report.py:201-333 | page 1 is named `ReportSection_page1`, ordinal 0, 1920 by 1080, unfiltered, with one container per visual in order; `Pipeline.Page1Checked` proves it passes the section checks |
| `Report.DonutRolesSelected` | generate_report.py:228-250 | the donut's categories and values are fields its query selects |
| `Report.Page1SpecsOk` | generate_report.py:204-321 | every visual `build_page1` places has a name, lies on the 1920 by 1080 page, and shows only fields its query selects |
| `Report.Page1NamesDistinct` | generate_report.py:211-321 | the six visuals of page 1 have distinct names |
| `Report.Page1Built` | generate_report.py:201-333 | every visual of page 1 is well built, under a name of its own |
| `Report.PrefCardsCoverDonut` | generate_report.py:225-272 | the multi-row card starts at the donut chart's corner and is larger both ways, so it covers the donut |
| `Report.SubcategoryFilterReads` | generate_report.py:342-372 | the page filter admits exactly the subcategories given, each quoted value reading back as that text, and hides itself in view mode |
| `Report.Page2Filtered` | generate_report.py:363-366 | page 2 admits exactly `ア.子育て関係` and `イ.介護関係` |
| `Report.ButtonObjects` | generate_report.py:381-393 | the back button's action is a page navigation to the destination given, under the caption given |
| `Report.ButtonVisual` | generate_report.py:380-395 | the back button is an action button with no query and every container decoration hidden |
| `Report.ButtonConfig` | generate_report.py:377-396 | the back button config carries its name, a layout at its rectangle, and the navigation objects |
| `Report.ButtonNavigates` | generate_report.py:389-392 | the button's action type reads back as `PageNavigation`, its destination as the page given and its text as the caption |
| `Report.BackButtonTargetsPage1` | generate_report.py:377-397 | page 2's back button navigates to `ReportSection_page1`, the name `build_page1` gives its page |
| `Report.BuildPage2` | generate_report.py:340-487 | page 2 is named `ReportSection_page2`, ordinal 1, 1920 by 1080, its filters text reads back as the subcategory filter, with one container per visual in order; `Pipeline.Page2Checked` proves it passes the section checks |
| `Report.MatrixRolesSelected` | generate_report.py:420-464 | the matrix's rows, columns and values are fields its query selects |
| `Report.Page2SpecsOk` | generate_report.py:377-475 | every visual `build_page2` places has a name, lies on the page, and shows only fields its query selects |
| `Report.Page2NamesDistinct` | generate_report.py:377-475 | the seven visuals of page 2 have distinct names |
| `Report.Page2Built` | generate_report.py:340-487 | every visual of page 2 is well built, under a name of its own |
| `Report.BuildReport` | generate_report.py:494-545 | the report's config text reads back as the report config, it names the custom theme, holds the resource packages and the two pages in order; `Pipeline.BuiltReportChecked` and `Pipeline.BuiltReportEmbedded` prove it passes both checks |
| `Report.ThemesRegistered` | generate_report.py:495-532 | the theme the report names is the config's custom theme and the file registered as a resource; the base theme is the shared resource |
| `Report.Page1Cards` | generate_report.py:213-220 | page 1 shows the rate, completed and total measures on cards, in that order |
| `Report.Page2Cards` | generate_report.py:405-412 | page 2 shows the same three measures on cards, in the same order as page 1 |
| `Validator.PrependAppend` | generate_report.py:554-618 | appending errors in two steps is appending them at once |
| `Validator.CheckQuery` | generate_report.py:602-607 | the query assertions run in order (Version 2, `From`, `Select`, every source of type 0), and the first that fails is the fault reported |
| `Validator.CheckFilters` | generate_report.py:578-582 | a filters text yields an error when it does not parse or is not a list |
| `Validator.CheckConfig` | generate_report.py:588-607 | a parsed visual config yields the name, duplicate, type and query errors in the source's order, and adds its name to the names seen |
| `Validator.CheckVisual` | generate_report.py:587-616 | one visual container yields its config errors, then its filters errors |
| `Validator.CheckVisuals` | generate_report.py:585-616 | the visuals of a section are checked front to back against names seen in that section only, the set starting empty |
| `Validator.CheckSection` | generate_report.py:570-616 | a section yields its config, filters and visual errors, in that order |
| `Validator.CheckSections` | generate_report.py:570-616 | the sections are checked front to back and their errors concatenated |
| `Validator.CheckTopConfig` | generate_report.py:557-563 | the top-level config yields one error: when it does not parse, or for the first of `version`, `themeCollection`, `customTheme` it lacks |
| `Validator.ValidateReport` | generate_report.py:552-618 | the report's errors: the top-level config's, then a missing theme's, then each section's, or an exception the check does not catch |
| `ValidatorLemmas.FromCheckMeaning` | generate_report.py:606-607 | the source loop passes exactly when every source is a dict of type 0, and reports a wrong type exactly when the first source that is not is a dict |
| `ValidatorLemmas.QueryCheckPasses` | generate_report.py:602-607 | a non-empty query passes exactly when it is a dict with version 2, `From` and `Select`, and `From` lists accepted sources |
| `ValidatorLemmas.QueryFaultOrder` | generate_report.py:603-607 | each query fault is reported exactly when every assertion before it held and its own failed; a wrong source type exactly when `From` is iterable and its first source not of type 0 is a dict |
| `ValidatorLemmas.ConfigTypeAndQuery` | generate_report.py:596-607 | a missing-type error comes exactly when `visualType` counts as false; an absent or empty `prototypeQuery` gives no query error; otherwise the query error is exactly the first failing assertion, and a query the assertions cannot read raises |
| `ValidatorLemmas.AtMostOneQueryIssue` | generate_report.py:601-610 | a visual contributes at most one query error |
| `ValidatorLemmas.UnparseableConfigSkipsChecks` | generate_report.py:587-616 | a visual config that does not parse yields exactly one error for the config, adds no name, and only the filters check follows |
| `ValidatorLemmas.VisualSeen` | generate_report.py:594 | a visual whose config parses to a dict adds its name to the names seen, and no other visual adds anything |
| `ValidatorLemmas.VisualNameIssues` | generate_report.py:589-594 | a visual gets a duplicate-name error exactly when its name was seen before, and a missing-name error exactly when its name counts as false |
| `ValidatorLemmas.VisualIssuesOfSection` | generate_report.py:587-616 | every error a visual yields belongs to its own section |
| `ValidatorLemmas.VisualsFromNames` | generate_report.py:585-594 | in a section, visual `v` gets a duplicate-name error exactly when an earlier visual of that section carries an equal name |
| `ValidatorLemmas.SectionNames` | generate_report.py:584-594 | the names are checked per section: a section's name errors depend on its own visuals only |
| `ValidatorLemmas.SectionsFromNames` | generate_report.py:570-594 | over all sections, a duplicate-name error for visual `v` of section `s` occurs exactly when an earlier visual of `s` itself carries that name |
| `ValidatorLemmas.TopConfigAtMostOne` | generate_report.py:557-563 | the top-level config contributes at most one error, and none exactly when it holds `version` and a theme collection with `customTheme` |
| `ValidatorLemmas.ReportNames` | generate_report.py:565-594 | the same name on two pages is no error, and the theme error occurs exactly when `theme` is absent |
| `ValidatorLemmas.NamesBeforeHolds` | generate_report.py:594 | every name of an earlier visual of a section is in the set of names seen |
| `ValidatorLemmas.NamesBeforeMeaning` | generate_report.py:586-594 | the set of names seen before a visual holds exactly the names of the earlier visuals of its section whose config parses |
| `ValidatorLemmas.EmptyNameTwice` | generate_report.py:589-594 | an empty name is reported missing and still added to the set, so a second empty name is reported missing and duplicate |
| `ValidatorLemmas.FiltersAtMostOne` | generate_report.py:578-582 | a filters text yields no error exactly when it parses to a list, at most one otherwise; a non-text raises |
| `ValidatorLemmas.MissingSectionsRaises` | generate_report.py:570 | every report without `sections` raises, whatever errors were collected before |
| `Embedded.ValidateEmbedded` | generate_report.py:645-657 | anything but a dict or list passes without being entered, and a dict holding an unparseable text under `config` or `filters` fails; `Embedded.ValidateEmbeddedMeaning` gives the full characterisation |
| `Embedded.NoBlobInsideText` | generate_report.py:646-657 | the walk never enters a string |
| `Embedded.BadBlobFails` | generate_report.py:645-657 | any path to a `config` or `filters` text that does not parse makes the walk raise |
| `Embedded.FailureHasBadBlob` | generate_report.py:645-657 | a walk that raises has a path to a `config` or `filters` text that does not parse |
| `Embedded.ValidateEmbeddedMeaning` | generate_report.py:645-657 | `validate_embedded` raises exactly when some `config` or `filters` text reachable without entering a string does not parse |
| `Pipeline.TableSourcesAccepted` | generate_report.py:606-607 | sources that all have type 0 pass the source loop |
| `Pipeline.QueryPasses` | generate_report.py:602-607 | a query shaped as the builders shape it passes all four assertions |
| `Pipeline.WellBuiltChecked` | generate_report.py:587-616 | a well-built visual with a fresh name yields no error and adds exactly its name |
| `Pipeline.PageVisualsChecked` | generate_report.py:585-616 | well-built visuals under distinct names yield no error |
| `Pipeline.PageChecked` | generate_report.py:570-616 | a page dict whose filters are a list and whose visuals are well built under distinct names passes the section checks |
| `Pipeline.SectionsChecked` | generate_report.py:570-616 | sections that each pass on their own pass together |
| `Pipeline.ReportChecked` | generate_report.py:552-618 | a report with a version, a custom theme, a theme and two passing pages has no errors |
| `Pipeline.ConfigHoldsTheme` | generate_report.py:495-501 | the report config holds `version` and a theme collection with `customTheme` |
| `Pipeline.Page1Checked` | generate_report.py:201-333 | page 1 passes the section checks |
| `Pipeline.Page2Checked` | generate_report.py:340-487 | page 2 passes the section checks |
| `Pipeline.BuiltReportChecked` | generate_report.py:494-545 | `validate_report(build_report())` returns no errors |
| `Pipeline.ContainerEmbedded` | generate_report.py:60-69 | a container's `config` and `filters` texts parse, so the walk passes it |
| `Pipeline.RenderEmbedded` | generate_report.py:97-194 | every container a page builder makes passes the walk |
| `Pipeline.PageEmbedded` | generate_report.py:323-333 | a page dict with built containers passes the walk |
| `Pipeline.PackageEmbedded` | generate_report.py:515-532 | a resource package holds no `config` or `filters` key at any depth |
| `Pipeline.PackagesEmbedded` | generate_report.py:515-532 | both resource packages pass the walk |
| `Pipeline.PagesEmbedded` | generate_report.py:201-487 | both pages pass the walk |
| `Pipeline.ReportEmbedded` | generate_report.py:534-543 | a report whose packages and pages pass the walk passes it |
| `Pipeline.BuiltReportEmbedded` | generate_report.py:494-545 | `validate_embedded` passes on the report `build_report` returns |
| `Pipeline.Run` | generate_report.py:625-659 | on any report, `main` writes the report when it validates clean and passes the walk. It exits after printing the errors when there are any, and otherwise fails with the exception raised. The text written reads back as the report |
| `Pipeline.Generate` | generate_report.py:625-664 | `main` writes the report `build_report` returns, and the text written reads back as that report |

## Left out

- `main`'s I/O is not modelled: the output path, `os.makedirs`, the file write, the printed summary and `sys.exit`. `Pipeline.Run` returns how the run ends instead.
- The summary line that prints `'theme' not in report` is cosmetic output and is not modelled.
- `json.dumps`/`json.loads` text encoding is not modelled: escaping, `ensure_ascii` and `indent=2`. A serialised sub-document is kept as the value it encodes, and serialise-then-parse is lossless by construction.
- Json.Loads: a `Str` (display text, a name, a literal token) is never parsed. `json.loads` of such a value is modelled as a decode error, although real text like `"1"` would parse. The script only ever calls `json.loads` on texts `json.dumps` wrote.
- Json.HashKey: a name that is itself serialised text is compared by the value it parses to, not by its characters, so it never equals the same characters held as a plain `Str`, and all texts that do not parse count as one value. Python compares both as strings.
- Json.Contains: `key in s` where `s` is serialised JSON text answers false, and a list element that is serialised text never equals the key. The characters of serialised text are not modelled.
- Validator.ValidateReport: the error messages are abstracted to an `Issue` datatype. A section is identified by its position, not by its `displayName`, and an assertion's text is not kept.
- Validator.ValidateReport: the uncaught `KeyError`, `TypeError` and `AttributeError` on malformed input are one outcome, `Raised`.
- Embedded.ValidateEmbedded: the path in the raised `ValueError` is not kept. `Embedded.BadBlobAt` gives a path to a bad text instead.
- Literals.LitStrDecodes: how a consumer reads a string literal whose text holds a `'` is assumed, not known: `lit_str` escapes nothing, and the decoder takes the outer quotes as the only delimiters.
- Visuals.MakeVisualContainer: the container's `float()` coordinates are integers. Every coordinate the script passes is an integer.
- Report.PageOf: a page's `1080.0` and `1920.0` are integers too.
- Literals.LitDouble: only integer arguments are modelled. The script never calls `lit_double`.
- Python dicts keep insertion order; the model's dicts are maps. Order does not matter to any check, and Python compares dicts without regard to it.
- The inline configs of the donut chart, the multi-row card and the matrix are built by one parameterised builder, `Visuals.QueryVisualConfig`. It is given the source's fields, roles, extra clauses and style objects. The same holds for the back button and `Report.ButtonConfig`.
- What the style blocks mean to Power BI's renderer is not modelled. The model checks that they are built as written and that the literals read back.
- `Report.Page1Cards`, `Report.Page2Cards`, `Report.PrefCardsCoverDonut`, `Report.ThemesRegistered` and `Pipeline.ConfigHoldsTheme` state facts of the fixed data. Dafny checks each by evaluation.
