# mpld3 scene graph, modelled in Dafny

mpld3 turns a matplotlib figure into a page that draws the figure with d3.js
and lets the viewer pan and zoom. Its builder, `mpld3/_objects.py`, wraps the
figure in a tree of D3 objects. A `D3Figure` owns one `D3Axes` per matplotlib
axes. Each `D3Axes` owns its `D3Line2D` lines, its `D3Text` texts (the explicit
texts, then the x label, the y label and the title) and exactly one `D3Grid`.
Every object emits three kinds of output: a style-sheet fragment (`style`), a
drawing fragment (`html`) and a fragment of the zoom handler (`zoom`). Ids are
found by walking up the parent chain. An axes id is the figure id followed by
the axes' 1-based index. A line id is the axes id followed by the line's 1-based
index.

The model has six modules:

- `Base` (base.dfy): the `figid`/`axid` lookup of `D3Base` over a parent chain,
  plus the `Result` type that carries the exceptions the builder can raise.
- `Ids` (ids.dfy): decimal rendering of indices and the id scheme, with
  injectivity proved through a parse-back round trip.
- `Plot` (plot.dfy): the matplotlib objects reduced to records of the values
  the builder reads.
- `Instr` (instr.dfy): the instruction tokens of the output. Each template
  is one `Instr` token carrying its parameters. A template with holes
  (`{styles}`, `{axes}`, `{elements}`, `{element_zooms}`) becomes the
  tokens before, between and after its holes. It also defines a
  `Phase` per token and the predicate saying a token sequence is sorted by
  phase.
- `Objects` (objects.dfy): the classes `Figure`, `Axes`, `Grid`, `Line2D` and
  `Text`, with their constructors and output functions.
  - The `ret +=` accumulations of `D3Grid` and `D3Line2D` are methods proved
    equal to the functions that specify them.
  - The warning loop of `D3Axes.__init__` is a method proved equal to
    `Warnings`.
- `Properties` (properties.dfy): the lemmas about ids, composition,
  warnings, and the order of the three kinds of output.

A fragment that Python builds by joining strings is modelled as the
concatenation of the token sequences.

## Model

| member | source | states |
|---|---|---|
| Base.Lookup | mpld3/_objects.py:20-36 | a failed lookup is always the AttributeError that names the attribute asked for |
| Base.LookupFindsNearest | mpld3/_objects.py:20-36 | the value found is the own field of the nearest object on the parent chain that has one |
| Base.LookupFails | mpld3/_objects.py:20-36 | when no object on the chain has the field, the lookup raises AttributeError |
| Base.LookupSound | mpld3/_objects.py:20-36 | a successful lookup returns a value that some object on the chain holds |
| Ids.DecimalString | mpld3/_objects.py:223 | `str(i)` is a non-empty string of digits without a leading zero |
| Ids.ParseDecimalString | mpld3/_objects.py:223 | reading the digits of `str(i)` back gives `i` |
| Ids.DecimalStringInjective | mpld3/_objects.py:223 | different indices render as different strings |
| Ids.IndexedId | mpld3/_objects.py:223 | an indexed id keeps its prefix and continues with digits only |
| Ids.IndexedIdInjective | mpld3/_objects.py:223-225 | one prefix with two different indices gives two different ids |
| Ids.IndexedIdSeparatesPrefixes | mpld3/_objects.py:87-88 | ids built on two different prefixes of equal length (such as two figure ids) never coincide |
| Ids.LineIdsCollideAcrossAxes | mpld3/_objects.py:414 | line 11 of axes 1 and line 1 of axes 11 of one figure get the same id |
| Objects.IsNoStyle | mpld3/_objects.py:416-421 | true exactly for `''`, `' '`, `'None'`, `'none'` and None |
| Objects.Line2D.HasLine | mpld3/_objects.py:416-418 | true exactly when the line style is not one of the five no-style values |
| Objects.Line2D.HasPoints | mpld3/_objects.py:420-421 | true exactly when the marker is not one of the five no-style values |
| Properties.AbsenceRuleExamples | mpld3/_objects.py:416-421 | the five values disable drawing; `'NONE'`, `'-'` and `'o'` do not, so the test is case-sensitive |
| Properties.SameAbsenceRule | mpld3/_objects.py:416-421 | `has_points` applies to the marker exactly the rule `has_line` applies to the line style |
| Properties.SolidLineScenario | mpld3/_objects.py:416-431 | a solid line without a marker draws its data and a stroke, and on zoom updates only the stroke |
| Objects.KindRank | mpld3/_objects.py:231-232 | each unsupported kind has a fixed position in the inspection order images, collections, containers, artists, patches, tables |
| Objects.Diagnose | mpld3/_objects.py:230-238 | the warning loop returns exactly `Warnings(ax)` |
| Properties.KindWarningsMembers | mpld3/_objects.py:231-235 | a kind is warned about iff it is inspected and the axes has content of that kind; no legend warning comes from this loop |
| Properties.KindWarningsOrdered | mpld3/_objects.py:231-235 | the kind warnings follow the inspection order |
| Properties.WarningsCharacterised | mpld3/_objects.py:230-238 | one warning per kind that has content, in inspection order, then a legend warning iff there is a legend |
| Properties.WarningsMembers | mpld3/_objects.py:230-238 | a kind is warned about iff the axes has content of that kind; the legend is warned about iff there is one |
| Properties.WarningsOrdered | mpld3/_objects.py:230-238 | every warning but the last is a kind warning, and the kind warnings follow the inspection order |
| Properties.OneImageScenario | mpld3/_objects.py:231-235 | an axes whose only unsupported content is one image gets exactly one warning, naming images |
| Objects.KindWarnings | mpld3/_objects.py:231-235 | at most one warning per inspected kind, and all of them are "not implemented" warnings |
| Objects.Warnings | mpld3/_objects.py:230-238 | at most seven warnings; the last is the legend warning iff the axes has a legend; all before it are kind warnings |
| Objects.AxesDiagnosticsWarnings | mpld3/_objects.py:95-96 | axes built one by one from a list of matplotlib axes report the warnings of those axes, in list order |
| Objects.Figure.Diagnostics | mpld3/_objects.py:95-96 | the warnings of a built figure are those of its matplotlib axes, axes by axes in figure order |
| Objects.AllWarnings | mpld3/_objects.py:95-96 | the warnings of a list of axes, gathered in axes order: at most seven per axes |
| Properties.AllWarningsMembers | mpld3/_objects.py:95-96 | a warning is among those for a list of axes iff one of the axes calls for it |
| Properties.FigureDiagnostics | mpld3/_objects.py:95-96 | a built figure reports the warnings of its matplotlib axes in figure order, and a warning is reported iff one of its axes calls for it |
| Objects.TextSources | mpld3/_objects.py:226-227 | an axes has three more text sources than explicit texts |
| Objects.Figure.constructor | mpld3/_objects.py:90-96 | axes i is built with this figure as parent, the i-th matplotlib axes, and id figid followed by i+1 |
| Objects.Figure.Style | mpld3/_objects.py:98-100 | the style block fails iff the axes style sheets fail, only with the IndexError of a grid style; otherwise it is the style element around exactly those style sheets |
| Objects.Figure.Html | mpld3/_objects.py:102-109 | the page fails iff its style block fails, only with an IndexError; otherwise it is the d3 import, exactly the style block, the figure element with the figure's id, width, height and dpi, exactly the axes scripts, then the mounting call |
| Objects.Page | mpld3/_objects.py:104-109 | the page puts each of its parts at its own position: the import, the style block, the figure element, the scripts and the mounting call |
| Objects.AxesHtml | mpld3/_objects.py:103 | the axes scripts hold at least five instructions per axes (set-up, handler start, two axis redraws, handler end) |
| Properties.AxesHtmlAppend | mpld3/_objects.py:103 | the scripts of a concatenation of axes are those of the first part, then those of the second |
| Properties.AxesHtmlSlice | mpld3/_objects.py:103 | the script of axes i sits between the scripts of the axes before and after it |
| Properties.AxesStylesAppend | mpld3/_objects.py:98-100 | the style sheets of a concatenation of axes exist iff both parts' do, and are then the first part's followed by the second's |
| Properties.AxesStylesOk | mpld3/_objects.py:98-100 | the axes style sheets exist iff every axes' style sheet does |
| Properties.AxesStylesSlice | mpld3/_objects.py:98-100 | the rules of axes i sit between the rules of the axes before and after it |
| Properties.FigureStyleContents | mpld3/_objects.py:95-100 | the figure's style block is the style element around the rules of its axes in figure order; axes i is the i-th matplotlib axes with id figid followed by i + 1 |
| Properties.FigurePage | mpld3/_objects.py:102-109 | a successful page is the d3 import, the style block, the figure element with the figure's id, width, height and dpi, the axes scripts, then the mounting call |
| Properties.FigureHtmlContents | mpld3/_objects.py:102-109 | the page is the import, the style block, the figure element, then the scripts of the axes in figure order, then the mounting call |
| Objects.AxesStyles | mpld3/_objects.py:98-100 | the axes style sheets together can fail only with an IndexError |
| Objects.Figure.FigId | mpld3/_objects.py:20-27 | the figure's own id is what the lookup finds |
| Objects.Figure.AxId | mpld3/_objects.py:29-36 | a figure has no axes id and no parent, so asking for one raises |
| Objects.Axes.constructor | mpld3/_objects.py:221-238 | the axes id is the figure id followed by i; line k gets id axid followed by k+1; texts and grid as listed; the warnings are `Warnings(ax)` |
| Objects.Axes.FigId | mpld3/_objects.py:20-27 | an axes finds its figure id through its parent |
| Objects.Axes.AxId | mpld3/_objects.py:29-32 | an axes finds its own axes id |
| Objects.Axes.Style | mpld3/_objects.py:240-251 | an axes style sheet starts with the axes rule for its figure id, axes id and font size; it can fail only with an IndexError |
| Objects.Axes.Html | mpld3/_objects.py:253-266 | an axes script starts with the set-up of its scales, zoom, axes and background, contains the handler start and both axis redraws, and ends with the handler end |
| Objects.StyleAll | mpld3/_objects.py:246-251 | the style of a list of elements can fail only with an IndexError |
| Objects.Axes.FontSize | mpld3/_objects.py:241-245 | the size of the first x tick label, else of the first y tick label, else 11 |
| Objects.Grid.constructor | mpld3/_objects.py:317-318 | the grid keeps its parent axes and the matplotlib axes |
| Objects.Grid.FigId | mpld3/_objects.py:20-27 | a grid finds its figure id two levels up |
| Objects.Grid.AxId | mpld3/_objects.py:29-36 | a grid finds the id of its axes |
| Objects.Grid.Draw | mpld3/_objects.py:331-340 | the x grid is drawn iff the x major grid is on, the y grid iff the y major grid is on, x before y; nothing else is drawn |
| Objects.Grid.Html | mpld3/_objects.py:331-340 | the accumulating method produces exactly `Draw()` |
| Objects.Grid.Update | mpld3/_objects.py:320-329 | the zoom update has the same two independent parts under the same flags, x before y |
| Objects.Grid.Zoom | mpld3/_objects.py:320-329 | the accumulating method produces exactly `Update()` |
| Objects.Grid.Style | mpld3/_objects.py:342-351 | an IndexError iff neither axis has a grid line; otherwise one rule sampled from the first x grid line, or from the first y grid line when x has none |
| Objects.Line2D.constructor | mpld3/_objects.py:412-414 | the line id is the id of the parent axes followed by i |
| Objects.Line2D.FigId | mpld3/_objects.py:20-27 | a line finds its figure id two levels up |
| Objects.Line2D.AxId | mpld3/_objects.py:29-36 | a line finds the id of its axes |
| Objects.Line2D.Alpha | mpld3/_objects.py:434-436 | the line's alpha, 1 when it has none |
| Objects.Line2D.Draw | mpld3/_objects.py:456-479 | the data declaration first; marker glyphs of size 10 times the marker size iff `has_points`; the stroke iff `has_line`; glyphs before the stroke |
| Objects.Line2D.Html | mpld3/_objects.py:456-479 | the accumulating method produces exactly `Draw()` |
| Objects.Line2D.Update | mpld3/_objects.py:423-431 | the points update iff `has_points`, the path update iff `has_line`, points first, nothing else |
| Objects.Line2D.Zoom | mpld3/_objects.py:423-431 | the accumulating method produces exactly `Update()` |
| Objects.Line2D.Style | mpld3/_objects.py:433-454 | one rule, scoped to the figure id and the line id, with the line's colour, width and dash array, the marker edge width, edge colour and face colour, and the defaulted alpha |
| Objects.Line2D.MarkerSize | mpld3/_objects.py:467 | the glyph size is ten times the matplotlib marker size |
| Objects.Text.constructor | mpld3/_objects.py:495-496 | the text keeps its parent, axes and matplotlib text |
| Objects.Text.Html | mpld3/_objects.py:498-520 | nothing iff the string is empty; otherwise one text instruction, shifted right by the font size iff it is the y label, rotation negated, anchor "middle" |
| Properties.AxesIdsDistinct | mpld3/_objects.py:95-96 | the axes of one figure have pairwise distinct ids |
| Properties.LineIdsDistinct | mpld3/_objects.py:224-225 | the lines of one axes have pairwise distinct ids |
| Properties.IdsFollowParents | mpld3/_objects.py:223-225 | every grid and line finds its own figure's and axes' ids; line k of axes i (both counted from 0) has id figid, then i + 1, then k + 1 |
| Properties.AxesComposition | mpld3/_objects.py:224-228 | one line per matplotlib line; the explicit texts, then x label, y label, title; exactly one grid |
| Objects.DrawAll | mpld3/_objects.py:254-255 | no contract of its own: it is the drawing of each element in turn; `Properties.DrawAllAppend` and `Properties.DrawAllInPhase` state its properties |
| Objects.ZoomAll | mpld3/_objects.py:256-257 | no contract of its own: it is the zoom update of each element in turn; `Properties.ZoomAllAppend` and `Properties.ZoomAllInPhase` state its properties |
| Properties.DrawAllAppend | mpld3/_objects.py:254-255 | drawing a concatenation of elements draws the first part, then the second |
| Properties.ZoomAllAppend | mpld3/_objects.py:256-257 | updating a concatenation of elements updates the first part, then the second |
| Properties.DrawAllInPhase | mpld3/_objects.py:254-255 | when every element draws only instructions of one phase, so does the whole list |
| Properties.ZoomAllInPhase | mpld3/_objects.py:256-257 | when every element updates only with instructions of one phase, so does the whole list |
| Properties.StyleAllAppend | mpld3/_objects.py:246-251 | the style of a concatenation fails with the first failure; otherwise the rules concatenate |
| Properties.TextsDoNotZoom | mpld3/_objects.py:45-46 | texts keep the empty zoom of `D3Base` |
| Properties.TextsHaveNoStyle | mpld3/_objects.py:42-43 | texts keep the empty style of `D3Base` and cannot make a style fail |
| Properties.LineRulesIndexed | mpld3/_objects.py:250 | rule k of the line rules is the rule of line k |
| Properties.LinesStyle | mpld3/_objects.py:250 | the lines' style never fails and gives their rules in line order |
| Properties.AxesHtmlSections | mpld3/_objects.py:253-266 | the axes script is the set-up, grid, line and text drawing, then the handler with both axis redraws, the grid update and the line updates |
| Properties.AxesHtmlOrdered | mpld3/_objects.py:253-266 | the axes script is sorted by phase: all grid drawing before all line drawing before all text drawing, and both axes redrawn before any grid or line update |
| Properties.ElementsStyle | mpld3/_objects.py:246-251 | the styles of one grid, lines and texts fail iff the grid style fails; otherwise the grid rule, then the line rules |
| Properties.AxesStyleRules | mpld3/_objects.py:240-251 | the axes style fails iff the grid style fails; otherwise it is the axes rule, the grid rule, then the line rules in line order |
| Properties.AxesStyleSections | mpld3/_objects.py:240-251 | the axes style fails iff neither axis has a grid line; otherwise it is sorted by phase |
| Properties.AxesStylesFail | mpld3/_objects.py:98-100 | the figure's style fails iff some axes has no grid line on either axis |
| Properties.FigureHtmlFails | mpld3/_objects.py:102-109 | the page fails iff the style fails; otherwise it starts with the d3 import and ends by mounting the figure |

## Left out

- The text of the HTML, JavaScript and CSS templates. Each template is one `Instr` token carrying its parameters. A template with holes (`{styles}`, `{axes}`, `{elements}`, `{element_zooms}`) becomes the tokens before, between and after its holes. The whitespace and the `'\n'` separators of the joins are not kept, so joining is plain concatenation.
- The d3.js runtime: scales, the zoom behaviour and the axis redraws run in the browser. The model records only which instructions are emitted and in what order.
- `generate_figid` (uuid4): the figure id is a constructor parameter.
- The `_utils` helpers `color_to_hex`, `get_dasharray` and `get_d3_shape_for_marker` are kept as symbolic `Conv` terms over their inputs. `get_text_coordinates` is read as two fields of the text record.
- The matplotlib object model: axes, lines, texts, tick labels and grid lines are records of the values the builder reads (`Plot`). Floating-point values are reals and are only carried, offset (`x + fontsize`), negated (rotation) or scaled (`10 *` marker size).
- `warnings.warn`: each axes keeps its warnings as a list, and the figure gathers them in axes order. Python's default warning filter shows a repeated identical warning only once per call site; the model lists one per axes and does not deduplicate.
- `Objects.Text.Html`: the identity test `self.text is self.ax.yaxis.label` is replaced by a `Role` that records which slot of the text list the text came from. A matplotlib text that appears both as an explicit text and as the y label is therefore not offset in its explicit slot.
- The `get_transform() is transData` branch of `D3Text.html` does nothing, so the model does not have it.
- Some values are computed or passed but never used by their template, so no token carries them: the `id=id(self.ax)` argument of the axes template, the `bbox` argument of the grid templates, the `alpha` computed in `D3Line2D.html` and the `markersize` passed to the line style.
- `Objects.Line2D.constructor`: takes a natural-number index. The source's default `i=''` (a line id equal to its axes id) is never used by the builder.
- `Base.Lookup`: a `Node` value cannot be its own ancestor, so the `parent is not self` guard and cyclic parent chains are not modelled. The figure, which has no parent, is the only object where the lookup can fail.
- `__str__`, the abstract `html` of `D3Base` and `_initialize`'s `setattr` loop are not modelled. The constructors assign the same fields directly.
- The no-style test is case-sensitive: `'NONE'` still draws.
- Nothing rejects a degenerate axis domain; the scale and zoom arithmetic is not in `_objects.py`.
- Warnings carry only their kind, not the axes id.
- Line ids are not unique across a figure: line 11 of axes 1 and line 1 of axes 11 both get the figure id followed by "111" (`Ids.LineIdsCollideAcrossAxes`). The model keeps the ids the code builds. Uniqueness is proved only within one axes (`Properties.LineIdsDistinct`).
