/**
 * The D3 scene graph of mpld3: a Figure owns its Axes, an Axes owns its
 * lines, texts and one grid. Every object keeps a reference to its parent;
 * ids and the matplotlib records are fixed at construction, the child lists
 * are filled in by the constructors.
 */
module Objects {
  import opened Base
  import opened Ids
  import opened Plot
  import opened Instr

  const AxesBackground: string := "#FCFCFC"
  const DefaultFontSize: real := 11.0
  const TextAnchor: string := "middle"

  /** The line-style and marker values that mean "nothing to draw". */
  const NoStyleTokens: seq<Option<string>> := [Some(""), Some(" "), Some("None"), Some("none"), None]

  function IsNoStyle(s: Option<string>): (b: bool)
    ensures b <==> s == None || s == Some("") || s == Some(" ") || s == Some("None") || s == Some("none")
  {
    s in NoStyleTokens
  }

  /** Which slot of `ax.texts + [xlabel, ylabel, title]` a text came from. */
  datatype Role = Explicit | XLabel | YLabel | Title

  /** One warning of the constructor of D3Axes. */
  datatype Diagnostic = NotImplemented(kind: Kind) | LegendIgnored

  // ---------------------------------------------------------------------
  // Unsupported content

  /** The attributes D3Axes inspects, in the order it inspects them. */
  const UnsupportedKinds: seq<Kind> := [Images, Collections, Containers, Artists, Patches, Tables]

  function KindRank(k: Kind): (r: nat)
    ensures r < |UnsupportedKinds| && UnsupportedKinds[r] == k
  {
    match k
    case Images => 0
    case Collections => 1
    case Containers => 2
    case Artists => 3
    case Patches => 4
    case Tables => 5
  }

  /** One NotImplemented warning per kind of `ks` that the axes has content of. */
  function KindWarnings(ax: AxesRec, ks: seq<Kind>): (r: seq<Diagnostic>)
    ensures |r| <= |ks|
    ensures forall i :: 0 <= i < |r| ==> r[i].NotImplemented?
    decreases |ks|
  {
    if ks == [] then []
    else
      var k := ks[|ks| - 1];
      KindWarnings(ax, ks[..|ks| - 1]) + (if ax.Count(k) > 0 then [NotImplemented(k)] else [])
  }

  /** The warnings the constructor of D3Axes issues for one matplotlib axes. */
  function Warnings(ax: AxesRec): (r: seq<Diagnostic>)
    ensures |r| <= |UnsupportedKinds| + 1
    ensures ax.hasLegend <==> r != [] && r[|r| - 1] == LegendIgnored
    ensures forall i :: 0 <= i < |r| - 1 ==> r[i].NotImplemented?
  {
    KindWarnings(ax, UnsupportedKinds) + (if ax.hasLegend then [LegendIgnored] else [])
  }

  method Diagnose(ax: AxesRec) returns (ws: seq<Diagnostic>)
    ensures ws == Warnings(ax)
  {
    ws := [];
    for i := 0 to |UnsupportedKinds|
      invariant ws == KindWarnings(ax, UnsupportedKinds[..i])
    {
      var k := UnsupportedKinds[i];
      assert UnsupportedKinds[..i + 1][..i] == UnsupportedKinds[..i];
      if ax.Count(k) > 0 {
        ws := ws + [NotImplemented(k)];
      }
    }
    assert UnsupportedKinds[..|UnsupportedKinds|] == UnsupportedKinds;
    if ax.hasLegend {
      ws := ws + [LegendIgnored];
    }
  }

  /** The warnings for the axes of a figure, axes by axes, in figure order. */
  function AllWarnings(axs: seq<AxesRec>): (r: seq<Diagnostic>)
    ensures |r| <= (|UnsupportedKinds| + 1) * |axs|
  {
    if axs == [] then [] else Warnings(axs[0]) + AllWarnings(axs[1..])
  }

  // ---------------------------------------------------------------------
  // Texts of an axes

  /** `ax.texts + [ax.xaxis.label, ax.yaxis.label, ax.title]`, each with its role. */
  function TextSources(ax: AxesRec): (r: seq<(TextRec, Role)>)
    ensures |r| == |ax.texts| + 3
  {
    seq(|ax.texts|, k requires 0 <= k < |ax.texts| => (ax.texts[k], Explicit))
    + [(ax.xlabel, XLabel), (ax.ylabel, YLabel), (ax.title, Title)]
  }

  // ---------------------------------------------------------------------
  // The scene graph

  class Figure {
    const fig: FigureRec
    const figid: string
    var axes: seq<Axes>

    ghost predicate Valid()
      reads this, axes
    {
      && |axes| == |fig.axes|
      && forall i :: 0 <= i < |axes| ==>
           && axes[i].parent == this
           && axes[i].ax == fig.axes[i]
           && axes[i].axid == IndexedId(figid, i + 1)
           && axes[i].diagnostics == Warnings(fig.axes[i])
           && axes[i].Valid()
    }

    /** D3Figure(fig), with the generated figure id passed in. */
    constructor (fig: FigureRec, figid: string)
      ensures this.fig == fig && this.figid == figid
      ensures Valid()
      ensures forall i :: 0 <= i < |axes| ==> fresh(axes[i])
    {
      this.fig := fig;
      this.figid := figid;
      new;
      var made: seq<Axes> := [];
      var i := 0;
      while i < |fig.axes|
        invariant 0 <= i <= |fig.axes| && |made| == i
        invariant forall k :: 0 <= k < i ==>
                    && made[k].parent == this
                    && made[k].ax == fig.axes[k]
                    && made[k].axid == IndexedId(figid, k + 1)
                    && made[k].diagnostics == Warnings(fig.axes[k])
                    && made[k].Valid()
                    && fresh(made[k])
      {
        var a := new Axes(this, fig.axes[i], i + 1);
        made := made + [a];
        i := i + 1;
      }
      axes := made;
    }

    function AsNode(): Node {
      Node(Some(figid), None, None)
    }

    function FigId(): (r: string)
      ensures Lookup(AsNode(), FigIdAttr) == Ok(r)
    {
      figid
    }

    /** A figure has no axes id and no parent: asking for one raises. */
    function AxId(): (r: Result<string>)
      ensures r == Lookup(AsNode(), AxIdAttr)
      ensures r.Err?
    {
      Err(NoAttribute("axid"))
    }

    /** The style block: the style sheets of all axes, in order. */
    function Style(): (r: Result<seq<Instr>>)
      reads this, axes
      ensures r.Err? <==> AxesStyles(axes).Err?
      ensures r.Err? ==> r.error.IndexError?
      ensures r.Ok? ==> |r.value| >= 2 && r.value[0] == StyleOpen && r.value[|r.value| - 1] == StyleClose
      ensures r.Ok? ==> r.value[1..|r.value| - 1] == AxesStyles(axes).value
    {
      var rules :- AxesStyles(axes);
      assert ([StyleOpen] + rules + [StyleClose])[1..|rules| + 1] == rules;
      Ok([StyleOpen] + rules + [StyleClose])
    }

    /** The page: the d3 import, the style block, then the figure script around the axes scripts. */
    function Html(): (r: Result<seq<Instr>>)
      reads this, axes
      ensures r.Err? <==> Style().Err?
      ensures r.Err? ==> r.error.IndexError?
      ensures r.Ok? ==> |r.value| >= 4 && r.value[0] == D3Import && r.value[1] == StyleOpen
      ensures r.Ok? ==> r.value[|r.value| - 1] == FigureMount(figid)
      ensures r.Ok? ==> |r.value| == |Style().value| + |AxesHtml(axes)| + 3
      ensures r.Ok? ==> r.value[1..|Style().value| + 1] == Style().value
      ensures r.Ok? ==> r.value[|Style().value| + 1] == FigureOpen(figid, fig.width, fig.height, fig.dpi)
      ensures r.Ok? ==> r.value[|Style().value| + 2..|r.value| - 1] == AxesHtml(axes)
    {
      var style :- Style();
      Ok(Page(FigId(), fig, style, AxesHtml(axes)))
    }

    /**
     * The warnings issued while building the figure: those of its first
     * axes, then of its second, and so on.
     */
    function Diagnostics(): (r: seq<Diagnostic>)
      reads this, axes
      ensures Valid() ==> r == AllWarnings(fig.axes)
    {
      AxesDiagnosticsWarnings(axes, fig.axes);
      AxesDiagnostics(axes)
    }
  }

  /** The page around a style block and the axes scripts. */
  function Page(figid: string, fig: FigureRec, style: seq<Instr>, scripts: seq<Instr>): (p: seq<Instr>)
    requires |style| >= 1 && style[0] == StyleOpen
    ensures |p| == |style| + |scripts| + 3
    ensures p[0] == D3Import && p[1] == StyleOpen && p[|p| - 1] == FigureMount(figid)
    ensures p[1..|style| + 1] == style
    ensures p[|style| + 1] == FigureOpen(figid, fig.width, fig.height, fig.dpi)
    ensures p[|style| + 2..|p| - 1] == scripts
  {
    var head := [D3Import] + style + [FigureOpen(figid, fig.width, fig.height, fig.dpi)];
    assert head[1..|style| + 1] == style;
    var p := head + scripts + [FigureMount(figid)];
    assert p[..|head|] == head;
    assert p[|head|..|p| - 1] == scripts;
    p
  }

  function AxesStyles(axs: seq<Axes>): (r: Result<seq<Instr>>)
    reads axs
    ensures r.Err? ==> r.error.IndexError?
  {
    if axs == [] then Ok([])
    else
      var first :- axs[0].Style();
      var rest :- AxesStyles(axs[1..]);
      Ok(first + rest)
  }

  function AxesHtml(axs: seq<Axes>): (r: seq<Instr>)
    reads axs
    ensures |r| >= 5 * |axs|
  {
    if axs == [] then [] else axs[0].Html() + AxesHtml(axs[1..])
  }

  function AxesDiagnostics(axs: seq<Axes>): seq<Diagnostic> {
    if axs == [] then [] else axs[0].diagnostics + AxesDiagnostics(axs[1..])
  }

  /** Axes built from the records `recs`, one by one, report exactly `AllWarnings(recs)`. */
  lemma {:induction false} AxesDiagnosticsWarnings(axs: seq<Axes>, recs: seq<AxesRec>)
    ensures (|axs| == |recs| && forall i :: 0 <= i < |axs| ==> axs[i].diagnostics == Warnings(recs[i]))
            ==> AxesDiagnostics(axs) == AllWarnings(recs)
    decreases |axs|
  {
    if |axs| == |recs| && axs != [] {
      AxesDiagnosticsWarnings(axs[1..], recs[1..]);
      if forall i :: 0 <= i < |axs| ==> axs[i].diagnostics == Warnings(recs[i]) {
        assert forall i :: 0 <= i < |axs[1..]| ==> axs[1..][i].diagnostics == Warnings(recs[1..][i]) by {
          forall i | 0 <= i < |axs[1..]|
            ensures axs[1..][i].diagnostics == Warnings(recs[1..][i])
          {
            assert axs[1..][i] == axs[i + 1] && recs[1..][i] == recs[i + 1];
          }
        }
      }
    }
  }

  class Axes {
    const parent: Figure
    const ax: AxesRec
    const axid: string
    const diagnostics: seq<Diagnostic>
    var lines: seq<Line2D>
    var texts: seq<Text>
    var grids: seq<Grid>

    ghost predicate Valid()
      reads this
    {
      && |lines| == |ax.lines|
      && (forall k :: 0 <= k < |lines| ==>
            && lines[k].parent == this
            && lines[k].line == ax.lines[k]
            && lines[k].lineid == IndexedId(axid, k + 1))
      && |texts| == |TextSources(ax)|
      && (forall k :: 0 <= k < |texts| ==>
            && texts[k].parent == this
            && texts[k].ax == ax
            && (texts[k].text, texts[k].role) == TextSources(ax)[k])
      && |grids| == 1
      && grids[0].parent == this
      && grids[0].ax == ax
    }

    /** D3Axes(parent, ax, i): the i-th axes of the figure, counting from 1. */
    constructor (parent: Figure, ax: AxesRec, i: nat)
      ensures this.parent == parent && this.ax == ax
      ensures axid == IndexedId(parent.figid, i)
      ensures diagnostics == Warnings(ax)
      ensures Valid()
    {
      this.parent := parent;
      this.ax := ax;
      this.axid := IndexedId(parent.FigId(), i);
      var ws := Diagnose(ax);
      this.diagnostics := ws;
      new;
      var ls: seq<Line2D> := [];
      var j := 0;
      while j < |ax.lines|
        invariant 0 <= j <= |ax.lines| && |ls| == j
        invariant forall k :: 0 <= k < j ==>
                    && ls[k].parent == this
                    && ls[k].line == ax.lines[k]
                    && ls[k].lineid == IndexedId(axid, k + 1)
      {
        var l := new Line2D(this, ax.lines[j], j + 1);
        ls := ls + [l];
        j := j + 1;
      }
      var sources := TextSources(ax);
      var ts: seq<Text> := [];
      j := 0;
      while j < |sources|
        invariant 0 <= j <= |sources| && |ts| == j
        invariant forall k :: 0 <= k < j ==>
                    && ts[k].parent == this
                    && ts[k].ax == ax
                    && (ts[k].text, ts[k].role) == sources[k]
      {
        var t := new Text(this, ax, sources[j].0, sources[j].1);
        ts := ts + [t];
        j := j + 1;
      }
      var g := new Grid(this, ax);
      lines, texts, grids := ls, ts, [g];
    }

    function AsNode(): Node {
      Node(None, Some(axid), Some(parent.AsNode()))
    }

    function FigId(): (r: string)
      ensures Lookup(AsNode(), FigIdAttr) == Ok(r)
    {
      parent.FigId()
    }

    function AxId(): (r: string)
      ensures Lookup(AsNode(), AxIdAttr) == Ok(r)
    {
      axid
    }

    /** `self.grids + self.lines + self.texts` */
    function Elements(): seq<Element>
      reads this
    {
      GridElems(grids) + LineElems(lines) + TextElems(texts)
    }

    /** The font size of the axis labels: that of the first tick label, 11 when there is none. */
    function FontSize(): (fs: real)
      ensures ax.xTickLabelSizes != [] ==> fs == ax.xTickLabelSizes[0]
      ensures ax.xTickLabelSizes == [] && ax.yTickLabelSizes != [] ==> fs == ax.yTickLabelSizes[0]
      ensures ax.xTickLabelSizes == [] && ax.yTickLabelSizes == [] ==> fs == 11.0
    {
      var ticks := ax.xTickLabelSizes + ax.yTickLabelSizes;
      if |ticks| == 0 then DefaultFontSize else ticks[0]
    }

    /** The axes rule, then the rules of the grids, lines and texts. */
    function Style(): (r: Result<seq<Instr>>)
      reads this
      ensures r.Err? ==> r.error.IndexError?
      ensures r.Ok? ==> |r.value| >= 1 && r.value[0] == AxesRule(FigId(), axid, FontSize())
    {
      var rules :- StyleAll(Elements());
      Ok([AxesRule(FigId(), axid, FontSize())] + rules)
    }

    /**
     * The axes script: scaffolding, every element's drawing, then the zoom
     * handler, which redraws both axes and then runs every element's update.
     */
    function Html(): (r: seq<Instr>)
      reads this
      ensures |r| >= 5 && r[0] == AxesSetup(axid, ax.xlim, ax.ylim, ax.bounds, AxesBackground)
      ensures r[|r| - 1] == ZoomHandlerEnd(axid)
      ensures ZoomHandlerStart(axid) in r && RedrawAxis(axid, X) in r && RedrawAxis(axid, Y) in r
    {
      var elements := Elements();
      [AxesSetup(axid, ax.xlim, ax.ylim, ax.bounds, AxesBackground)] + DrawAll(elements)
      + [ZoomHandlerStart(axid)] + [RedrawAxis(axid, X), RedrawAxis(axid, Y)]
      + ZoomAll(elements) + [ZoomHandlerEnd(axid)]
    }
  }

  class Grid {
    const parent: Axes
    const ax: AxesRec

    constructor (parent: Axes, ax: AxesRec)
      ensures this.parent == parent && this.ax == ax
    {
      this.parent := parent;
      this.ax := ax;
    }

    function AsNode(): Node {
      Node(None, None, Some(parent.AsNode()))
    }

    function FigId(): (r: string)
      ensures Lookup(AsNode(), FigIdAttr) == Ok(r)
    {
      parent.FigId()
    }

    function AxId(): (r: string)
      ensures Lookup(AsNode(), AxIdAttr) == Ok(r)
    {
      parent.AxId()
    }

    /** The x grid iff the x major grid is on, the y grid iff the y major grid is on, x first. */
    function Draw(): (r: seq<Instr>)
      ensures GridDraw(AxId(), X) in r <==> ax.xGridOn
      ensures GridDraw(AxId(), Y) in r <==> ax.yGridOn
      ensures forall k :: 0 <= k < |r| ==> r[k].GridDraw? && r[k].axid == AxId()
      ensures forall i, j :: 0 <= i < j < |r| ==> r[i] == GridDraw(AxId(), X) && r[j] == GridDraw(AxId(), Y)
    {
      (if ax.xGridOn then [GridDraw(AxId(), X)] else [])
      + (if ax.yGridOn then [GridDraw(AxId(), Y)] else [])
    }

    method Html() returns (ret: seq<Instr>)
      ensures ret == Draw()
    {
      ret := [];
      if ax.xGridOn {
        ret := ret + [GridDraw(AxId(), X)];
      }
      if ax.yGridOn {
        ret := ret + [GridDraw(AxId(), Y)];
      }
    }

    /** The zoom update: the same two flags, the same order. */
    function Update(): (r: seq<Instr>)
      ensures GridZoom(AxId(), X) in r <==> ax.xGridOn
      ensures GridZoom(AxId(), Y) in r <==> ax.yGridOn
      ensures forall k :: 0 <= k < |r| ==> r[k].GridZoom? && r[k].axid == AxId()
      ensures forall i, j :: 0 <= i < j < |r| ==> r[i] == GridZoom(AxId(), X) && r[j] == GridZoom(AxId(), Y)
    {
      (if ax.xGridOn then [GridZoom(AxId(), X)] else [])
      + (if ax.yGridOn then [GridZoom(AxId(), Y)] else [])
    }

    method Zoom() returns (ret: seq<Instr>)
      ensures ret == Update()
    {
      ret := [];
      if ax.xGridOn {
        ret := ret + [GridZoom(AxId(), X)];
      }
      if ax.yGridOn {
        ret := ret + [GridZoom(AxId(), Y)];
      }
    }

    /**
     * The grid rule, sampled from the first grid line of the x axis, or of
     * the y axis when the x axis has none; indexing fails when neither has any.
     */
    function Style(): (r: Result<seq<Instr>>)
      ensures r.Err? <==> ax.xGridlines == [] && ax.yGridlines == []
      ensures r.Err? ==> r.error.IndexError?
      ensures ax.xGridlines != [] ==> r == Ok([GridRuleFor(FigId(), ax.xGridlines[0])])
      ensures ax.xGridlines == [] && ax.yGridlines != [] ==> r == Ok([GridRuleFor(FigId(), ax.yGridlines[0])])
    {
      var gridlines := ax.xGridlines + ax.yGridlines;
      if |gridlines| == 0 then Err(IndexError("gridlines"))
      else Ok([GridRuleFor(FigId(), gridlines[0])])
    }
  }

  function GridRuleFor(figid: string, gl: GridlineRec): Instr {
    GridRule(figid, ColorHex(gl.color), DashArray(gl.dashes), gl.alpha)
  }

  class Line2D {
    const parent: Axes
    const line: LineRec
    const lineid: string

    /** D3Line2D(parent, line, i): the i-th line of the axes, counting from 1. */
    constructor (parent: Axes, line: LineRec, i: nat)
      ensures this.parent == parent && this.line == line
      ensures lineid == IndexedId(parent.axid, i)
    {
      this.parent := parent;
      this.line := line;
      this.lineid := IndexedId(parent.AxId(), i);
    }

    function AsNode(): Node {
      Node(None, None, Some(parent.AsNode()))
    }

    function FigId(): (r: string)
      ensures Lookup(AsNode(), FigIdAttr) == Ok(r)
    {
      parent.FigId()
    }

    function AxId(): (r: string)
      ensures Lookup(AsNode(), AxIdAttr) == Ok(r)
    {
      parent.AxId()
    }

    function HasLine(): (b: bool)
      ensures b <==> line.linestyle != None && line.linestyle != Some("") && line.linestyle != Some(" ")
                     && line.linestyle != Some("None") && line.linestyle != Some("none")
    {
      !IsNoStyle(line.linestyle)
    }

    function HasPoints(): (b: bool)
      ensures b <==> line.marker != None && line.marker != Some("") && line.marker != Some(" ")
                     && line.marker != Some("None") && line.marker != Some("none")
    {
      !IsNoStyle(line.marker)
    }

    /** The opacity used for the line: its alpha, 1 when it has none. */
    function Alpha(): (a: real)
      ensures line.alpha.None? ==> a == 1.0
      ensures line.alpha.Some? ==> a == line.alpha.value
    {
      if line.alpha.None? then 1.0 else line.alpha.value
    }

    /** The glyph size: ten times the matplotlib marker size. */
    function MarkerSize(): (ms: real)
      ensures ms == 10.0 * line.markersize
    {
      10.0 * line.markersize
    }

    /**
     * The data declaration, then the marker glyphs iff the line has a
     * marker, then the stroked path iff it has a line style.
     */
    function Draw(): (r: seq<Instr>)
      ensures |r| >= 1 && r[0] == LineData(lineid, line.xydata)
      ensures HasPoints() <==> exists k :: 0 < k < |r| && r[k].Points?
      ensures HasLine() <==> Stroke(lineid, AxId()) in r
      ensures forall k :: 0 < k < |r| ==>
                || r[k] == Stroke(lineid, AxId())
                || (line.marker.Some? && r[k] == Points(lineid, AxId(), D3Shape(line.marker.value), MarkerSize()))
      ensures forall i, j :: 0 < i < j < |r| ==> r[i].Points? && r[j].Stroke?
    {
      var data := [LineData(lineid, line.xydata)];
      var points := if HasPoints() then [Points(lineid, AxId(), D3Shape(line.marker.value), MarkerSize())] else [];
      var stroke := if HasLine() then [Stroke(lineid, AxId())] else [];
      assert HasPoints() ==> (data + points + stroke)[1].Points?;
      data + points + stroke
    }

    method Html() returns (result: seq<Instr>)
      ensures result == Draw()
    {
      result := [LineData(lineid, line.xydata)];
      if HasPoints() {
        var ms := MarkerSize();
        result := result + [Points(lineid, AxId(), D3Shape(line.marker.value), ms)];
      }
      if HasLine() {
        result := result + [Stroke(lineid, AxId())];
      }
    }

    /** The zoom update: marker positions iff it has a marker, then the path iff it has a line style. */
    function Update(): (r: seq<Instr>)
      ensures PointsZoom(lineid, AxId()) in r <==> HasPoints()
      ensures StrokeZoom(lineid, AxId()) in r <==> HasLine()
      ensures forall k :: 0 <= k < |r| ==> r[k] == PointsZoom(lineid, AxId()) || r[k] == StrokeZoom(lineid, AxId())
      ensures forall i, j :: 0 <= i < j < |r| ==> r[i].PointsZoom? && r[j].StrokeZoom?
    {
      (if HasPoints() then [PointsZoom(lineid, AxId())] else [])
      + (if HasLine() then [StrokeZoom(lineid, AxId())] else [])
    }

    method Zoom() returns (ret: seq<Instr>)
      ensures ret == Update()
    {
      ret := [];
      if HasPoints() {
        ret := ret + [PointsZoom(lineid, AxId())];
      }
      if HasLine() {
        ret := ret + [StrokeZoom(lineid, AxId())];
      }
    }

    /** One rule scoped to this figure and this line, with the defaulted opacity. */
    function Style(): (r: seq<Instr>)
      ensures |r| == 1 && r[0].LineRule?
      ensures r[0].figid == FigId() && r[0].lineid == lineid
      ensures r[0].alpha == Alpha()
      ensures r[0].linecolor == ColorHex(line.color) && r[0].linewidth == line.linewidth
      ensures r[0].dasharray == DashArray(line.dashes) && r[0].markeredgewidth == line.markeredgewidth
      ensures r[0].markeredgecolor == ColorHex(line.markeredgecolor) && r[0].markercolor == ColorHex(line.markerfacecolor)
    {
      [LineRule(FigId(), lineid, ColorHex(line.color), line.linewidth, DashArray(line.dashes),
                line.markeredgewidth, ColorHex(line.markeredgecolor), ColorHex(line.markerfacecolor), Alpha())]
    }
  }

  class Text {
    const parent: Axes
    const ax: AxesRec
    const text: TextRec
    const role: Role

    constructor (parent: Axes, ax: AxesRec, text: TextRec, role: Role)
      ensures this.parent == parent && this.ax == ax && this.text == text && this.role == role
    {
      this.parent := parent;
      this.ax := ax;
      this.text := text;
      this.role := role;
    }

    /**
     * Nothing for an empty string; otherwise one text instruction, shifted
     * right by the font size only for the y-axis label, with the rotation
     * negated and the anchor in the middle.
     */
    function Html(): (r: seq<Instr>)
      ensures r == [] <==> text.content == ""
      ensures |r| <= 1
      ensures r != [] ==> r[0].TextDraw? && r[0].content == text.content
      ensures r != [] && role == YLabel ==> r[0].x == text.x + text.size
      ensures r != [] && role != YLabel ==> r[0].x == text.x
      ensures r != [] ==> r[0].y == text.y && r[0].fontsize == text.size && r[0].color == ColorHex(text.color)
      ensures r != [] ==> r[0].rotation == -text.rotation && r[0].anchor == "middle"
    {
      if text.content == "" then []
      else
        var x := if role == YLabel then text.x + text.size else text.x;
        [TextDraw(text.content, x, text.y, text.size, ColorHex(text.color), -text.rotation, TextAnchor)]
    }
  }

  // ---------------------------------------------------------------------
  // Elements of an axes, dispatched by kind

  datatype Element = GridElem(grid: Grid) | LineElem(line: Line2D) | TextElem(text: Text)

  function GridElems(gs: seq<Grid>): (r: seq<Element>)
    ensures |r| == |gs| && forall k :: 0 <= k < |gs| ==> r[k] == GridElem(gs[k])
  {
    seq(|gs|, k requires 0 <= k < |gs| => GridElem(gs[k]))
  }

  function LineElems(ls: seq<Line2D>): (r: seq<Element>)
    ensures |r| == |ls| && forall k :: 0 <= k < |ls| ==> r[k] == LineElem(ls[k])
  {
    seq(|ls|, k requires 0 <= k < |ls| => LineElem(ls[k]))
  }

  function TextElems(ts: seq<Text>): (r: seq<Element>)
    ensures |r| == |ts| && forall k :: 0 <= k < |ts| ==> r[k] == TextElem(ts[k])
  {
    seq(|ts|, k requires 0 <= k < |ts| => TextElem(ts[k]))
  }

  /** `elem.html()` */
  function ElementHtml(e: Element): seq<Instr> {
    match e
    case GridElem(g) => g.Draw()
    case LineElem(l) => l.Draw()
    case TextElem(t) => t.Html()
  }

  /** `elem.zoom()`; a text keeps the empty default of D3Base. */
  function ElementZoom(e: Element): seq<Instr> {
    match e
    case GridElem(g) => g.Update()
    case LineElem(l) => l.Update()
    case TextElem(_) => []
  }

  /** `elem.style()`; a text keeps the empty default of D3Base. */
  function ElementStyle(e: Element): Result<seq<Instr>> {
    match e
    case GridElem(g) => g.Style()
    case LineElem(l) => Ok(l.Style())
    case TextElem(_) => Ok([])
  }

  function DrawAll(es: seq<Element>): seq<Instr> {
    if es == [] then [] else ElementHtml(es[0]) + DrawAll(es[1..])
  }

  function ZoomAll(es: seq<Element>): seq<Instr> {
    if es == [] then [] else ElementZoom(es[0]) + ZoomAll(es[1..])
  }

  function StyleAll(es: seq<Element>): (r: Result<seq<Instr>>)
    ensures r.Err? ==> r.error.IndexError?
  {
    if es == [] then Ok([])
    else
      var first :- ElementStyle(es[0]);
      var rest :- StyleAll(es[1..]);
      Ok(first + rest)
  }
}
