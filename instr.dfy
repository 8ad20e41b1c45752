/**
 * The output of the builder. Each JavaScript, HTML or CSS template of the
 * source is one instruction carrying the values the template is formatted
 * with. A template with holes (`{styles}`, `{axes}`, `{elements}`,
 * `{element_zooms}`) becomes the instructions before, between and after its
 * holes. A serializer outside this model would print them.
 */
module Instr {
  import opened Base
  import opened Plot

  /** Values the source obtains from its `_utils` helpers, kept symbolic. */
  datatype Conv =
    | ColorHex(color: string)   // color_to_hex(color)
    | DashArray(dashes: string) // get_dasharray(artist)
    | D3Shape(marker: string)   // get_d3_shape_for_marker(marker)

  datatype Axis = X | Y

  datatype Instr =
    // the figure page
    | D3Import
    | StyleOpen
    | StyleClose
    | FigureOpen(figid: string, width: real, height: real, dpi: real)
    | FigureMount(figid: string)
    // style-sheet rules
    | AxesRule(figid: string, axid: string, fontsize: real)
    | GridRule(figid: string, color: Conv, dasharray: Conv, gridAlpha: Option<real>)
    | LineRule(figid: string, lineid: string, linecolor: Conv, linewidth: real, dasharray: Conv,
               markeredgewidth: real, markeredgecolor: Conv, markercolor: Conv, alpha: real)
    // axes scaffolding: scales, zoom behaviour, axes, clip path; then the zoom handler
    | AxesSetup(axid: string, xlim: Limits, ylim: Limits, bounds: Bounds, background: string)
    | ZoomHandlerStart(axid: string)
    | RedrawAxis(axid: string, axis: Axis)
    | ZoomHandlerEnd(axid: string)
    // grid
    | GridDraw(axid: string, axis: Axis)
    | GridZoom(axid: string, axis: Axis)
    // line
    | LineData(lineid: string, data: seq<(real, real)>)
    | Points(lineid: string, axid: string, shape: Conv, size: real)
    | Stroke(lineid: string, axid: string)
    | PointsZoom(lineid: string, axid: string)
    | StrokeZoom(lineid: string, axid: string)
    // text
    | TextDraw(content: string, x: real, y: real, fontsize: real, color: Conv, rotation: real, anchor: string)

  /**
   * Where an instruction belongs in the output of one axes. Its style sheet
   * holds the axes rule, then grid rules, then line rules. Its script holds
   * the scaffolding, grid, line and text drawing, then the zoom handler,
   * which redraws both axes before it updates grids and lines. The page
   * tokens of the figure never occur in the output of an axes and share
   * the last phase.
   */
  function Phase(x: Instr): nat {
    match x
    case AxesRule(_, _, _) => 0
    case GridRule(_, _, _, _) => 1
    case LineRule(_, _, _, _, _, _, _, _, _) => 2
    case AxesSetup(_, _, _, _, _) => 3
    case GridDraw(_, _) => 4
    case LineData(_, _) => 5
    case Points(_, _, _, _) => 5
    case Stroke(_, _) => 5
    case TextDraw(_, _, _, _, _, _, _) => 6
    case ZoomHandlerStart(_) => 7
    case RedrawAxis(_, _) => 8
    case GridZoom(_, _) => 9
    case PointsZoom(_, _) => 10
    case StrokeZoom(_, _) => 10
    case ZoomHandlerEnd(_) => 11
    case D3Import => 12
    case StyleOpen => 12
    case StyleClose => 12
    case FigureOpen(_, _, _, _) => 12
    case FigureMount(_) => 12
  }

  predicate AllInPhase(s: seq<Instr>, p: nat) {
    forall k :: 0 <= k < |s| ==> Phase(s[k]) == p
  }

  /** The phases never go back: the sequence is sorted by phase. */
  predicate PhaseOrdered(s: seq<Instr>) {
    forall i, j :: 0 <= i < j < |s| ==> Phase(s[i]) <= Phase(s[j])
  }

  predicate OrderedUpTo(s: seq<Instr>, p: nat) {
    PhaseOrdered(s) && forall k :: 0 <= k < |s| ==> Phase(s[k]) <= p
  }

  lemma AppendPhase(a: seq<Instr>, b: seq<Instr>, p: nat, q: nat)
    requires OrderedUpTo(a, p) && p <= q && AllInPhase(b, q)
    ensures OrderedUpTo(a + b, q)
  {
    var s := a + b;
    forall i, j | 0 <= i < j < |s|
      ensures Phase(s[i]) <= Phase(s[j])
    {
      if j < |a| {
        assert s[i] == a[i] && s[j] == a[j];
      } else if i < |a| {
        assert s[i] == a[i] && s[j] == b[j - |a|];
      } else {
        assert s[i] == b[i - |a|] && s[j] == b[j - |a|];
      }
    }
    forall k | 0 <= k < |s|
      ensures Phase(s[k]) <= q
    {
      if k < |a| {
        assert s[k] == a[k];
      } else {
        assert s[k] == b[k - |a|];
      }
    }
  }
}
