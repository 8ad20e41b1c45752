/**
 * What the scene graph guarantees: distinct ids, the composition of each
 * axes, the warnings for unsupported content, and the order in which the
 * style sheet, the drawing script and the zoom handler are emitted.
 */
module Properties {
  import opened Base
  import opened Ids
  import opened Plot
  import opened Instr
  import opened Objects

  // ---------------------------------------------------------------------
  // The "no line" / "no marker" rule

  /** Only the five listed values disable drawing; the check is case-sensitive. */
  lemma AbsenceRuleExamples()
    ensures IsNoStyle(Some("none")) && IsNoStyle(Some("None")) && IsNoStyle(Some("")) && IsNoStyle(Some(" ")) && IsNoStyle(None)
    ensures !IsNoStyle(Some("NONE")) && !IsNoStyle(Some("-")) && !IsNoStyle(Some("o"))
  {
  }

  /** has_points applies to the marker exactly the rule has_line applies to the line style. */
  lemma SameAbsenceRule(a: Line2D, b: Line2D)
    requires a.line.marker == b.line.linestyle
    ensures a.HasPoints() == b.HasLine()
  {
  }

  /** A solid line without marker: data and stroke when drawn, the path update on zoom. */
  lemma SolidLineScenario(l: Line2D)
    requires l.line.linestyle == Some("-") && l.line.marker == None
    ensures l.HasLine() && !l.HasPoints()
    ensures l.Draw() == [LineData(l.lineid, l.line.xydata), Stroke(l.lineid, l.AxId())]
    ensures l.Update() == [StrokeZoom(l.lineid, l.AxId())]
  {
  }

  // ---------------------------------------------------------------------
  // Warnings for unsupported content

  lemma {:induction false} KindWarningsMembers(ax: AxesRec, ks: seq<Kind>, d: Diagnostic)
    ensures d in KindWarnings(ax, ks) <==> d.NotImplemented? && d.kind in ks && ax.Count(d.kind) > 0
    decreases |ks|
  {
    if ks != [] {
      var init, k := ks[..|ks| - 1], ks[|ks| - 1];
      assert ks == init + [k];
      KindWarningsMembers(ax, init, d);
    }
  }

  lemma {:induction false} KindWarningsOrdered(ax: AxesRec, ks: seq<Kind>)
    requires forall i, j :: 0 <= i < j < |ks| ==> KindRank(ks[i]) < KindRank(ks[j])
    ensures forall i :: 0 <= i < |KindWarnings(ax, ks)| ==> KindWarnings(ax, ks)[i].NotImplemented?
    ensures forall i, j :: 0 <= i < j < |KindWarnings(ax, ks)| ==>
              KindRank(KindWarnings(ax, ks)[i].kind) < KindRank(KindWarnings(ax, ks)[j].kind)
    decreases |ks|
  {
    if ks != [] {
      var init, k := ks[..|ks| - 1], ks[|ks| - 1];
      KindWarningsOrdered(ax, init);
      var front := KindWarnings(ax, init);
      var w := KindWarnings(ax, ks);
      assert w == front + (if ax.Count(k) > 0 then [NotImplemented(k)] else []);
      forall i | 0 <= i < |front|
        ensures front[i].NotImplemented? && KindRank(front[i].kind) < KindRank(k)
      {
        KindWarningsMembers(ax, init, front[i]);
        var m :| 0 <= m < |init| && init[m] == front[i].kind;
        assert ks[m] == init[m];
      }
    }
  }

  /**
   * One warning per kind the axes has content of, in the order images,
   * collections, containers, artists, patches, tables, and after them one
   * legend warning iff the axes has a legend.
   */
  lemma WarningsCharacterised(ax: AxesRec)
    ensures forall k :: NotImplemented(k) in Warnings(ax) <==> ax.Count(k) > 0
    ensures LegendIgnored in Warnings(ax) <==> ax.hasLegend
    ensures forall i, j :: 0 <= i < j < |Warnings(ax)| ==>
              && Warnings(ax)[i].NotImplemented?
              && (Warnings(ax)[j].NotImplemented? ==> KindRank(Warnings(ax)[i].kind) < KindRank(Warnings(ax)[j].kind))
  {
    WarningsMembers(ax);
    WarningsOrdered(ax);
  }

  lemma WarningsMembers(ax: AxesRec)
    ensures forall k :: NotImplemented(k) in Warnings(ax) <==> ax.Count(k) > 0
    ensures LegendIgnored in Warnings(ax) <==> ax.hasLegend
  {
    var front := KindWarnings(ax, UnsupportedKinds);
    forall k
      ensures NotImplemented(k) in front <==> ax.Count(k) > 0
    {
      KindWarningsMembers(ax, UnsupportedKinds, NotImplemented(k));
      assert UnsupportedKinds[KindRank(k)] == k;
    }
    KindWarningsMembers(ax, UnsupportedKinds, LegendIgnored);
  }

  lemma WarningsOrdered(ax: AxesRec)
    ensures forall i, j :: 0 <= i < j < |Warnings(ax)| ==>
              && Warnings(ax)[i].NotImplemented?
              && (Warnings(ax)[j].NotImplemented? ==> KindRank(Warnings(ax)[i].kind) < KindRank(Warnings(ax)[j].kind))
  {
    var front := KindWarnings(ax, UnsupportedKinds);
    KindWarningsOrdered(ax, UnsupportedKinds);
    var w := Warnings(ax);
    assert w[..|front|] == front;
    forall i, j | 0 <= i < j < |w| && w[j].NotImplemented?
      ensures KindRank(w[i].kind) < KindRank(w[j].kind)
    {
      assert j < |front| && w[i] == front[i] && w[j] == front[j];
    }
  }

  /** One image and nothing else unsupported: exactly one warning, naming images. */
  lemma OneImageScenario(ax: AxesRec)
    requires ax.images == 1 && ax.collections == 0 && ax.containers == 0
    requires ax.artists == 0 && ax.patches == 0 && ax.tables == 0 && !ax.hasLegend
    ensures Warnings(ax) == [NotImplemented(Images)]
    ensures KindName(Warnings(ax)[0].kind) == "images"
  {
    var ks := UnsupportedKinds;
    assert ks[..1][..0] == [] && ks[..2][..1] == ks[..1] && ks[..3][..2] == ks[..2];
    assert ks[..4][..3] == ks[..3] && ks[..5][..4] == ks[..4] && ks[..6][..5] == ks[..5] && ks[..6] == ks;
    assert KindWarnings(ax, ks[..1]) == [NotImplemented(Images)];
    assert KindWarnings(ax, ks[..2]) == [NotImplemented(Images)];
    assert KindWarnings(ax, ks[..3]) == [NotImplemented(Images)];
    assert KindWarnings(ax, ks[..4]) == [NotImplemented(Images)];
    assert KindWarnings(ax, ks[..5]) == [NotImplemented(Images)];
    assert KindWarnings(ax, ks[..6]) == [NotImplemented(Images)];
  }

  /** A warning is among those for a list of axes iff it is among the warnings of one of them. */
  lemma {:induction false} AllWarningsMembers(axs: seq<AxesRec>, d: Diagnostic)
    ensures d in AllWarnings(axs) <==> exists i :: 0 <= i < |axs| && d in Warnings(axs[i])
    decreases |axs|
  {
    if axs != [] {
      AllWarningsMembers(axs[1..], d);
      if d in AllWarnings(axs[1..]) {
        var i :| 0 <= i < |axs[1..]| && d in Warnings(axs[1..][i]);
        assert axs[i + 1] == axs[1..][i];
      }
      if exists i :: 0 <= i < |axs| && d in Warnings(axs[i]) {
        var i :| 0 <= i < |axs| && d in Warnings(axs[i]);
        if i > 0 {
          assert axs[1..][i - 1] == axs[i];
        }
      }
    }
  }

  /**
   * A built figure reports the warnings of its matplotlib axes in figure
   * order, and a warning is reported iff one of the axes calls for it.
   */
  lemma FigureDiagnostics(f: Figure, d: Diagnostic)
    requires f.Valid()
    ensures f.Diagnostics() == AllWarnings(f.fig.axes)
    ensures d in f.Diagnostics() <==> exists i :: 0 <= i < |f.fig.axes| && d in Warnings(f.fig.axes[i])
  {
    AllWarningsMembers(f.fig.axes, d);
  }

  // ---------------------------------------------------------------------
  // Ids

  /** The axes of one figure have pairwise distinct ids. */
  lemma AxesIdsDistinct(f: Figure)
    requires f.Valid()
    ensures forall i, j :: 0 <= i < j < |f.axes| ==> f.axes[i].axid != f.axes[j].axid
  {
    forall i, j | 0 <= i < j < |f.axes|
      ensures f.axes[i].axid != f.axes[j].axid
    {
      IndexedIdInjective(f.figid, i + 1, j + 1);
    }
  }

  /** The lines of one axes have pairwise distinct ids. */
  lemma LineIdsDistinct(a: Axes)
    requires a.Valid()
    ensures forall i, j :: 0 <= i < j < |a.lines| ==> a.lines[i].lineid != a.lines[j].lineid
  {
    forall i, j | 0 <= i < j < |a.lines|
      ensures a.lines[i].lineid != a.lines[j].lineid
    {
      IndexedIdInjective(a.axid, i + 1, j + 1);
    }
  }

  /**
   * Walking up the parent chain, every line and every grid finds the id of
   * its own figure and of its own axes; line k of axes i is figid, i, k.
   */
  lemma IdsFollowParents(f: Figure, i: nat)
    requires f.Valid() && i < |f.axes|
    ensures f.axes[i].FigId() == f.figid
    ensures f.axes[i].grids[0].FigId() == f.figid && f.axes[i].grids[0].AxId() == f.axes[i].axid
    ensures forall k :: 0 <= k < |f.axes[i].lines| ==>
              && f.axes[i].lines[k].FigId() == f.figid
              && f.axes[i].lines[k].AxId() == f.axes[i].axid
              && f.axes[i].lines[k].lineid == IndexedId(IndexedId(f.figid, i + 1), k + 1)
  {
  }

  // ---------------------------------------------------------------------
  // Composition of an axes

  /** The explicit texts first, then the x label, the y label and the title; one grid. */
  lemma AxesComposition(a: Axes)
    requires a.Valid()
    ensures |a.lines| == |a.ax.lines| && |a.grids| == 1
    ensures |a.texts| == |a.ax.texts| + 3
    ensures forall k :: 0 <= k < |a.ax.texts| ==> a.texts[k].text == a.ax.texts[k] && a.texts[k].role == Explicit
    ensures a.texts[|a.ax.texts|].text == a.ax.xlabel && a.texts[|a.ax.texts|].role == XLabel
    ensures a.texts[|a.ax.texts| + 1].text == a.ax.ylabel && a.texts[|a.ax.texts| + 1].role == YLabel
    ensures a.texts[|a.ax.texts| + 2].text == a.ax.title && a.texts[|a.ax.texts| + 2].role == Title
  {
    var n := |a.ax.texts|;
    assert (a.texts[n].text, a.texts[n].role) == TextSources(a.ax)[n];
    assert (a.texts[n + 1].text, a.texts[n + 1].role) == TextSources(a.ax)[n + 1];
    assert (a.texts[n + 2].text, a.texts[n + 2].role) == TextSources(a.ax)[n + 2];
    forall k | 0 <= k < n
      ensures a.texts[k].text == a.ax.texts[k] && a.texts[k].role == Explicit
    {
      assert (a.texts[k].text, a.texts[k].role) == TextSources(a.ax)[k];
    }
  }

  // ---------------------------------------------------------------------
  // Concatenating element output

  lemma {:induction false} DrawAllAppend(a: seq<Element>, b: seq<Element>)
    ensures DrawAll(a + b) == DrawAll(a) + DrawAll(b)
    decreases |a|
  {
    if a == [] {
      assert a + b == b;
    } else {
      assert (a + b)[1..] == a[1..] + b;
      DrawAllAppend(a[1..], b);
    }
  }

  lemma {:induction false} ZoomAllAppend(a: seq<Element>, b: seq<Element>)
    ensures ZoomAll(a + b) == ZoomAll(a) + ZoomAll(b)
    decreases |a|
  {
    if a == [] {
      assert a + b == b;
    } else {
      assert (a + b)[1..] == a[1..] + b;
      ZoomAllAppend(a[1..], b);
    }
  }

  /** The first failing element style is the failure; otherwise the rules concatenate. */
  lemma {:induction false} StyleAllAppend(a: seq<Element>, b: seq<Element>)
    ensures StyleAll(a + b) ==
              if StyleAll(a).Err? then StyleAll(a)
              else if StyleAll(b).Err? then StyleAll(b)
              else Ok(StyleAll(a).value + StyleAll(b).value)
    decreases |a|
  {
    if a == [] {
      assert a + b == b;
      if StyleAll(b).Ok? {
        assert [] + StyleAll(b).value == StyleAll(b).value;
      }
    } else {
      assert (a + b)[0] == a[0];
      assert (a + b)[1..] == a[1..] + b;
      StyleAllAppend(a[1..], b);
      var first := ElementStyle(a[0]);
      if first.Ok? && StyleAll(a[1..]).Ok? && StyleAll(b).Ok? {
        var f, r, t := first.value, StyleAll(a[1..]).value, StyleAll(b).value;
        assert StyleAll(a + b) == Ok(f + (r + t));
        assert f + (r + t) == (f + r) + t;
      }
    }
  }

  /** Texts never take part in the zoom handler. */
  lemma {:induction false} TextsDoNotZoom(ts: seq<Text>)
    ensures ZoomAll(TextElems(ts)) == []
    decreases |ts|
  {
    if ts != [] {
      assert TextElems(ts)[1..] == TextElems(ts[1..]);
      TextsDoNotZoom(ts[1..]);
    }
  }

  /** Texts contribute no rule to the style sheet and cannot make it fail. */
  lemma {:induction false} TextsHaveNoStyle(ts: seq<Text>)
    ensures StyleAll(TextElems(ts)) == Ok([])
    decreases |ts|
  {
    if ts != [] {
      assert TextElems(ts)[1..] == TextElems(ts[1..]);
      TextsHaveNoStyle(ts[1..]);
      assert ElementStyle(TextElems(ts)[0]) == Ok([]);
      var none: seq<Instr> := [];
      assert none + none == none;
    }
  }

  /** The rules of the lines, in line order. */
  function LineRules(ls: seq<Line2D>): seq<Instr> {
    if ls == [] then [] else ls[0].Style() + LineRules(ls[1..])
  }

  /** Rule k of the lines' rules is the rule of line k. */
  lemma {:induction false} LineRulesIndexed(ls: seq<Line2D>)
    ensures |LineRules(ls)| == |ls|
    ensures forall k :: 0 <= k < |ls| ==> LineRules(ls)[k] == ls[k].Style()[0]
    decreases |ls|
  {
    if ls != [] {
      LineRulesIndexed(ls[1..]);
      forall k | 0 < k < |ls|
        ensures LineRules(ls)[k] == ls[k].Style()[0]
      {
        assert ls[1..][k - 1] == ls[k];
      }
    }
  }

  lemma {:induction false} LinesStyle(ls: seq<Line2D>)
    ensures StyleAll(LineElems(ls)) == Ok(LineRules(ls))
    decreases |ls|
  {
    if ls != [] {
      assert LineElems(ls)[1..] == LineElems(ls[1..]);
      LinesStyle(ls[1..]);
    }
  }

  // ---------------------------------------------------------------------
  // Order of the axes script

  lemma {:induction false} DrawAllInPhase(es: seq<Element>, p: nat)
    requires forall k :: 0 <= k < |es| ==> AllInPhase(ElementHtml(es[k]), p)
    ensures AllInPhase(DrawAll(es), p)
    decreases |es|
  {
    if es != [] {
      DrawAllInPhase(es[1..], p);
      var h, t := ElementHtml(es[0]), DrawAll(es[1..]);
      assert DrawAll(es) == h + t;
      forall k | 0 <= k < |h + t|
        ensures Phase((h + t)[k]) == p
      {
        if k >= |h| {
          assert (h + t)[k] == t[k - |h|];
        }
      }
    }
  }

  lemma {:induction false} ZoomAllInPhase(es: seq<Element>, p: nat)
    requires forall k :: 0 <= k < |es| ==> AllInPhase(ElementZoom(es[k]), p)
    ensures AllInPhase(ZoomAll(es), p)
    decreases |es|
  {
    if es != [] {
      ZoomAllInPhase(es[1..], p);
      var h, t := ElementZoom(es[0]), ZoomAll(es[1..]);
      assert ZoomAll(es) == h + t;
      forall k | 0 <= k < |h + t|
        ensures Phase((h + t)[k]) == p
      {
        if k >= |h| {
          assert (h + t)[k] == t[k - |h|];
        }
      }
    }
  }

  /**
   * The axes script in full: scaffolding, the grid, the lines, the texts,
   * then the zoom handler with both axis redraws, the grid update and the
   * line updates; the texts contribute nothing to the handler.
   */
  lemma AxesHtmlSections(a: Axes)
    requires |a.grids| == 1
    ensures a.Html() ==
              [AxesSetup(a.axid, a.ax.xlim, a.ax.ylim, a.ax.bounds, AxesBackground)]
              + a.grids[0].Draw() + DrawAll(LineElems(a.lines)) + DrawAll(TextElems(a.texts))
              + [ZoomHandlerStart(a.axid)] + [RedrawAxis(a.axid, X), RedrawAxis(a.axid, Y)]
              + a.grids[0].Update() + ZoomAll(LineElems(a.lines))
              + [ZoomHandlerEnd(a.axid)]
  {
    var g := a.grids[0];
    var gs, ls, ts := GridElems(a.grids), LineElems(a.lines), TextElems(a.texts);
    assert a.Elements() == gs + ls + ts;
    assert gs == [GridElem(g)] && gs[1..] == [];
    DrawAllAppend(gs, ls);
    DrawAllAppend(gs + ls, ts);
    ZoomAllAppend(gs, ls);
    ZoomAllAppend(gs + ls, ts);
    TextsDoNotZoom(a.texts);
    var d, z := DrawAll(gs + ls + ts), ZoomAll(gs + ls + ts);
    assert d == g.Draw() + DrawAll(ls) + DrawAll(ts);
    assert z == g.Update() + ZoomAll(ls);
    Regroup([AxesSetup(a.axid, a.ax.xlim, a.ax.ylim, a.ax.bounds, AxesBackground)], d,
            [ZoomHandlerStart(a.axid)], [RedrawAxis(a.axid, X), RedrawAxis(a.axid, Y)], z, [ZoomHandlerEnd(a.axid)],
            g.Draw(), DrawAll(ls), DrawAll(ts), g.Update(), ZoomAll(ls));
  }


  lemma LinesDrawInPhase(ls: seq<Line2D>)
    ensures AllInPhase(DrawAll(LineElems(ls)), 5)
  {
    forall k | 0 <= k < |ls|
      ensures AllInPhase(ElementHtml(LineElems(ls)[k]), 5)
    {
      assert LineElems(ls)[k] == LineElem(ls[k]);
      var d := ls[k].Draw();
      forall m | 0 < m < |d|
        ensures Phase(d[m]) == 5
      {
        assert d[m].Points? || d[m].Stroke?;
      }
    }
    DrawAllInPhase(LineElems(ls), 5);
  }

  lemma LinesZoomInPhase(ls: seq<Line2D>)
    ensures AllInPhase(ZoomAll(LineElems(ls)), 10)
  {
    forall k | 0 <= k < |ls|
      ensures AllInPhase(ElementZoom(LineElems(ls)[k]), 10)
    {
      assert LineElems(ls)[k] == LineElem(ls[k]);
      var u := ls[k].Update();
      forall m | 0 <= m < |u|
        ensures Phase(u[m]) == 10
      {
        assert u[m].PointsZoom? || u[m].StrokeZoom?;
      }
    }
    ZoomAllInPhase(LineElems(ls), 10);
  }

  lemma TextsDrawInPhase(ts: seq<Text>)
    ensures AllInPhase(DrawAll(TextElems(ts)), 6)
  {
    forall k | 0 <= k < |ts|
      ensures AllInPhase(ElementHtml(TextElems(ts)[k]), 6)
    {
    }
    DrawAllInPhase(TextElems(ts), 6);
  }

  /** Nine sections whose phases are 3 to 11 concatenate to a phase-sorted sequence. */
  lemma SectionsOrdered(s0: seq<Instr>, s1: seq<Instr>, s2: seq<Instr>, s3: seq<Instr>, s4: seq<Instr>,
                        s5: seq<Instr>, s6: seq<Instr>, s7: seq<Instr>, s8: seq<Instr>)
    requires AllInPhase(s0, 3) && AllInPhase(s1, 4) && AllInPhase(s2, 5)
    requires AllInPhase(s3, 6) && AllInPhase(s4, 7) && AllInPhase(s5, 8)
    requires AllInPhase(s6, 9) && AllInPhase(s7, 10) && AllInPhase(s8, 11)
    ensures PhaseOrdered(s0 + s1 + s2 + s3 + s4 + s5 + s6 + s7 + s8)
  {
    assert OrderedUpTo(s0, 3);
    AppendPhase(s0, s1, 3, 4);
    AppendPhase(s0 + s1, s2, 4, 5);
    AppendPhase(s0 + s1 + s2, s3, 5, 6);
    AppendPhase(s0 + s1 + s2 + s3, s4, 6, 7);
    AppendPhase(s0 + s1 + s2 + s3 + s4, s5, 7, 8);
    AppendPhase(s0 + s1 + s2 + s3 + s4 + s5, s6, 8, 9);
    AppendPhase(s0 + s1 + s2 + s3 + s4 + s5 + s6, s7, 9, 10);
    AppendPhase(s0 + s1 + s2 + s3 + s4 + s5 + s6 + s7, s8, 10, 11);
  }

  /** The grid draws in phase 4 and updates in phase 9. */
  lemma GridInPhase(g: Grid)
    ensures AllInPhase(g.Draw(), 4) && AllInPhase(g.Update(), 9)
  {
  }

  /** A script of the shape every axes emits, with its variable sections in their phases, is sorted. */
  lemma ScriptShapeOrdered(axid: string, xlim: Limits, ylim: Limits, bounds: Bounds,
                           gd: seq<Instr>, ld: seq<Instr>, td: seq<Instr>, gu: seq<Instr>, lu: seq<Instr>)
    requires AllInPhase(gd, 4) && AllInPhase(ld, 5) && AllInPhase(td, 6) && AllInPhase(gu, 9) && AllInPhase(lu, 10)
    ensures PhaseOrdered([AxesSetup(axid, xlim, ylim, bounds, AxesBackground)] + gd + ld + td
                         + [ZoomHandlerStart(axid)] + [RedrawAxis(axid, X), RedrawAxis(axid, Y)]
                         + gu + lu + [ZoomHandlerEnd(axid)])
  {
    SectionsOrdered([AxesSetup(axid, xlim, ylim, bounds, AxesBackground)], gd, ld, td,
                    [ZoomHandlerStart(axid)], [RedrawAxis(axid, X), RedrawAxis(axid, Y)], gu, lu, [ZoomHandlerEnd(axid)]);
  }

  /**
   * Every axes script is sorted by phase: all grid drawing before all line
   * drawing before all text drawing, and in the zoom handler both axes are
   * redrawn before any grid or line is updated, grids before lines.
   */
  lemma AxesHtmlOrdered(a: Axes)
    requires |a.grids| == 1
    ensures PhaseOrdered(a.Html())
  {
    var g := a.grids[0];
    AxesHtmlSections(a);
    GridInPhase(g);
    LinesDrawInPhase(a.lines);
    TextsDrawInPhase(a.texts);
    LinesZoomInPhase(a.lines);
    ScriptShapeOrdered(a.axid, a.ax.xlim, a.ax.ylim, a.ax.bounds, g.Draw(), DrawAll(LineElems(a.lines)),
                       DrawAll(TextElems(a.texts)), g.Update(), ZoomAll(LineElems(a.lines)));
  }

  // ---------------------------------------------------------------------
  // The style sheet

  /** The rules of the lines are in phase 2. */
  lemma LineRulesInPhase(ls: seq<Line2D>)
    ensures AllInPhase(LineRules(ls), 2)
  {
    LineRulesIndexed(ls);
  }

  /** The styles of one grid, then lines, then texts: the grid decides failure, texts add nothing. */
  lemma ElementsStyle(g: Grid, lines: seq<Line2D>, texts: seq<Text>)
    ensures StyleAll(GridElems([g]) + LineElems(lines) + TextElems(texts)) ==
              if g.Style().Err? then Err(g.Style().error) else Ok(g.Style().value + LineRules(lines))
  {
    var gs, ls, ts := GridElems([g]), LineElems(lines), TextElems(texts);
    StyleAllAppend(gs, ls);
    StyleAllAppend(gs + ls, ts);
    TextsHaveNoStyle(texts);
    LinesStyle(lines);
    assert gs[1..] == [];
    var gst := g.Style();
    assert StyleAll(gs) == if gst.Err? then gst else Ok(gst.value + []);
    if gst.Ok? {
      assert gst.value + [] == gst.value;
      assert StyleAll(gs + ls) == Ok(gst.value + LineRules(lines));
      assert gst.value + LineRules(lines) + [] == gst.value + LineRules(lines);
    }
  }

  /**
   * The style sheet of an axes: the grid rule decides whether it fails;
   * otherwise it is the axes rule, the grid rule, then one rule per line in
   * line order, and the texts add nothing.
   */
  lemma AxesStyleRules(a: Axes)
    requires |a.grids| == 1
    ensures a.grids[0].Style().Err? ==> a.Style() == Err(a.grids[0].Style().error)
    ensures a.grids[0].Style().Ok? ==>
              a.Style() == Ok([AxesRule(a.FigId(), a.axid, a.FontSize())] + a.grids[0].Style().value + LineRules(a.lines))
  {
    var g := a.grids[0];
    assert a.grids == [g];
    assert a.Elements() == GridElems([g]) + LineElems(a.lines) + TextElems(a.texts);
    ElementsStyle(g, a.lines, a.texts);
    if g.Style().Ok? {
      var head := [AxesRule(a.FigId(), a.axid, a.FontSize())];
      assert head + (g.Style().value + LineRules(a.lines)) == head + g.Style().value + LineRules(a.lines);
    }
  }

  /** An axes rule, grid rules, then line rules: sorted by phase. */
  lemma StyleShapeOrdered(figid: string, axid: string, fontsize: real, gr: seq<Instr>, lr: seq<Instr>)
    requires AllInPhase(gr, 1) && AllInPhase(lr, 2)
    ensures PhaseOrdered([AxesRule(figid, axid, fontsize)] + gr + lr)
  {
    var s0 := [AxesRule(figid, axid, fontsize)];
    assert OrderedUpTo(s0, 0);
    AppendPhase(s0, gr, 0, 1);
    AppendPhase(s0 + gr, lr, 1, 2);
  }

  /**
   * The style sheet of an axes fails exactly when neither axis has a grid
   * line, and when it does not fail it is sorted by phase.
   */
  lemma AxesStyleSections(a: Axes)
    requires |a.grids| == 1 && a.grids[0].ax == a.ax
    ensures a.Style().Err? <==> a.ax.xGridlines == [] && a.ax.yGridlines == []
    ensures a.Style().Ok? ==> PhaseOrdered(a.Style().value)
  {
    AxesStyleRules(a);
    var gst := a.grids[0].Style();
    if gst.Ok? {
      LineRulesInPhase(a.lines);
      StyleShapeOrdered(a.FigId(), a.axid, a.FontSize(), gst.value, LineRules(a.lines));
    }
  }

  lemma AxesStylesFail(axs: seq<Axes>)
    requires forall i :: 0 <= i < |axs| ==> axs[i].Valid()
    ensures AxesStyles(axs).Err? <==>
              exists i :: 0 <= i < |axs| && axs[i].ax.xGridlines == [] && axs[i].ax.yGridlines == []
  {
    AxesStylesOk(axs);
    forall i | 0 <= i < |axs|
      ensures axs[i].Style().Err? <==> axs[i].ax.xGridlines == [] && axs[i].ax.yGridlines == []
    {
      AxesStyleSections(axs[i]);
    }
  }

  /**
   * The page of a figure can only fail in its style sheet, and does so
   * exactly when some axes has no grid line on either axis.
   */
  lemma FigureHtmlFails(f: Figure)
    requires f.Valid()
    ensures f.Html().Err? <==> f.Style().Err?
    ensures f.Style().Err? <==>
              exists i :: 0 <= i < |f.fig.axes| && f.fig.axes[i].xGridlines == [] && f.fig.axes[i].yGridlines == []
    ensures f.Html().Ok? ==> f.Html().value[0] == D3Import && f.Html().value[|f.Html().value| - 1] == FigureMount(f.figid)
  {
    AxesStylesFail(f.axes);
  }

  // ---------------------------------------------------------------------
  // The figure is its axes, in order

  lemma {:induction false} AxesHtmlAppend(a: seq<Axes>, b: seq<Axes>)
    ensures AxesHtml(a + b) == AxesHtml(a) + AxesHtml(b)
    decreases |a|
  {
    if a == [] {
      assert a + b == b;
    } else {
      var ab := a + b;
      assert ab[0] == a[0] && ab[1..] == a[1..] + b;
      AxesHtmlAppend(a[1..], b);
      Reassociate(AxesHtml(ab), AxesHtml(a), a[0].Html(), AxesHtml(a[1..]), AxesHtml(b));
    }
  }


  /** The script of the i-th axes sits between those of the axes before and after it. */
  lemma {:induction false} AxesHtmlSlice(axs: seq<Axes>, i: nat)
    requires i < |axs|
    ensures AxesHtml(axs) == AxesHtml(axs[..i]) + axs[i].Html() + AxesHtml(axs[i + 1..])
    decreases i
  {
    if i == 0 {
      assert axs[..0] == [];
      PrependEmpty(AxesHtml(axs), AxesHtml(axs[..0]), axs[0].Html(), AxesHtml(axs[1..]));
    } else {
      AxesHtmlSlice(axs[1..], i - 1);
      AxesHtmlShift(axs, i);
      RegroupSlice(AxesHtml(axs), AxesHtml(axs[..i]), axs[0].Html(), AxesHtml(axs[1..i]), axs[i].Html(), AxesHtml(axs[i + 1..]));
    }
  }

  /** The pieces of the slice of axs[1..] at i - 1 are those of axs at i. */
  lemma AxesHtmlShift(axs: seq<Axes>, i: nat)
    requires 0 < i < |axs|
    ensures AxesHtml(axs[1..][..i - 1]) == AxesHtml(axs[1..i])
    ensures AxesHtml(axs[1..][i..]) == AxesHtml(axs[i + 1..])
    ensures axs[1..][i - 1] == axs[i]
    ensures AxesHtml(axs[..i]) == axs[0].Html() + AxesHtml(axs[1..i])
  {
    assert axs[1..][..i - 1] == axs[1..i];
    assert axs[1..][i..] == axs[i + 1..];
    assert axs[..i][0] == axs[0] && axs[..i][1..] == axs[1..i];
  }



  lemma {:induction false} AxesStylesAppend(a: seq<Axes>, b: seq<Axes>)
    ensures AxesStyles(a + b).Ok? <==> AxesStyles(a).Ok? && AxesStyles(b).Ok?
    ensures AxesStyles(a + b).Ok? ==> AxesStyles(a + b).value == AxesStyles(a).value + AxesStyles(b).value
    decreases |a|
  {
    if a == [] {
      assert a + b == b;
    } else {
      assert (a + b)[0] == a[0];
      assert (a + b)[1..] == a[1..] + b;
      AxesStylesAppend(a[1..], b);
      if AxesStyles(a + b).Ok? {
        var f := a[0].Style().value;
        assert AxesStyles(a + b).value == f + AxesStyles(a[1..] + b).value;
        assert f + (AxesStyles(a[1..]).value + AxesStyles(b).value) == (f + AxesStyles(a[1..]).value) + AxesStyles(b).value;
      }
    }
  }

  /** The style sheet of a figure exists iff every axes' style rules do. */
  lemma {:induction false} AxesStylesOk(axs: seq<Axes>)
    ensures AxesStyles(axs).Ok? <==> forall i :: 0 <= i < |axs| ==> axs[i].Style().Ok?
    decreases |axs|
  {
    if axs != [] {
      AxesStylesOk(axs[1..]);
      if forall i :: 0 <= i < |axs| ==> axs[i].Style().Ok? {
        forall i | 0 <= i < |axs[1..]|
          ensures axs[1..][i].Style().Ok?
        {
          assert axs[1..][i] == axs[i + 1];
        }
      }
      if AxesStyles(axs).Ok? {
        forall i | 0 <= i < |axs|
          ensures axs[i].Style().Ok?
        {
          if i > 0 {
            assert axs[i] == axs[1..][i - 1];
          }
        }
      }
    }
  }

  /** The rules of the i-th axes sit between those of the axes before and after it. */
  lemma {:induction false} AxesStylesSlice(axs: seq<Axes>, i: nat)
    requires i < |axs| && AxesStyles(axs).Ok?
    ensures AxesStyles(axs[..i]).Ok? && axs[i].Style().Ok? && AxesStyles(axs[i + 1..]).Ok?
    ensures AxesStyles(axs).value ==
              AxesStyles(axs[..i]).value + axs[i].Style().value + AxesStyles(axs[i + 1..]).value
    decreases i
  {
    if i == 0 {
      assert axs[..0] == [];
      assert AxesStyles(axs).value == [] + axs[0].Style().value + AxesStyles(axs[1..]).value;
    } else {
      AxesStylesSlice(axs[1..], i - 1);
      AxesStylesShift(axs, i);
      RegroupSlice(AxesStyles(axs).value, AxesStyles(axs[..i]).value, axs[0].Style().value,
                   AxesStyles(axs[1..i]).value, axs[i].Style().value, AxesStyles(axs[i + 1..]).value);
    }
  }

  /** The pieces of the slice of axs[1..] at i - 1 are those of axs at i. */
  lemma AxesStylesShift(axs: seq<Axes>, i: nat)
    requires 0 < i < |axs|
    ensures AxesStyles(axs[1..][..i - 1]) == AxesStyles(axs[1..i])
    ensures AxesStyles(axs[1..][i..]) == AxesStyles(axs[i + 1..])
    ensures axs[1..][i - 1] == axs[i]
    ensures AxesStyles(axs[..i]).Ok? <==> axs[0].Style().Ok? && AxesStyles(axs[1..i]).Ok?
    ensures AxesStyles(axs[..i]).Ok? ==> AxesStyles(axs[..i]).value == axs[0].Style().value + AxesStyles(axs[1..i]).value
  {
    assert axs[1..][..i - 1] == axs[1..i];
    assert axs[1..][i..] == axs[i + 1..];
    assert axs[..i][0] == axs[0] && axs[..i][1..] == axs[1..i];
  }

  /**
   * A figure's style sheet is each axes' rules in the order of the axes,
   * so none is dropped, duplicated or reordered.
   */
  lemma FigureStyleContents(f: Figure, i: nat)
    requires f.Valid() && i < |f.axes| && f.Style().Ok?
    ensures f.axes[i].ax == f.fig.axes[i] && f.axes[i].axid == IndexedId(f.figid, i + 1)
    ensures AxesStyles(f.axes[..i]).Ok? && f.axes[i].Style().Ok? && AxesStyles(f.axes[i + 1..]).Ok?
    ensures f.Style().value ==
              [StyleOpen] + AxesStyles(f.axes[..i]).value + f.axes[i].Style().value
              + AxesStyles(f.axes[i + 1..]).value + [StyleClose]
  {
    AxesStylesSlice(f.axes, i);
    StyleJoin(f.Style().value, AxesStyles(f.axes[..i]).value, f.axes[i].Style().value, AxesStyles(f.axes[i + 1..]).value);
  }

  /**
   * A figure's page is the d3 import, its style sheet, the figure element,
   * the scripts of its axes and the mounting call.
   */
  lemma FigurePage(f: Figure)
    requires f.Html().Ok?
    ensures f.Html().value ==
              [D3Import] + f.Style().value + [FigureOpen(f.figid, f.fig.width, f.fig.height, f.fig.dpi)]
              + AxesHtml(f.axes) + [FigureMount(f.figid)]
  {
    PageSlots(f.Html().value, f.Style().value, FigureOpen(f.figid, f.fig.width, f.fig.height, f.fig.dpi),
              AxesHtml(f.axes), FigureMount(f.figid));
  }

  /** In the page, the scripts of the axes appear in the order of the axes. */
  lemma FigureHtmlContents(f: Figure, i: nat)
    requires i < |f.axes| && f.Html().Ok?
    ensures f.Html().value ==
              [D3Import] + f.Style().value + [FigureOpen(f.figid, f.fig.width, f.fig.height, f.fig.dpi)]
              + AxesHtml(f.axes[..i]) + f.axes[i].Html() + AxesHtml(f.axes[i + 1..]) + [FigureMount(f.figid)]
  {
    FigurePage(f);
    AxesHtmlSlice(f.axes, i);
    PageJoin(f.Html().value, [D3Import] + f.Style().value + [FigureOpen(f.figid, f.fig.width, f.fig.height, f.fig.dpi)],
             AxesHtml(f.axes), AxesHtml(f.axes[..i]), f.axes[i].Html(), AxesHtml(f.axes[i + 1..]), [FigureMount(f.figid)]);
  }

  // ---------------------------------------------------------------------
  // Regrouping concatenations
  //
  // These lemmas only restate the associativity of sequence concatenation
  // for particular shapes. They say nothing about the builder: the lemmas
  // above pass their heap-dependent terms to them as plain sequences, so
  // that the solver proves each regrouping without unfolding the scripts.

  lemma Regroup<T>(s: seq<T>, d: seq<T>, zs: seq<T>, r: seq<T>, z: seq<T>, ze: seq<T>,
                   g: seq<T>, l: seq<T>, t: seq<T>, gu: seq<T>, lu: seq<T>)
    requires d == g + l + t && z == gu + lu
    ensures s + d + zs + r + z + ze == s + g + l + t + zs + r + gu + lu + ze
  {
  }

  lemma Reassociate(whole: seq<Instr>, left: seq<Instr>, h: seq<Instr>, m: seq<Instr>, t: seq<Instr>)
    requires whole == h + (m + t) && left == h + m
    ensures whole == left + t
  {
  }

  lemma PrependEmpty(whole: seq<Instr>, e: seq<Instr>, h: seq<Instr>, t: seq<Instr>)
    requires e == [] && whole == h + t
    ensures whole == e + h + t
  {
  }

  lemma RegroupSlice(whole: seq<Instr>, left: seq<Instr>, h0: seq<Instr>, pre: seq<Instr>, hi: seq<Instr>, post: seq<Instr>)
    requires whole == h0 + (pre + hi + post) && left == h0 + pre
    ensures whole == left + hi + post
  {
  }

  lemma StyleJoin(v: seq<Instr>, pre: seq<Instr>, mid: seq<Instr>, post: seq<Instr>)
    requires |v| >= 2 && v[0] == StyleOpen && v[|v| - 1] == StyleClose && v[1..|v| - 1] == pre + mid + post
    ensures v == [StyleOpen] + pre + mid + post + [StyleClose]
  {
    assert v == [v[0]] + v[1..|v| - 1] + [v[|v| - 1]];
  }

  lemma PageJoin(v: seq<Instr>, head: seq<Instr>, scripts: seq<Instr>, pre: seq<Instr>, mid: seq<Instr>, post: seq<Instr>, tail: seq<Instr>)
    requires v == head + scripts + tail && scripts == pre + mid + post
    ensures v == head + pre + mid + post + tail
  {
  }

  lemma PageSlots(v: seq<Instr>, st: seq<Instr>, open: Instr, scripts: seq<Instr>, mount: Instr)
    requires |v| == |st| + |scripts| + 3
    requires v[0] == D3Import && v[1..|st| + 1] == st && v[|st| + 1] == open
    requires v[|st| + 2..|v| - 1] == scripts && v[|v| - 1] == mount
    ensures v == [D3Import] + st + [open] + scripts + [mount]
  {
    assert v == [v[0]] + v[1..|st| + 1] + [v[|st| + 1]] + v[|st| + 2..|v| - 1] + [v[|v| - 1]];
  }
}
