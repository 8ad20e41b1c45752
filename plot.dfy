/**
 * The matplotlib objects the builder reads, reduced to the values it asks
 * them for. Coordinates, sizes and opacities are carried as reals; colours,
 * dash patterns and markers as the raw values the source hands to its
 * conversion helpers.
 */
module Plot {
  import opened Base

  datatype Bounds = Bounds(x0: real, y0: real, width: real, height: real)

  datatype Limits = Limits(lo: real, hi: real)

  /** A Line2D: its data, its line style and marker (None when unset) and its styling. */
  datatype LineRec = LineRec(
    xydata: seq<(real, real)>,
    linestyle: Option<string>,
    marker: Option<string>,
    alpha: Option<real>,
    color: string,
    linewidth: real,
    dashes: string,
    markersize: real,
    markerfacecolor: string,
    markeredgecolor: string,
    markeredgewidth: real)

  /**
   * A Text: its string, the position `get_text_coordinates` reports for it,
   * its font size, colour and rotation in degrees.
   */
  datatype TextRec = TextRec(content: string, x: real, y: real, size: real, color: string, rotation: real)

  /** One grid line of an axis, as far as the grid style sheet samples it. */
  datatype GridlineRec = GridlineRec(color: string, alpha: Option<real>, dashes: string)

  /** The kinds of axes content that are recognised but not drawn. */
  datatype Kind = Images | Collections | Containers | Artists | Patches | Tables

  function KindName(k: Kind): string {
    match k
    case Images => "images"
    case Collections => "collections"
    case Containers => "containers"
    case Artists => "artists"
    case Patches => "patches"
    case Tables => "tables"
  }

  datatype AxesRec = AxesRec(
    lines: seq<LineRec>,
    texts: seq<TextRec>,
    xlabel: TextRec,
    ylabel: TextRec,
    title: TextRec,
    xGridOn: bool,            // xaxis._gridOnMajor
    yGridOn: bool,            // yaxis._gridOnMajor
    xGridlines: seq<GridlineRec>,
    yGridlines: seq<GridlineRec>,
    xTickLabelSizes: seq<real>,
    yTickLabelSizes: seq<real>,
    xlim: Limits,
    ylim: Limits,
    bounds: Bounds,
    images: nat,
    collections: nat,
    containers: nat,
    artists: nat,
    patches: nat,
    tables: nat,
    hasLegend: bool)         // legend_ is not None
  {
    /** `len(getattr(ax, attr))` for an unsupported kind. */
    function Count(k: Kind): nat {
      match k
      case Images => images
      case Collections => collections
      case Containers => containers
      case Artists => artists
      case Patches => patches
      case Tables => tables
    }
  }

  datatype FigureRec = FigureRec(axes: seq<AxesRec>, width: real, height: real, dpi: real)
}
