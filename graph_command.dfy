/**
 * The graph side of the newer library (`Rrd4r::Graph`): `DEF:`, `LINE` and
 * `AREA` elements, the graph builder, and the argument list of
 * `rrdtool graph` that `to_image` assembles.
 */
module GraphCommand {
  import opened Wrappers
  import opened Text

  // ---------------------------------------------------------------------------
  // DEF

  /** The optional settings of a `DEF`, as the text they interpolate to. */
  datatype DefOptions = DefOptions(step: Option<string>, start: Option<string>, end: Option<string>, reduce: Option<string>)

  /** A text appended only when the option is set. */
  function Suffix(prefix: string, value: Option<string>): string {
    if value.Some? then prefix + value.value else ""
  }

  /** `Graph::Def`: a variable name bound to one data source of a database
      (its path and name) under a consolidation function. */
  datatype DataDef = DataDef(vname: string, rrdPath: string, dsName: string, cf: string, options: DefOptions)
  {
    /** `Def#to_s`. */
    function Token(): string {
      "DEF:" + vname + "=" + rrdPath + ":" + dsName + ":" + cf
      + Suffix(":step=", options.step) + Suffix(":start=", options.start)
      + Suffix(":end=", options.end) + Suffix(":reduce=", options.reduce)
    }
  }

  /** `Def.new(vname, data_source, cf, options)`: the function is upper-cased. */
  function NewDef(vname: string, rrdPath: string, dsName: string, cf: string, options: DefOptions): DataDef {
    DataDef(vname, rrdPath, dsName, Upper(cf), options)
  }

  /** A `name=value` field present only when the option is set. */
  function Setting(name: string, value: Option<string>): seq<string> {
    if value.Some? then [name + "=" + value.value] else []
  }

  function DefSettings(o: DefOptions): seq<string> {
    Setting("step", o.step) + Setting("start", o.start) + Setting("end", o.end) + Setting("reduce", o.reduce)
  }

  predicate SettingsPlain(o: DefOptions) {
    && ':' !in o.step.GetOr("") && ':' !in o.start.GetOr("")
    && ':' !in o.end.GetOr("") && ':' !in o.reduce.GetOr("")
  }

  lemma DefHead(vname: string, rrdPath: string, dsName: string, cf: string)
    ensures "DEF:" + vname + "=" + rrdPath + ":" + dsName + ":" + cf
         == Join(["DEF", vname + "=" + rrdPath, dsName, cf], ':')
  {
    Join4("DEF", vname + "=" + rrdPath, dsName, cf, ':');
    assert "DEF:" == "DEF" + [':'];
  }

  lemma JoinSetting(parts: seq<string>, name: string, prefix: string, value: Option<string>)
    requires |parts| > 0 && prefix == [':'] + name + "="
    ensures Join(parts + Setting(name, value), ':') == Join(parts, ':') + Suffix(prefix, value)
  {
    if value.Some? {
      JoinSnoc(parts, name + "=" + value.value, ':');
      assert prefix + value.value == [':'] + (name + "=" + value.value);
    } else {
      assert parts + [] == parts;
    }
  }

  lemma DefTokenIsJoin(d: DataDef)
    ensures d.Token() == Join(["DEF", d.vname + "=" + d.rrdPath, d.dsName, d.cf] + DefSettings(d.options), ':')
  {
    var o := d.options;
    var p0 := ["DEF", d.vname + "=" + d.rrdPath, d.dsName, d.cf];
    var p1 := p0 + Setting("step", o.step);
    var p2 := p1 + Setting("start", o.start);
    var p3 := p2 + Setting("end", o.end);
    DefHead(d.vname, d.rrdPath, d.dsName, d.cf);
    JoinSetting(p0, "step", ":step=", o.step);
    JoinSetting(p1, "start", ":start=", o.start);
    JoinSetting(p2, "end", ":end=", o.end);
    JoinSetting(p3, "reduce", ":reduce=", o.reduce);
    assert p3 + Setting("reduce", o.reduce) == p0 + DefSettings(o);
  }

  /** A `DEF` reaches rrdtool as the fields `DEF`, `vname=path`, data-source
      name, upper-cased function, then `step=`, `start=`, `end=`, `reduce=` in
      this order, each only when set. */
  lemma DefTokenFields(vname: string, rrdPath: string, dsName: string, cf: string, options: DefOptions)
    requires ':' !in vname && ':' !in rrdPath && ':' !in dsName && ':' !in cf
    requires SettingsPlain(options)
    ensures Split(NewDef(vname, rrdPath, dsName, cf, options).Token(), ':')
         == ["DEF", vname + "=" + rrdPath, dsName, Upper(cf)] + DefSettings(options)
  {
    var d := NewDef(vname, rrdPath, dsName, cf, options);
    UpperKeeps(cf, ':');
    DefTokenIsJoin(d);
    var parts := ["DEF", vname + "=" + rrdPath, dsName, Upper(cf)] + DefSettings(options);
    assert Avoids(parts, ':') by {
      assert ':' !in "DEF" && ':' !in "step=" && ':' !in "start=" && ':' !in "end=" && ':' !in "reduce=";
    }
    SplitJoin(parts, ':');
  }

  // ---------------------------------------------------------------------------
  // LINE and AREA

  /** A colour option: a `String` is used as given, an `Integer` is an RGBA value. */
  datatype Color = Named(text: string) | Rgba(value: nat)

  /** The colour text of a `Line`, as the code is written: `sprintf('%08x')`
      of an integer, with no `#` in front of it. */
  function LineColorAsWritten(c: Color): (r: string)
    ensures c.Rgba? ==> r == Hex08(c.value) && '#' !in r
  {
    match c
    case Named(text) => text
    case Rgba(n) =>
      HexPlain(n);
      Hex08(n)
  }

  /** The colour text of a `Line`: an integer becomes `#` and eight
      lower-case hex digits, the form rrdtool expects after the value. */
  function LineColor(c: Color): (r: string)
    ensures c.Rgba? ==> r == "#" + Hex08(c.value)
  {
    match c
    case Named(text) => text
    case Rgba(n) => "#" + Hex08(n)
  }

  /** Hex digits hold neither the colour mark nor the field separator. */
  lemma HexPlain(n: nat)
    ensures '#' !in Hex08(n) && ':' !in Hex08(n)
  {
    var h := Hex08(n);
    assert forall i :: 0 <= i < |h| ==> IsDigitIn(h[i], 16);
  }

  datatype LineOptions = LineOptions(width: Option<string>, color: Option<Color>, legend: Option<string>, stack: bool)

  /** `Area` takes its colour as given: it is only interpolated. */
  datatype AreaOptions = AreaOptions(color: Option<string>, legend: Option<string>, stack: bool)

  datatype Element =
    | Line(value: string, width: string, color: Option<string>, legend: string, stack: bool)
    | Area(value: string, color: Option<string>, legend: string, stack: bool)
  {
    /** `Line#to_s` and `Area#to_s`. */
    function Token(): string {
      match this
      case Line(value, width, color, legend, stack) =>
        "LINE" + width + ":" + value + color.GetOr("") + ":'" + legend + "'" + (if stack then ":STACK" else "")
      case Area(value, color, legend, stack) =>
        "AREA:" + value + color.GetOr("") + ":'" + legend + "'" + (if stack then ":STACK" else "")
    }
  }

  /** A `Line` built from its options, given the colour text it stores. */
  function LineWith(value: string, options: LineOptions, color: Option<string>): Element {
    Line(value, options.width.GetOr(""), color, options.legend.GetOr(value), options.stack)
  }

  /** `Line.new(value, options)` as the code is written: no width, no colour,
      and the value as the legend by default; an integer colour is stored as
      its bare hex digits. */
  function NewLine(value: string, options: LineOptions): Element {
    LineWith(value, options, if options.color.Some? then Some(LineColorAsWritten(options.color.value)) else None)
  }

  /** `Line.new(value, options)` with the colour rrdtool can read: an integer
      colour is stored as `#` and its hex digits. */
  function NewLineCorrected(value: string, options: LineOptions): Element {
    LineWith(value, options, if options.color.Some? then Some(LineColor(options.color.value)) else None)
  }

  /** `Area.new(value, options)`. */
  function NewArea(value: string, options: AreaOptions): Element {
    Area(value, options.color, options.legend.GetOr(value), options.stack)
  }

  function StackField(stack: bool): seq<string> {
    if stack then ["STACK"] else []
  }

  lemma ElementJoin(a: string, b: string, q: string, stack: bool)
    ensures a + ":" + b + ":" + q + (if stack then ":STACK" else "")
         == Join([a, b, q] + StackField(stack), ':')
  {
    Join3(a, b, q, ':');
    if stack {
      JoinSnoc([a, b, q], "STACK", ':');
      assert ":STACK" == [':'] + "STACK";
    } else {
      assert [a, b, q] + [] == [a, b, q];
    }
  }

  lemma LineTokenIsJoin(e: Element)
    requires e.Line?
    ensures e.Token() == Join(["LINE" + e.width, e.value + e.color.GetOr(""), "'" + e.legend + "'"] + StackField(e.stack), ':')
  {
    var a := "LINE" + e.width;
    var b := e.value + e.color.GetOr("");
    var q := "'" + e.legend + "'";
    ElementJoin(a, b, q, e.stack);
    assert ":'" + e.legend + "'" == ":" + q;
  }

  lemma AreaTokenIsJoin(e: Element)
    requires e.Area?
    ensures e.Token() == Join(["AREA", e.value + e.color.GetOr(""), "'" + e.legend + "'"] + StackField(e.stack), ':')
  {
    var b := e.value + e.color.GetOr("");
    var q := "'" + e.legend + "'";
    ElementJoin("AREA", b, q, e.stack);
    assert "AREA:" == "AREA" + ":";
    assert ":'" + e.legend + "'" == ":" + q;
  }

  /** The option texts of a line hold no field separator. */
  predicate LinePlain(value: string, options: LineOptions) {
    && ':' !in value && ':' !in options.width.GetOr("") && ':' !in options.legend.GetOr(value)
    && (options.color.Some? && options.color.value.Named? ==> ':' !in options.color.value.text)
  }

  lemma LineWithFields(value: string, options: LineOptions, color: Option<string>)
    requires ':' !in value && ':' !in options.width.GetOr("") && ':' !in options.legend.GetOr(value)
    requires ':' !in color.GetOr("")
    ensures Split(LineWith(value, options, color).Token(), ':')
         == ["LINE" + options.width.GetOr(""), value + color.GetOr(""), "'" + options.legend.GetOr(value) + "'"]
            + StackField(options.stack)
  {
    var e := LineWith(value, options, color);
    LineTokenIsJoin(e);
    var parts := ["LINE" + e.width, e.value + e.color.GetOr(""), "'" + e.legend + "'"] + StackField(e.stack);
    assert Avoids(parts, ':') by {
      assert ':' !in "LINE" && ':' !in "'" && ':' !in "STACK";
    }
    SplitJoin(parts, ':');
  }

  /** A `LINE` reaches rrdtool as the fields `LINE<width>`, value followed by
      its colour text, the quoted legend (the value when none is given), and
      `STACK` when stacked. */
  lemma LineTokenFields(value: string, options: LineOptions)
    requires LinePlain(value, options)
    ensures var color := if options.color.Some? then LineColorAsWritten(options.color.value) else "";
      Split(NewLine(value, options).Token(), ':')
        == ["LINE" + options.width.GetOr(""), value + color, "'" + options.legend.GetOr(value) + "'"]
           + StackField(options.stack)
  {
    if options.color.Some? && options.color.value.Rgba? {
      HexPlain(options.color.value.value);
    }
    LineWithFields(value, options, if options.color.Some? then Some(LineColorAsWritten(options.color.value)) else None);
  }

  /** The same fields with the corrected colour text. */
  lemma CorrectedLineTokenFields(value: string, options: LineOptions)
    requires LinePlain(value, options)
    ensures var color := if options.color.Some? then LineColor(options.color.value) else "";
      Split(NewLineCorrected(value, options).Token(), ':')
        == ["LINE" + options.width.GetOr(""), value + color, "'" + options.legend.GetOr(value) + "'"]
           + StackField(options.stack)
  {
    if options.color.Some? && options.color.value.Rgba? {
      HexPlain(options.color.value.value);
      assert ':' !in "#";
    }
    LineWithFields(value, options, if options.color.Some? then Some(LineColor(options.color.value)) else None);
  }

  /** An `AREA` reaches rrdtool as `AREA`, value followed by its colour, the
      quoted legend, and `STACK` when stacked. */
  lemma AreaTokenFields(value: string, options: AreaOptions)
    requires ':' !in value && ':' !in options.color.GetOr("") && ':' !in options.legend.GetOr(value)
    ensures Split(NewArea(value, options).Token(), ':')
         == ["AREA", value + options.color.GetOr(""), "'" + options.legend.GetOr(value) + "'"]
            + StackField(options.stack)
  {
    var e := NewArea(value, options);
    AreaTokenIsJoin(e);
    var parts := ["AREA", e.value + e.color.GetOr(""), "'" + e.legend + "'"] + StackField(e.stack);
    assert Avoids(parts, ':') by {
      assert ':' !in "AREA" && ':' !in "'" && ':' !in "STACK";
    }
    SplitJoin(parts, ':');
  }

  /** rrdtool separates the value from its colour at the `#`: with the
      corrected colour text an integer colour comes back as its hex digits. */
  lemma LineColorSeparates(value: string, n: nat)
    requires '#' !in value
    ensures Split(value + LineColor(Rgba(n)), '#') == [value, Hex08(n)]
  {
    HexPlain(n);
    SplitMark(value, Hex08(n));
  }

  lemma SplitMark(value: string, h: string)
    requires '#' !in value && '#' !in h
    ensures Split(value + ("#" + h), '#') == [value, h]
  {
    assert "#" == ['#'];
    Reassociate(value, ['#'], h);
    SplitAt(value, h, '#');
    SplitWithout(h, '#');
  }

  /** As written, the digits of an integer colour run into the value: there is
      no `#`, so rrdtool reads one value name that includes them. */
  lemma LineColorAsWrittenMerges(value: string, n: nat)
    requires '#' !in value
    ensures Split(value + LineColorAsWritten(Rgba(n)), '#') == [value + Hex08(n)]
  {
    SplitWithout(value + Hex08(n), '#');
  }

  /** As written, a `Line` with an integer colour hands rrdtool a second
      field holding no `#`: the colour is read as part of the value name. */
  lemma LineValueMerges(value: string, options: LineOptions, n: nat)
    requires LinePlain(value, options) && '#' !in value && options.color == Some(Rgba(n))
    ensures |Split(NewLine(value, options).Token(), ':')| >= 3
    ensures Split(Split(NewLine(value, options).Token(), ':')[1], '#') == [value + Hex08(n)]
  {
    LineTokenFields(value, options);
    LineColorAsWrittenMerges(value, n);
  }

  /** With the corrected colour, rrdtool finds the value and the colour in
      the second field of the `Line`. */
  lemma CorrectedLineValueSeparates(value: string, options: LineOptions, n: nat)
    requires LinePlain(value, options) && '#' !in value && options.color == Some(Rgba(n))
    ensures |Split(NewLineCorrected(value, options).Token(), ':')| >= 3
    ensures Split(Split(NewLineCorrected(value, options).Token(), ':')[1], '#') == [value, Hex08(n)]
  {
    CorrectedLineTokenFields(value, options);
    LineColorSeparates(value, n);
  }

  // ---------------------------------------------------------------------------
  // the builder and the graph

  /** `Graph::Builder`: the defs and the graph elements of a block, in order. */
  class GraphBuilder {
    var defs: seq<DataDef>
    var graphs: seq<Element>

    constructor ()
      ensures defs == [] && graphs == []
    {
      defs := [];
      graphs := [];
    }

    /** `def(vname, data_source, cf, options)`; the data source is given by
        its database path and its name. */
    method Def(vname: string, rrdPath: string, dsName: string, cf: string, options: DefOptions)
      modifies this
      ensures defs == old(defs) + [NewDef(vname, rrdPath, dsName, cf, options)]
      ensures graphs == old(graphs)
    {
      defs := defs + [NewDef(vname, rrdPath, dsName, cf, options)];
    }

    method Line(value: string, options: LineOptions)
      modifies this
      ensures graphs == old(graphs) + [NewLine(value, options)]
      ensures defs == old(defs)
    {
      graphs := graphs + [NewLine(value, options)];
    }

    method Area(value: string, options: AreaOptions)
      modifies this
      ensures graphs == old(graphs) + [NewArea(value, options)]
      ensures defs == old(defs)
    {
      graphs := graphs + [NewArea(value, options)];
    }
  }

  datatype GraphOptions = GraphOptions(title: Option<string>, defs: Option<seq<DataDef>>, graphs: Option<seq<Element>>)

  /** A graph as `to_image` uses it. */
  datatype Graph = Graph(title: Option<string>, defs: seq<DataDef>, graphs: seq<Element>)

  /** `Graph.create(options, &block)`: the option lists, then the builder's. */
  method Create(options: GraphOptions, builder: GraphBuilder) returns (g: Graph)
    ensures g.title == options.title
    ensures g.defs == options.defs.GetOr([]) + builder.defs
    ensures g.graphs == options.graphs.GetOr([]) + builder.graphs
  {
    var defs := options.defs.GetOr([]) + builder.defs;
    var graphs := options.graphs.GetOr([]) + builder.graphs;
    g := Graph(options.title, defs, graphs);
  }

  // ---------------------------------------------------------------------------
  // to_image

  datatype ImageOptions = ImageOptions(
    outfile: Option<string>, width: Option<string>, height: Option<string>,
    start: Option<string>, end: Option<string>, lowerLimit: Option<string>,
    colors: seq<(string, string)>)

  /** A `--flag value` argument present only when the option is set. */
  function Flag(flag: string, value: Option<string>): seq<string> {
    if value.Some? then [flag + value.value] else []
  }

  function TitleArg(title: Option<string>): seq<string> {
    if title.Some? then ["--title '" + title.value + "'"] else []
  }

  /** The arguments before the colours: the image format, then each of the
      optional settings that is given, in a fixed order. */
  function HeadArgs(imageType: string, title: Option<string>, o: ImageOptions): (r: seq<string>)
    ensures |r| >= 1 && r[0] == "--imgformat " + Upper(imageType)
  {
    ["--imgformat " + Upper(imageType)] + TitleArg(title)
    + Flag("--width ", o.width) + Flag("--height ", o.height)
    + Flag("--start ", o.start) + Flag("--end ", o.end)
    + Flag("--lower-limit ", o.lowerLimit)
  }

  function ColorArgs(colors: seq<(string, string)>): (r: seq<string>)
    ensures |r| == |colors|
    ensures forall i :: 0 <= i < |colors| ==> r[i] == "--color " + Upper(colors[i].0) + colors[i].1
  {
    seq(|colors|, i requires 0 <= i < |colors| => "--color " + Upper(colors[i].0) + colors[i].1)
  }

  function DefTokens(defs: seq<DataDef>): (r: seq<string>)
    ensures |r| == |defs| && forall i :: 0 <= i < |defs| ==> r[i] == defs[i].Token()
  {
    seq(|defs|, i requires 0 <= i < |defs| => defs[i].Token())
  }

  function ElementTokens(graphs: seq<Element>): (r: seq<string>)
    ensures |r| == |graphs| && forall i :: 0 <= i < |graphs| ==> r[i] == graphs[i].Token()
  {
    seq(|graphs|, i requires 0 <= i < |graphs| => graphs[i].Token())
  }

  lemma ColorArgsSnoc(colors: seq<(string, string)>, i: nat)
    requires i < |colors|
    ensures ColorArgs(colors[..i + 1]) == ColorArgs(colors[..i]) + ["--color " + Upper(colors[i].0) + colors[i].1]
  {
  }

  lemma DefTokensSnoc(defs: seq<DataDef>, i: nat)
    requires i < |defs|
    ensures DefTokens(defs[..i + 1]) == DefTokens(defs[..i]) + [defs[i].Token()]
  {
  }

  lemma ElementTokensSnoc(graphs: seq<Element>, i: nat)
    requires i < |graphs|
    ensures ElementTokens(graphs[..i + 1]) == ElementTokens(graphs[..i]) + [graphs[i].Token()]
  {
  }

  /** `options[:color].each { |key, value| args << "--color ..." }`. */
  method AppendColors(args: seq<string>, colors: seq<(string, string)>) returns (r: seq<string>)
    ensures r == args + ColorArgs(colors)
  {
    r := args;
    for i := 0 to |colors|
      invariant r == args + ColorArgs(colors[..i])
    {
      ColorArgsSnoc(colors, i);
      r := r + ["--color " + Upper(colors[i].0) + colors[i].1];
    }
    assert colors[..|colors|] == colors;
  }

  /** `for d in @defs; args << d.to_s; end`. */
  method AppendDefs(args: seq<string>, defs: seq<DataDef>) returns (r: seq<string>)
    ensures r == args + DefTokens(defs)
  {
    r := args;
    for i := 0 to |defs|
      invariant r == args + DefTokens(defs[..i])
    {
      DefTokensSnoc(defs, i);
      r := r + [defs[i].Token()];
    }
    assert defs[..|defs|] == defs;
  }

  /** `for g in @graphs; args << g.to_s; end`. */
  method AppendElements(args: seq<string>, graphs: seq<Element>) returns (r: seq<string>)
    ensures r == args + ElementTokens(graphs)
  {
    r := args;
    for i := 0 to |graphs|
      invariant r == args + ElementTokens(graphs[..i])
    {
      ElementTokensSnoc(graphs, i);
      r := r + [graphs[i].Token()];
    }
    assert graphs[..|graphs|] == graphs;
  }

  /** The settings `to_image` adds one by one, each only when given. */
  method AppendSettings(title: Option<string>, options: ImageOptions, format: string) returns (args: seq<string>)
    ensures args == HeadArgs(format, title, options)
  {
    args := ["--imgformat " + Upper(format)];
    if title.Some? {
      args := args + ["--title '" + title.value + "'"];
    }
    ghost var a1 := args;
    assert a1 == ["--imgformat " + Upper(format)] + TitleArg(title);
    if options.width.Some? {
      args := args + ["--width " + options.width.value];
    }
    if options.height.Some? {
      args := args + ["--height " + options.height.value];
    }
    ghost var a2 := args;
    assert a2 == a1 + Flag("--width ", options.width) + Flag("--height ", options.height);
    if options.start.Some? {
      args := args + ["--start " + options.start.value];
    }
    if options.end.Some? {
      args := args + ["--end " + options.end.value];
    }
    ghost var a3 := args;
    assert a3 == a2 + Flag("--start ", options.start) + Flag("--end ", options.end);
    if options.lowerLimit.Some? {
      args := args + ["--lower-limit " + options.lowerLimit.value];
    }
    assert args == a3 + Flag("--lower-limit ", options.lowerLimit);
  }

  /** The argument list `to_image` builds. */
  method ImageArgs(graph: Graph, imageType: string, options: ImageOptions) returns (args: seq<string>)
    ensures args == HeadArgs(imageType, graph.title, options) + ColorArgs(options.colors)
                    + DefTokens(graph.defs) + ElementTokens(graph.graphs)
  {
    args := AppendSettings(graph.title, options, imageType);
    args := AppendColors(args, options.colors);
    args := AppendDefs(args, graph.defs);
    args := AppendElements(args, graph.graphs);
  }

  /** `to_image(type, options)`: the `rrdtool graph` command line, after the
      program's path, and whether the image is read back from its output (when
      no output file is named, the image goes to `-`). */
  method ToImage(graph: Graph, imageType: string, options: ImageOptions) returns (commandLine: string, readsImage: bool)
    ensures commandLine == "graph " + options.outfile.GetOr("-") + " "
      + Join(HeadArgs(imageType, graph.title, options) + ColorArgs(options.colors)
             + DefTokens(graph.defs) + ElementTokens(graph.graphs), ' ')
    ensures readsImage <==> options.outfile.None?
  {
    var outfile := options.outfile.GetOr("-");
    var args := ImageArgs(graph, imageType, options);
    commandLine := "graph " + outfile + " " + Join(args, ' ');
    readsImage := options.outfile.None?;
  }

  /** `to_png(options)`. */
  method ToPng(graph: Graph, options: ImageOptions) returns (commandLine: string, readsImage: bool)
    ensures commandLine == "graph " + options.outfile.GetOr("-") + " "
      + Join(HeadArgs("png", graph.title, options) + ColorArgs(options.colors)
             + DefTokens(graph.defs) + ElementTokens(graph.graphs), ' ')
    ensures readsImage <==> options.outfile.None?
  {
    commandLine, readsImage := ToImage(graph, "png", options);
  }

  /** The layout of the arguments: the image format first, the optional
      settings, one `--color` per entry, every def, then every element. */
  lemma ImageArgsLayout(graph: Graph, imageType: string, options: ImageOptions)
    ensures var head := HeadArgs(imageType, graph.title, options);
            var args := head + ColorArgs(options.colors) + DefTokens(graph.defs) + ElementTokens(graph.graphs);
      && args[0] == "--imgformat " + Upper(imageType)
      && |args| == |head| + |options.colors| + |graph.defs| + |graph.graphs|
      && (forall i :: 0 <= i < |options.colors| ==>
            args[|head| + i] == "--color " + Upper(options.colors[i].0) + options.colors[i].1)
      && (forall i :: 0 <= i < |graph.defs| ==>
            args[|head| + |options.colors| + i] == graph.defs[i].Token())
      && (forall i :: 0 <= i < |graph.graphs| ==>
            args[|head| + |options.colors| + |graph.defs| + i] == graph.graphs[i].Token())
  {
    TailLayout(HeadArgs(imageType, graph.title, options), options.colors, graph.defs, graph.graphs);
  }

  /** Where the colours, the defs and the elements lie after any head. */
  lemma TailLayout(head: seq<string>, colors: seq<(string, string)>, defs: seq<DataDef>, graphs: seq<Element>)
    ensures var args := head + ColorArgs(colors) + DefTokens(defs) + ElementTokens(graphs);
      && |args| == |head| + |colors| + |defs| + |graphs|
      && (forall i :: 0 <= i < |head| ==> args[i] == head[i])
      && (forall i :: 0 <= i < |colors| ==> args[|head| + i] == "--color " + Upper(colors[i].0) + colors[i].1)
      && (forall i :: 0 <= i < |defs| ==> args[|head| + |colors| + i] == defs[i].Token())
      && (forall i :: 0 <= i < |graphs| ==> args[|head| + |colors| + |defs| + i] == graphs[i].Token())
  {
    Layout(head, ColorArgs(colors), DefTokens(defs), ElementTokens(graphs));
  }

  /** Where the parts of a four-part concatenation lie. */
  lemma Layout<T>(a: seq<T>, b: seq<T>, c: seq<T>, d: seq<T>)
    ensures var s := a + b + c + d;
      && |s| == |a| + |b| + |c| + |d|
      && (forall i :: 0 <= i < |a| ==> s[i] == a[i])
      && (forall i :: 0 <= i < |b| ==> s[|a| + i] == b[i])
      && (forall i :: 0 <= i < |c| ==> s[|a| + |b| + i] == c[i])
      && (forall i :: 0 <= i < |d| ==> s[|a| + |b| + |c| + i] == d[i])
  {
  }
}
