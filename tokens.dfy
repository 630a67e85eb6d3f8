/**
 * Data-source and archive specifications (`Rrd::NormalDataSource` and its four
 * subclasses, `Rrd::Compute`, `Rrd::Archive` and its four subclasses) and
 * their `to_s`, which renders the `DS:` and `RRA:` arguments of
 * `rrdtool create`.
 *
 * Every field holds the text that the Ruby string interpolation writes for it:
 * an absent heartbeat is the empty text (`"#{nil}"`), absent min and max are
 * `U`, an absent xff is `0.5`, absent steps and rows are empty.
 */
module Tokens {
  import opened Wrappers
  import opened Text

  /** The subclass of `NormalDataSource`, i.e. the symbol it passes as its type. */
  datatype DsKind = Gauge | Counter | Derive | Absolute

  function KindSymbol(k: DsKind): string {
    match k
    case Gauge => "gauge"
    case Counter => "counter"
    case Derive => "derive"
    case Absolute => "absolute"
  }

  /** The subclass of `Archive`: the consolidation function. */
  datatype Cf = Average | Min | Max | Last

  function CfSymbol(cf: Cf): string {
    match cf
    case Average => "average"
    case Min => "min"
    case Max => "max"
    case Last => "last"
  }

  /** The options hash of a normal data source: `:heartbeat`, `:min`, `:max`. */
  datatype DsOptions = DsOptions(heartbeat: Option<string>, min: Option<string>, max: Option<string>)

  /** The options hash of an archive: `:xff`, `:steps`, `:rows`. */
  datatype ArchiveOptions = ArchiveOptions(xff: Option<string>, steps: Option<string>, rows: Option<string>)

  datatype DataSource =
    | Normal(name: string, kind: DsKind, heartbeat: string, min: string, max: string)
    | Computed(name: string, rpn: string)
  {
    /** `to_s`: the `DS:` argument. */
    function Token(): string {
      match this
      case Normal(name, kind, heartbeat, min, max) =>
        "DS:" + name + ":" + Upper(KindSymbol(kind)) + ":" + heartbeat + ":" + min + ":" + max
      case Computed(name, rpn) =>
        "DS:" + name + ":COMPUTE:" + rpn
    }
  }

  datatype Archive = Archive(cf: Cf, xff: string, steps: string, rows: string)
  {
    /** `to_s`: the `RRA:` argument. */
    function Token(): string {
      "RRA:" + Upper(CfSymbol(cf)) + ":" + xff + ":" + steps + ":" + rows
    }
  }

  /** `Gauge.new(name, options)` and its siblings: the defaults are applied here. */
  function NewNormal(name: string, kind: DsKind, options: DsOptions): DataSource {
    Normal(name, kind, options.heartbeat.GetOr(""), options.min.GetOr("U"), options.max.GetOr("U"))
  }

  /** `Average.new(options)` and its siblings. */
  function NewArchive(cf: Cf, options: ArchiveOptions): Archive {
    Archive(cf, options.xff.GetOr("0.5"), options.steps.GetOr(""), options.rows.GetOr(""))
  }

  /** The type names the engine reads in a `DS:` argument. */
  lemma KindNames()
    ensures Upper(KindSymbol(Gauge)) == "GAUGE"
    ensures Upper(KindSymbol(Counter)) == "COUNTER"
    ensures Upper(KindSymbol(Derive)) == "DERIVE"
    ensures Upper(KindSymbol(Absolute)) == "ABSOLUTE"
  {
    assert Upper("gauge") == "GAUGE" by { UpperPointwise("gauge"); }
    assert Upper("counter") == "COUNTER" by { UpperPointwise("counter"); }
    assert Upper("derive") == "DERIVE" by { UpperPointwise("derive"); }
    assert Upper("absolute") == "ABSOLUTE" by { UpperPointwise("absolute"); }
  }

  /** The consolidation functions the engine reads in an `RRA:` argument. */
  lemma CfNames()
    ensures Upper(CfSymbol(Average)) == "AVERAGE"
    ensures Upper(CfSymbol(Min)) == "MIN"
    ensures Upper(CfSymbol(Max)) == "MAX"
    ensures Upper(CfSymbol(Last)) == "LAST"
  {
    assert Upper("average") == "AVERAGE" by { UpperPointwise("average"); }
    assert Upper("min") == "MIN" by { UpperPointwise("min"); }
    assert Upper("max") == "MAX" by { UpperPointwise("max"); }
    assert Upper("last") == "LAST" by { UpperPointwise("last"); }
  }

  lemma SymbolsAvoidColon(k: DsKind, cf: Cf)
    ensures ':' !in Upper(KindSymbol(k)) && ':' !in Upper(CfSymbol(cf))
  {
    UpperKeeps(KindSymbol(k), ':');
    UpperKeeps(CfSymbol(cf), ':');
  }

  /** A normal data source reaches the engine as exactly the six fields
      `DS`, name, upper-cased type, heartbeat, min, max, with an absent
      heartbeat empty and absent bounds `U`. */
  lemma NormalTokenFields(name: string, kind: DsKind, options: DsOptions)
    requires ':' !in name
    requires ':' !in options.heartbeat.GetOr("") && ':' !in options.min.GetOr("U")
    requires ':' !in options.max.GetOr("U")
    ensures Split(NewNormal(name, kind, options).Token(), ':')
         == ["DS", name, Upper(KindSymbol(kind)), options.heartbeat.GetOr(""),
             options.min.GetOr("U"), options.max.GetOr("U")]
  {
    var ds := NewNormal(name, kind, options);
    var parts := ["DS", name, Upper(KindSymbol(kind)), ds.heartbeat, ds.min, ds.max];
    SymbolsAvoidColon(kind, Average);
    NormalTokenIsJoin(ds);
    SplitJoin(parts, ':');
  }

  lemma NormalTokenIsJoin(ds: DataSource)
    requires ds.Normal?
    ensures ds.Token() == Join(["DS", ds.name, Upper(KindSymbol(ds.kind)), ds.heartbeat, ds.min, ds.max], ':')
  {
    Join6("DS", ds.name, Upper(KindSymbol(ds.kind)), ds.heartbeat, ds.min, ds.max, ':');
  }

  /** A computed data source reaches the engine as `DS`, name, `COMPUTE`, expression. */
  lemma ComputedTokenFields(name: string, rpn: string)
    requires ':' !in name && ':' !in rpn
    ensures Split(Computed(name, rpn).Token(), ':') == ["DS", name, "COMPUTE", rpn]
  {
    ComputedTokenIsJoin(name, rpn);
    SplitJoin(["DS", name, "COMPUTE", rpn], ':');
  }

  lemma ComputedTokenIsJoin(name: string, rpn: string)
    ensures Computed(name, rpn).Token() == Join(["DS", name, "COMPUTE", rpn], ':')
  {
    Join4("DS", name, "COMPUTE", rpn, ':');
  }

  /** An archive reaches the engine as `RRA`, upper-cased function, xff,
      steps, rows, with an absent xff `0.5`. */
  lemma ArchiveTokenFields(cf: Cf, options: ArchiveOptions)
    requires ':' !in options.xff.GetOr("0.5") && ':' !in options.steps.GetOr("")
    requires ':' !in options.rows.GetOr("")
    ensures Split(NewArchive(cf, options).Token(), ':')
         == ["RRA", Upper(CfSymbol(cf)), options.xff.GetOr("0.5"), options.steps.GetOr(""),
             options.rows.GetOr("")]
  {
    var a := NewArchive(cf, options);
    SymbolsAvoidColon(Gauge, cf);
    ArchiveTokenIsJoin(a);
    SplitJoin(["RRA", Upper(CfSymbol(cf)), a.xff, a.steps, a.rows], ':');
  }

  lemma ArchiveTokenIsJoin(a: Archive)
    ensures a.Token() == Join(["RRA", Upper(CfSymbol(a.cf)), a.xff, a.steps, a.rows], ':')
  {
    Join5("RRA", Upper(CfSymbol(a.cf)), a.xff, a.steps, a.rows, ':');
  }
}
