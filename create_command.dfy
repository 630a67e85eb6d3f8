/**
 * `Rrd::Builder` and the argument list of `rrdtool create` that `Rrd.create`
 * assembles (in both versions of the library: the trunk one, which also takes
 * a builder block, and the older one, which takes the options hash only).
 */
module CreateCommand {
  import opened Wrappers
  import opened Tokens

  /** `Rrd::Builder`: the block given to `Rrd.create` calls these methods, and
      each appends one specification of its kind, in call order. */
  class RrdBuilder {
    var dataSources: seq<DataSource>
    var archives: seq<Archive>

    constructor ()
      ensures dataSources == [] && archives == []
    {
      dataSources := [];
      archives := [];
    }

    method Gauge(name: string, options: DsOptions)
      modifies this
      ensures dataSources == old(dataSources) + [NewNormal(name, DsKind.Gauge, options)]
      ensures archives == old(archives)
    {
      dataSources := dataSources + [NewNormal(name, DsKind.Gauge, options)];
    }

    method Counter(name: string, options: DsOptions)
      modifies this
      ensures dataSources == old(dataSources) + [NewNormal(name, DsKind.Counter, options)]
      ensures archives == old(archives)
    {
      dataSources := dataSources + [NewNormal(name, DsKind.Counter, options)];
    }

    method Derive(name: string, options: DsOptions)
      modifies this
      ensures dataSources == old(dataSources) + [NewNormal(name, DsKind.Derive, options)]
      ensures archives == old(archives)
    {
      dataSources := dataSources + [NewNormal(name, DsKind.Derive, options)];
    }

    method Absolute(name: string, options: DsOptions)
      modifies this
      ensures dataSources == old(dataSources) + [NewNormal(name, DsKind.Absolute, options)]
      ensures archives == old(archives)
    {
      dataSources := dataSources + [NewNormal(name, DsKind.Absolute, options)];
    }

    method Compute(name: string, rpnExpression: string)
      modifies this
      ensures dataSources == old(dataSources) + [Computed(name, rpnExpression)]
      ensures archives == old(archives)
    {
      dataSources := dataSources + [Computed(name, rpnExpression)];
    }

    method Average(options: ArchiveOptions)
      modifies this
      ensures archives == old(archives) + [NewArchive(Cf.Average, options)]
      ensures dataSources == old(dataSources)
    {
      archives := archives + [NewArchive(Cf.Average, options)];
    }

    method Min(options: ArchiveOptions)
      modifies this
      ensures archives == old(archives) + [NewArchive(Cf.Min, options)]
      ensures dataSources == old(dataSources)
    {
      archives := archives + [NewArchive(Cf.Min, options)];
    }

    method Max(options: ArchiveOptions)
      modifies this
      ensures archives == old(archives) + [NewArchive(Cf.Max, options)]
      ensures dataSources == old(dataSources)
    {
      archives := archives + [NewArchive(Cf.Max, options)];
    }

    method Last(options: ArchiveOptions)
      modifies this
      ensures archives == old(archives) + [NewArchive(Cf.Last, options)]
      ensures dataSources == old(dataSources)
    {
      archives := archives + [NewArchive(Cf.Last, options)];
    }
  }

  /** The options hash of `Rrd.create`: `:data_sources`, `:archives`,
      `:start`, `:step` (each may be absent). */
  datatype CreateOptions = CreateOptions(
    dataSources: Option<seq<DataSource>>,
    archives: Option<seq<Archive>>,
    start: Option<string>,
    step: Option<string>)

  /** The two `RuntimeError`s that `Rrd.create` raises. */
  datatype CreateError =
    | NoDataSources   // "at least 1 data-source must be supplied"
    | NoArchives      // "at least 1 archive must be supplied"

  /** `flag value` as two arguments when the option is given, nothing otherwise. */
  function OptionalArg(flag: string, value: Option<string>): seq<string> {
    if value.Some? then [flag, value.value] else []
  }

  function DsTokens(dataSources: seq<DataSource>): (r: seq<string>)
    ensures |r| == |dataSources|
    ensures forall i :: 0 <= i < |r| ==> r[i] == dataSources[i].Token()
  {
    seq(|dataSources|, i requires 0 <= i < |dataSources| => dataSources[i].Token())
  }

  function RraTokens(archives: seq<Archive>): (r: seq<string>)
    ensures |r| == |archives|
    ensures forall i :: 0 <= i < |r| ==> r[i] == archives[i].Token()
  {
    seq(|archives|, i requires 0 <= i < |archives| => archives[i].Token())
  }

  lemma DsTokensSnoc(dataSources: seq<DataSource>, i: nat)
    requires i < |dataSources|
    ensures DsTokens(dataSources[..i + 1]) == DsTokens(dataSources[..i]) + [dataSources[i].Token()]
  {
    assert dataSources[..i + 1][..i] == dataSources[..i];
  }

  lemma RraTokensSnoc(archives: seq<Archive>, i: nat)
    requires i < |archives|
    ensures RraTokens(archives[..i + 1]) == RraTokens(archives[..i]) + [archives[i].Token()]
  {
    assert archives[..i + 1][..i] == archives[..i];
  }

  /** The loop of `Rrd.create` that appends every data-source token. */
  method AppendDsTokens(args: seq<string>, dataSources: seq<DataSource>) returns (r: seq<string>)
    ensures r == args + DsTokens(dataSources)
  {
    r := args;
    for i := 0 to |dataSources|
      invariant r == args + DsTokens(dataSources[..i])
    {
      DsTokensSnoc(dataSources, i);
      r := r + [dataSources[i].Token()];
    }
    assert dataSources[..|dataSources|] == dataSources;
  }

  /** The loop of `Rrd.create` that appends every archive token. */
  method AppendRraTokens(args: seq<string>, archives: seq<Archive>) returns (r: seq<string>)
    ensures r == args + RraTokens(archives)
  {
    r := args;
    for i := 0 to |archives|
      invariant r == args + RraTokens(archives[..i])
    {
      RraTokensSnoc(archives, i);
      r := r + [archives[i].Token()];
    }
    assert archives[..|archives|] == archives;
  }

  /** The argument list of `rrdtool create`: the path, `--start` and
      `--step` when given, every data-source token in order, then every
      archive token in order. Without data sources the data-source error is
      raised, whether or not archives are missing too, and without archives
      the archive error; in both cases nothing is run. */
  method CreateArgs(path: string, start: Option<string>, step: Option<string>,
                    dataSources: seq<DataSource>, archives: seq<Archive>)
    returns (r: Result<seq<string>, CreateError>)
    ensures |dataSources| == 0 ==> r == Failure(NoDataSources)
    ensures |dataSources| > 0 && |archives| == 0 ==> r == Failure(NoArchives)
    ensures |dataSources| > 0 && |archives| > 0 ==>
      r == Success([path] + OptionalArg("--start", start) + OptionalArg("--step", step)
                   + DsTokens(dataSources) + RraTokens(archives))
  {
    var args := [path];
    if start.Some? {
      args := args + ["--start"];
      args := args + [start.value];
    }
    if step.Some? {
      args := args + ["--step"];
      args := args + [step.value];
    }
    assert args == [path] + OptionalArg("--start", start) + OptionalArg("--step", step);
    if |dataSources| == 0 {
      return Failure(NoDataSources);
    }
    args := AppendDsTokens(args, dataSources);
    if |archives| == 0 {
      return Failure(NoArchives);
    }
    args := AppendRraTokens(args, archives);
    return Success(args);
  }

  /** `Rrd.create(path, options) { |builder| ... }` (trunk): the
      option-supplied data sources and archives come before the builder's. */
  method Create(path: string, options: CreateOptions, builder: RrdBuilder)
    returns (r: Result<seq<string>, CreateError>)
    ensures var dataSources := options.dataSources.GetOr([]) + builder.dataSources;
            var archives := options.archives.GetOr([]) + builder.archives;
            && (|dataSources| == 0 ==> r == Failure(NoDataSources))
            && (|dataSources| > 0 && |archives| == 0 ==> r == Failure(NoArchives))
            && (|dataSources| > 0 && |archives| > 0 ==>
                  r == Success([path] + OptionalArg("--start", options.start)
                               + OptionalArg("--step", options.step)
                               + DsTokens(dataSources) + RraTokens(archives)))
  {
    var dataSources := options.dataSources.GetOr([]) + builder.dataSources;
    var archives := options.archives.GetOr([]) + builder.archives;
    r := CreateArgs(path, options.start, options.step, dataSources, archives);
  }

  /** `Rrd.create(path, options)` (older library): the lists come from the
      options only; an absent list is refused like an empty one. */
  method CreateFromOptions(path: string, options: CreateOptions)
    returns (r: Result<seq<string>, CreateError>)
    ensures options.dataSources.None? || options.dataSources == Some([]) ==> r == Failure(NoDataSources)
    ensures (&& options.dataSources.Some? && |options.dataSources.value| > 0
             && (options.archives.None? || options.archives == Some([]))) ==> r == Failure(NoArchives)
    ensures (&& options.dataSources.Some? && |options.dataSources.value| > 0
             && options.archives.Some? && |options.archives.value| > 0) ==>
              r == Success([path] + OptionalArg("--start", options.start)
                           + OptionalArg("--step", options.step)
                           + DsTokens(options.dataSources.value)
                           + RraTokens(options.archives.value))
  {
    if options.dataSources.None? {
      return Failure(NoDataSources);
    }
    if options.archives.None? {
      if |options.dataSources.value| == 0 {
        return Failure(NoDataSources);
      }
      return Failure(NoArchives);
    }
    r := CreateArgs(path, options.start, options.step, options.dataSources.value, options.archives.value);
  }
}
