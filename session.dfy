/**
 * An open round-robin database (`Rrd4r::Rrd`): its path, the pipe to the
 * rrdtool process, and what `load_rrd_info` learnt from `rrdtool info` —
 * the step, the data sources in order and by name, the archives in order.
 */
module Session {
  import opened Wrappers
  import opened Text
  import opened Tokens
  import opened Pipe
  import opened InfoLines
  import opened InfoParser
  import opened UpdateCommand

  /** What a database knows before its info is loaded. */
  function Unloaded(): InfoState {
    InfoState(None, DsTable([], map[]), [])
  }

  class Rrd {
    const path: string
    const io: Connection
    var step: Option<nat>
    var dsOrdered: seq<DataSource>
    var dsByName: map<string, DataSource>
    var rraOrdered: seq<Archive>

    /** The loaded information as a value. */
    function State(): InfoState
      reads this
    {
      InfoState(step, DsTable(dsOrdered, dsByName), rraOrdered)
    }

    /** The by-name table is the ordered list, each name mapped to its last
        data source. */
    predicate Valid()
      reads this
    {
      dsByName == ByName(dsOrdered)
    }

    /** The assignments of `initialize`, before the info is loaded. */
    constructor (path: string, io: Connection)
      ensures this.path == path && this.io == io
      ensures State() == Unloaded() && Valid()
    {
      this.path := path;
      this.io := io;
      step := None;
      dsOrdered := [];
      dsByName := map[];
      rraOrdered := [];
    }

    /** `Rrd.open(path)`, that is `Rrd.new(path)`: the fields are set, then
        the info is loaded; an exception while reading it makes `new` raise,
        an `ERROR:` reply leaves the database empty. */
    static method Open(path: string, io: Connection) returns (r: Result<Rrd, InfoError>)
      requires HasEnd(io.pending)
      modifies io
      ensures io.sent == old(io.sent) + [CommandLine("info", [path])]
      ensures io.pending == old(io.pending)[EndIndex(old(io.pending)) + 1..]
      ensures r.Success? ==> fresh(r.value) && r.value.path == path && r.value.io == io && r.value.Valid()
      ensures Frame(old(io.pending)).error.Some? ==> r.Success? && r.value.State() == Unloaded()
      ensures Frame(old(io.pending)).error.None? ==>
        var loaded := LoadInfo(Unloaded(), EachLine(Frame(old(io.pending)).body));
        && (loaded.Success? ==> r.Success? && r.value.State() == loaded.value)
        && (loaded.Failure? ==> r == Failure(loaded.error))
    {
      var rrd := new Rrd(path, io);
      var err := rrd.LoadRrdInfo();
      if err.Some? {
        return Failure(err.value);
      }
      return Success(rrd);
    }

    /** `self[name]`: the data source of that name, the last one loaded when
        the info names it more than once. */
    function DataSourceNamed(name: string): (r: Option<DataSource>)
      reads this
      ensures Valid() ==> (r.Some? <==> exists i :: 0 <= i < |dsOrdered| && dsOrdered[i].name == name)
      ensures Valid() && r.Some? ==>
        exists i :: 0 <= i < |dsOrdered| && dsOrdered[i] == r.value
          && forall j :: i < j < |dsOrdered| ==> dsOrdered[j].name != name
    {
      ByNameLast(dsOrdered, name);
      if name in dsByName then Some(dsByName[name]) else None
    }

    /** `_add_ds(group)`: raises, changing nothing, or appends the source to
        the list and enters it in the table. */
    method AddDsGroup(g: Group) returns (err: Option<InfoError>)
      modifies this
      ensures AddDs(old(State()).ds, g).Success? ==>
        err.None? && State() == old(State()).(ds := AddDs(old(State()).ds, g).value)
      ensures AddDs(old(State()).ds, g).Failure? ==>
        err == Some(AddDs(old(State()).ds, g).error) && State() == old(State())
      ensures old(Valid()) ==> Valid()
    {
      var name := GroupName(g);
      if name.None? {
        return None;
      }
      if "type" !in g {
        return Some(MissingType(name.value));
      }
      var className := ClassName(g["type"]);
      var kind := KindNamed(className);
      if kind.None? {
        return Some(UnknownType(name.value, className));
      }
      var ds := SourceOf(name.value, kind.value, g);
      dsOrdered := dsOrdered + [ds];
      dsByName := dsByName[ds.name := ds];
      return None;
    }

    /** `_add_rra(group)`: raises, changing nothing, or appends the archive. */
    method AddRraGroup(g: Group) returns (err: Option<InfoError>)
      modifies this
      ensures AddRra(old(State()).archives, g).Success? ==>
        err.None? && State() == old(State()).(archives := AddRra(old(State()).archives, g).value)
      ensures AddRra(old(State()).archives, g).Failure? ==>
        err == Some(AddRra(old(State()).archives, g).error) && State() == old(State())
      ensures dsOrdered == old(dsOrdered) && dsByName == old(dsByName)
    {
      var index := GroupName(g);
      if index.None? {
        return None;
      }
      if "cf" !in g {
        return Some(MissingCf(index.value));
      }
      var className := ClassName(g["cf"]);
      var cf := CfNamed(className);
      if cf.None? {
        return Some(UnknownCf(index.value, className));
      }
      rraOrdered := rraOrdered + [ArchiveOf(cf.value, g)];
      return None;
    }

    /** The block `load_rrd_info` runs on each line of the info output, with
        the two open groups. */
    method ScanInfoLine(line: string, ds: Group, rra: Group) returns (err: Option<InfoError>, ds': Group, rra': Group)
      modifies this
      ensures var scanned := ScanLine(Scanner(old(State()), ds, rra), line);
        && (scanned.Success? ==> err.None? && scanned.value == Scanner(State(), ds', rra'))
        && (scanned.Failure? ==> err == Some(scanned.error))
      ensures old(Valid()) ==> Valid()
    {
      err, ds', rra' := None, ds, rra;
      match Classify(line)
      case StepLine(n) =>
        step := Some(n);
      case DsLine(f) =>
        if GroupName(ds') != Some(f.index) {
          err := AddDsGroup(ds');
          if err.Some? {
            return;
          }
          ds' := map["name" := f.index];
        }
        ds' := ds'[f.key := f.value];
      case RraLine(f) =>
        if GroupName(rra') != Some(f.index) {
          err := AddRraGroup(rra');
          if err.Some? {
            return;
          }
          rra' := map["name" := f.index];
        }
        rra' := rra'[f.key := f.value];
      case OtherLine =>
    }

    /** The scanning loop of `load_rrd_info` over the lines of the reply. */
    method ScanInfo(lines: seq<string>) returns (err: Option<InfoError>, ds: Group, rra: Group)
      modifies this
      ensures var scanned := ScanLines(old(State()), lines);
        && (scanned.Success? ==> err.None? && scanned.value == Scanner(State(), ds, rra))
        && (scanned.Failure? ==> err == Some(scanned.error))
      ensures old(Valid()) ==> Valid()
    {
      ghost var start := State();
      err, ds, rra := None, map[], map[];
      for i := 0 to |lines|
        invariant err.None? && ScanLines(start, lines[..i]) == Success(Scanner(State(), ds, rra))
        invariant old(Valid()) ==> Valid()
        modifies this
      {
        assert lines[..i + 1][..i] == lines[..i];
        err, ds, rra := ScanInfoLine(lines[i], ds, rra);
        if err.Some? {
          ScanFailureStays(start, lines, i + 1);
          return;
        }
      }
      assert lines[..|lines|] == lines;
    }

    /** What `load_rrd_info` does after the last line: adds the open groups. */
    method FinishInfo(ds: Group, rra: Group) returns (err: Option<InfoError>)
      modifies this
      ensures var done := Finish(Scanner(old(State()), ds, rra));
        && (done.Success? ==> err.None? && State() == done.value)
        && (done.Failure? ==> err == Some(done.error))
      ensures old(Valid()) && err.None? ==> Valid()
    {
      err := AddDsGroup(ds);
      if err.Some? {
        return;
      }
      err := AddRraGroup(rra);
    }

    /** `load_rrd_info`: asks rrdtool for the info, and unless the reply is an
        error runs the line scanner over its output, adding each group when
        the next one starts and the two open groups at the end. */
    method LoadRrdInfo() returns (err: Option<InfoError>)
      requires HasEnd(io.pending)
      modifies this, io
      ensures io.sent == old(io.sent) + [CommandLine("info", [path])]
      ensures io.pending == old(io.pending)[EndIndex(old(io.pending)) + 1..]
      ensures Frame(old(io.pending)).error.Some? ==> err.None? && State() == old(State())
      ensures Frame(old(io.pending)).error.None? ==>
        var loaded := LoadInfo(old(State()), EachLine(Frame(old(io.pending)).body));
        && (loaded.Success? ==> err.None? && State() == loaded.value)
        && (loaded.Failure? ==> err == Some(loaded.error))
      ensures old(Valid()) && err.None? ==> Valid()
    {
      var reply := RrdPipe(io, "info", [path]);
      if reply.error.Some? {
        return None;
      }
      var ds, rra;
      err, ds, rra := ScanInfo(EachLine(reply.body));
      if err.Some? {
        return;
      }
      err := FinishInfo(ds, rra);
    }

    /** `update_at(timestamp, data)`: one `update` command; the result is the
        output of the reply. Nothing the database knows changes. */
    method UpdateAt(ts: Timestamp, data: Update) returns (output: string)
      requires HasEnd(io.pending)
      modifies io
      ensures io.sent == old(io.sent) + [CommandLine("update", UpdateArgs(path, ts, data))]
      ensures io.pending == old(io.pending)[EndIndex(old(io.pending)) + 1..]
      ensures output == Frame(old(io.pending)).body
    {
      var template := "--template " + Join(Names(data), ':');
      var values := TimestampText(ts) + ":" + Join(Values(data), ':');
      var reply := RrdPipe(io, "update", [path, template, values]);
      output := reply.body;
    }

    /** `update(data)`: an update at `N`. */
    method Update(data: Update) returns (output: string)
      requires HasEnd(io.pending)
      modifies io
      ensures io.sent == old(io.sent) + [CommandLine("update", UpdateArgs(path, Now, data))]
      ensures io.pending == old(io.pending)[EndIndex(old(io.pending)) + 1..]
      ensures output == Frame(old(io.pending)).body
    {
      output := UpdateAt(Now, data);
    }

    /** `last`: the time of the last update, read with `to_i` from the output;
        after an error reply the (raw) output instead. */
    method Last() returns (r: Result<int, string>)
      requires HasEnd(io.pending)
      modifies io
      ensures io.sent == old(io.sent) + [CommandLine("last", [path])]
      ensures io.pending == old(io.pending)[EndIndex(old(io.pending)) + 1..]
      ensures Frame(old(io.pending)).error.None? ==> r == Success(ToI(Frame(old(io.pending)).body))
      ensures Frame(old(io.pending)).error.Some? ==> r == Failure(Frame(old(io.pending)).body)
    {
      var reply := RrdPipe(io, "last", [path]);
      if reply.error.None? {
        r := Success(ToI(reply.body));
      } else {
        r := Failure(reply.body);
      }
    }
  }

  /** rrdtool answers `last` with the time on a line of its own, then `OK`;
      `last` reads that time back. */
  lemma LastReadsTime(t: int, ok: string)
    requires IsOk(ok)
    ensures HasEnd([IntToDecimal(t), ok])
    ensures Frame([IntToDecimal(t), ok]).error.None?
    ensures ToI(Frame([IntToDecimal(t), ok]).body) == t
  {
    var lines := [IntToDecimal(t), ok];
    var d := IntToDecimal(t);
    assert IsEnd(lines[1]);
    assert !IsEnd(d) by {
      assert d[0] == '-' || IsDigitIn(d[0], 10);
    }
    assert EndIndex(lines) == 1;
    OkIsNotError(ok);
    assert lines[..1] == [d];
    assert JoinLines([d]) == d + "\n" by {
      assert [d][..0] == [];
    }
    ToIDecimalThen(t, "\n");
  }
}
