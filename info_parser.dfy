/**
 * The state machine of `load_rrd_info`, `_add_ds` and `_add_rra`: field lines
 * are collected into a group (a hash keyed by field name, holding the index
 * under `name`) for as long as the index stays the same; when it changes the
 * finished group is flushed into the data-source list and table, or into the
 * archive list, and once more after the last line.
 */
module InfoParser {
  import opened Wrappers
  import opened Text
  import opened Tokens
  import opened InfoLines

  /** `current_ds` / `current_rra`: field name (as a symbol) to text. The starting
      `{ :name => nil }` is the empty group, since a missing key reads as nil. */
  type Group = map<string, string>

  /** `group[key]`, nil when absent. */
  function Lookup(g: Group, key: string): Option<string> {
    if key in g then Some(g[key]) else None
  }

  function GroupName(g: Group): Option<string> {
    Lookup(g, "name")
  }

  /** The exceptions `_add_ds` and `_add_rra` raise: `gsub` on a missing type or
      consolidation function, or `eval` of a name that is not one of the four
      classes. */
  datatype InfoError =
    | MissingType(name: string)
    | UnknownType(name: string, typeName: string)
    | MissingCf(index: string)
    | UnknownCf(index: string, cfName: string)

  /** `text.gsub(/"/, '').downcase.capitalize`: the class name `eval` is given. */
  function ClassName(text: string): string {
    Capitalize(Lower(Remove(text, '"')))
  }

  /** The data-source classes `eval` can reach. */
  function KindNamed(className: string): Option<DsKind> {
    if className == "Gauge" then Some(Gauge)
    else if className == "Counter" then Some(Counter)
    else if className == "Derive" then Some(Derive)
    else if className == "Absolute" then Some(Absolute)
    else None
  }

  /** The archive classes `eval` can reach. */
  function CfNamed(className: string): Option<Cf> {
    if className == "Average" then Some(Average)
    else if className == "Min" then Some(Min)
    else if className == "Max" then Some(Max)
    else if className == "Last" then Some(Last)
    else None
  }

  /** The table of sources reached so far: `@ds_ordered` and `@ds_by_name`. */
  datatype DsTable = DsTable(ordered: seq<DataSource>, byName: map<string, DataSource>)

  /** The table that entering `ordered` one by one into an empty hash gives. */
  function ByName(ordered: seq<DataSource>): map<string, DataSource>
    decreases |ordered|
  {
    if |ordered| == 0 then map[]
    else
      var last := ordered[|ordered| - 1];
      ByName(ordered[..|ordered| - 1])[last.name := last]
  }

  /** The source `_add_ds` builds from a named group of a known type. */
  function SourceOf(name: string, kind: DsKind, g: Group): DataSource {
    NewNormal(name, kind, DsOptions(Lookup(g, "minimal_heartbeat"), Lookup(g, "min"), Lookup(g, "max")))
  }

  /** The part of `_add_ds` that builds the source of a group named `name`:
      `eval` of the class its `type` names, given the heartbeat, min and max. */
  function TypedSource(name: string, g: Group): (r: Result<DataSource, InfoError>)
    ensures "type" !in g ==> r == Failure(MissingType(name))
    ensures r.Success? ==> r.value.Normal? && r.value.name == name
  {
    if "type" !in g then Failure(MissingType(name))
    else
      var className := ClassName(g["type"]);
      match KindNamed(className)
      case None => Failure(UnknownType(name, className))
      case Some(kind) => Success(SourceOf(name, kind, g))
  }

  /** `_add_ds(group)`. */
  function AddDs(t: DsTable, g: Group): (r: Result<DsTable, InfoError>)
    ensures GroupName(g).None? ==> r == Success(t)
    ensures GroupName(g).Some? && "type" !in g ==> r == Failure(MissingType(GroupName(g).value))
    ensures GroupName(g).Some? && TypedSource(GroupName(g).value, g).Failure? ==>
      r == Failure(TypedSource(GroupName(g).value, g).error)
    ensures GroupName(g).Some? && TypedSource(GroupName(g).value, g).Success? ==>
      var ds := TypedSource(GroupName(g).value, g).value;
      r == Success(DsTable(t.ordered + [ds], t.byName[ds.name := ds]))
    ensures t.byName == ByName(t.ordered) && r.Success? ==> r.value.byName == ByName(r.value.ordered)
    ensures r.Success? && GroupName(g).Some? ==>
      && |r.value.ordered| == |t.ordered| + 1
      && r.value.ordered[..|t.ordered|] == t.ordered
      && r.value.ordered[|t.ordered|].name == GroupName(g).value
  {
    match GroupName(g)
    case None => Success(t)
    case Some(name) =>
      match TypedSource(name, g)
      case Failure(e) => Failure(e)
      case Success(ds) =>
        assert (t.ordered + [ds])[..|t.ordered|] == t.ordered;
        Success(DsTable(t.ordered + [ds], t.byName[ds.name := ds]))
  }

  /** The archive `_add_rra` builds: steps and rows through `to_i` (nil reads
      as 0) and back to text; xff is kept as the info text, `0.0` when absent. */
  function ArchiveOf(cf: Cf, g: Group): Archive {
    NewArchive(cf, ArchiveOptions(
      Some(Lookup(g, "xff").GetOr("0.0")),
      Some(IntToDecimal(ToI(Lookup(g, "pdp_per_row").GetOr("")))),
      Some(IntToDecimal(ToI(Lookup(g, "rows").GetOr(""))))))
  }

  /** The part of `_add_rra` that builds the archive of a group with index
      `index`: `eval` of the class its `cf` names. */
  function TypedArchive(index: string, g: Group): (r: Result<Archive, InfoError>)
    ensures "cf" !in g ==> r == Failure(MissingCf(index))
  {
    if "cf" !in g then Failure(MissingCf(index))
    else
      var className := ClassName(g["cf"]);
      match CfNamed(className)
      case None => Failure(UnknownCf(index, className))
      case Some(cf) => Success(ArchiveOf(cf, g))
  }

  /** `_add_rra(group)`. */
  function AddRra(archives: seq<Archive>, g: Group): (r: Result<seq<Archive>, InfoError>)
    ensures GroupName(g).None? ==> r == Success(archives)
    ensures GroupName(g).Some? && "cf" !in g ==> r == Failure(MissingCf(GroupName(g).value))
    ensures GroupName(g).Some? && TypedArchive(GroupName(g).value, g).Failure? ==>
      r == Failure(TypedArchive(GroupName(g).value, g).error)
    ensures GroupName(g).Some? && TypedArchive(GroupName(g).value, g).Success? ==>
      r == Success(archives + [TypedArchive(GroupName(g).value, g).value])
    ensures r.Success? ==>
      |r.value| == |archives| + (if GroupName(g).Some? then 1 else 0) && r.value[..|archives|] == archives
  {
    match GroupName(g)
    case None => Success(archives)
    case Some(index) =>
      match TypedArchive(index, g)
      case Failure(e) => Failure(e)
      case Success(a) =>
        assert (archives + [a])[..|archives|] == archives;
        Success(archives + [a])
  }

  /** What `load_rrd_info` has built: `@step`, the data-source table and `@rra_ordered`. */
  datatype InfoState = InfoState(step: Option<nat>, ds: DsTable, archives: seq<Archive>)

  /** The loop state: what has been built, and the two open groups. */
  datatype Scanner = Scanner(state: InfoState, ds: Group, rra: Group)

  /** The group a field line starts: `{ :name => index }`, then the field set. */
  function Opened(f: Field): Group {
    map["name" := f.index][f.key := f.value]
  }

  /** One pass of the `each_line` block. */
  function ScanLine(sc: Scanner, line: string): Result<Scanner, InfoError> {
    match Classify(line)
    case StepLine(n) => Success(sc.(state := sc.state.(step := Some(n))))
    case DsLine(f) =>
      if GroupName(sc.ds) != Some(f.index) then
        match AddDs(sc.state.ds, sc.ds)
        case Failure(e) => Failure(e)
        case Success(t) => Success(Scanner(sc.state.(ds := t), Opened(f), sc.rra))
      else Success(sc.(ds := sc.ds[f.key := f.value]))
    case RraLine(f) =>
      if GroupName(sc.rra) != Some(f.index) then
        match AddRra(sc.state.archives, sc.rra)
        case Failure(e) => Failure(e)
        case Success(a) => Success(Scanner(sc.state.(archives := a), sc.ds, Opened(f)))
      else Success(sc.(rra := sc.rra[f.key := f.value]))
    case OtherLine => Success(sc)
  }

  /** The block applied to every line in turn, from empty groups; the first
      exception ends the scan. */
  function ScanLines(st: InfoState, lines: seq<string>): Result<Scanner, InfoError>
    decreases |lines|
  {
    if |lines| == 0 then Success(Scanner(st, map[], map[]))
    else
      match ScanLines(st, lines[..|lines| - 1])
      case Failure(e) => Failure(e)
      case Success(sc) => ScanLine(sc, lines[|lines| - 1])
  }

  /** After the last line: the open data-source group, then the open archive
      group, are added. */
  function Finish(sc: Scanner): Result<InfoState, InfoError> {
    match AddDs(sc.state.ds, sc.ds)
    case Failure(e) => Failure(e)
    case Success(t) =>
      match AddRra(sc.state.archives, sc.rra)
      case Failure(e) => Failure(e)
      case Success(a) => Success(sc.state.(ds := t, archives := a))
  }

  /** The block of `load_rrd_info` on the lines of the reply: the scan, then
      the open groups are added. */
  function LoadInfo(st: InfoState, lines: seq<string>): Result<InfoState, InfoError> {
    match ScanLines(st, lines)
    case Failure(e) => Failure(e)
    case Success(sc) => Finish(sc)
  }

  /** Once the block has raised, the rest of the lines are not looked at. */
  lemma {:induction false} ScanFailureStays(st: InfoState, lines: seq<string>, i: nat)
    requires i <= |lines| && ScanLines(st, lines[..i]).Failure?
    ensures ScanLines(st, lines) == ScanLines(st, lines[..i])
    ensures LoadInfo(st, lines) == Failure(ScanLines(st, lines[..i]).error)
    decreases |lines|
  {
    if i < |lines| {
      var init := lines[..|lines| - 1];
      assert init[..i] == lines[..i];
      ScanFailureStays(st, init, i);
    } else {
      assert lines[..i] == lines;
    }
  }

  // ---------------------------------------------------------------------------
  // properties of the pieces

  /** The by-name table holds exactly the names of the list, each for the last
      source of that name: a repeated name keeps every entry in the list and
      the last one in the table. */
  lemma {:induction false} ByNameLast(ordered: seq<DataSource>, name: string)
    ensures name in ByName(ordered) <==> exists i :: 0 <= i < |ordered| && ordered[i].name == name
    ensures name in ByName(ordered) ==>
      exists i :: 0 <= i < |ordered| && ordered[i] == ByName(ordered)[name]
        && forall j :: i < j < |ordered| ==> ordered[j].name != name
    decreases |ordered|
  {
    if |ordered| > 0 {
      var n := |ordered| - 1;
      var init := ordered[..n];
      ByNameLast(init, name);
      if ordered[n].name != name {
        if name in ByName(init) {
          var i :| 0 <= i < |init| && init[i] == ByName(init)[name]
            && forall j :: i < j < |init| ==> init[j].name != name;
          assert ordered[i] == ByName(ordered)[name];
        }
        if exists i :: 0 <= i < |ordered| && ordered[i].name == name {
          var i :| 0 <= i < |ordered| && ordered[i].name == name;
          assert init[i].name == name;
        }
      } else {
        assert ordered[n] == ByName(ordered)[name];
      }
    }
  }

  /** `capitalize` of a lower-case word upper-cases its first letter only. */
  lemma Capitalized(word: string, name: string)
    requires |word| > 0 && forall i :: 0 <= i < |word| ==> IsLowerLetter(word[i])
    requires name == [UpperChar(word[0])] + word[1..]
    ensures Capitalize(word) == name
  {
    LowerOfLower(word[1..]);
  }

  /** The quoted, upper-cased name rrdtool prints for a word names the class
      of the capitalized word. */
  lemma ClassNameOfQuoted(word: string)
    requires forall i :: 0 <= i < |word| ==> IsLowerLetter(word[i])
    ensures ClassName("\"" + Upper(word) + "\"") == Capitalize(word)
  {
    UpperKeeps(word, '"');
    RemoveAround(Upper(word), '"');
    LowerUpper(word);
  }

  /** A lower-case word, printed upper-cased in quotes, is read back as the
      class named by the word with its first letter upper-cased. */
  lemma ReadBack(word: string, name: string)
    requires |word| > 0 && forall i :: 0 <= i < |word| ==> IsLowerLetter(word[i])
    requires name == [UpperChar(word[0])] + word[1..]
    ensures ClassName("\"" + Upper(word) + "\"") == name
  {
    ClassNameOfQuoted(word);
    Capitalized(word, name);
  }

  /** The type rrdtool prints for a data source (`"GAUGE"`, with the quotes)
      is read back as the same kind. */
  lemma KindFromInfo(k: DsKind)
    ensures KindNamed(ClassName("\"" + Upper(KindSymbol(k)) + "\"")) == Some(k)
  {
    match k
    case Gauge => ReadBack("gauge", "Gauge");
    case Counter => ReadBack("counter", "Counter");
    case Derive => ReadBack("derive", "Derive");
    case Absolute => ReadBack("absolute", "Absolute");
  }

  /** The consolidation function rrdtool prints for an archive is read back
      as the same function. */
  lemma CfFromInfo(cf: Cf)
    ensures CfNamed(ClassName("\"" + Upper(CfSymbol(cf)) + "\"")) == Some(cf)
  {
    match cf
    case Average => ReadBack("average", "Average");
    case Min => ReadBack("min", "Min");
    case Max => ReadBack("max", "Max");
    case Last => ReadBack("last", "Last");
  }

  /** The group holds what rrdtool prints for the normal source `ds`: its
      name, its quoted upper-cased type, and its heartbeat, min and max (each
      of which may be missing, as `_add_ds` then defaults it). Other fields,
      such as `index`, `last_ds` or `value`, may be present too. */
  predicate PrintsSource(g: Group, ds: DataSource) {
    && ds.Normal?
    && Lookup(g, "name") == Some(ds.name)
    && Lookup(g, "type") == Some("\"" + Upper(KindSymbol(ds.kind)) + "\"")
    && Lookup(g, "minimal_heartbeat").GetOr("") == ds.heartbeat
    && Lookup(g, "min").GetOr("U") == ds.min
    && Lookup(g, "max").GetOr("U") == ds.max
  }

  /** `_add_ds` of a group printed for a normal source appends that very
      source, and enters it in the table under its name. */
  lemma AddDsOfInfo(t: DsTable, g: Group, ds: DataSource)
    requires PrintsSource(g, ds)
    ensures AddDs(t, g) == Success(DsTable(t.ordered + [ds], t.byName[ds.name := ds]))
  {
    KindFromInfo(ds.kind);
    assert TypedSource(ds.name, g) == Success(ds);
  }

  /** The group holds what rrdtool prints for an archive whose steps and rows
      are numbers; other fields, such as `cur_row`, may be present too. */
  predicate PrintsArchive(g: Group, index: string, cf: Cf, xff: string, steps: nat, rows: nat) {
    && Lookup(g, "name") == Some(index)
    && Lookup(g, "cf") == Some("\"" + Upper(CfSymbol(cf)) + "\"")
    && Lookup(g, "xff") == Some(xff)
    && Lookup(g, "pdp_per_row") == Some(Decimal(steps))
    && Lookup(g, "rows") == Some(Decimal(rows))
  }

  /** `_add_rra` of a group printed for an archive appends that archive: the
      numbers survive `to_i` and `to_s`. */
  lemma AddRraOfInfo(archives: seq<Archive>, g: Group, index: string, cf: Cf, xff: string, steps: nat, rows: nat)
    requires PrintsArchive(g, index, cf, xff, steps, rows)
    ensures AddRra(archives, g) == Success(archives + [Archive(cf, xff, Decimal(steps), Decimal(rows))])
  {
    CfFromInfo(cf);
    ToIDecimal(steps);
    ToIDecimal(rows);
    assert ArchiveOf(cf, g) == Archive(cf, xff, Decimal(steps), Decimal(rows));
  }

  /** Missing numbers of an archive group read as zero. */
  lemma AddRraDefaults(archives: seq<Archive>, g: Group, index: string, cf: Cf)
    requires Lookup(g, "name") == Some(index)
    requires Lookup(g, "cf") == Some("\"" + Upper(CfSymbol(cf)) + "\"")
    requires "xff" !in g && "pdp_per_row" !in g && "rows" !in g
    ensures AddRra(archives, g) == Success(archives + [Archive(cf, "0.0", "0", "0")])
  {
    CfFromInfo(cf);
    assert ToI("") == 0;
    assert ArchiveOf(cf, g) == Archive(cf, "0.0", "0", "0");
  }
}
