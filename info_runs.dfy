/**
 * A reference reading of `rrdtool info` output, independent of the scanning
 * loop: take the `ds` field lines in order, cut them into maximal runs of
 * lines with the same index, make one group of each run, and add the groups
 * in order (the same for `rra`); the step is the last `step = N` line. The
 * main lemma shows that `load_rrd_info` computes exactly this, provided no
 * field is called `name` (such a field would overwrite the group's index).
 */
module InfoRuns {
  import opened Wrappers
  import opened Text
  import opened Tokens
  import opened InfoLines
  import opened InfoParser

  /** The `ds` fields of the lines, in order. */
  function DsFields(lines: seq<string>): seq<Field>
    decreases |lines|
  {
    if |lines| == 0 then []
    else
      var init := DsFields(lines[..|lines| - 1]);
      match Classify(lines[|lines| - 1])
      case DsLine(f) => init + [f]
      case _ => init
  }

  /** The `rra` fields of the lines, in order. */
  function RraFields(lines: seq<string>): seq<Field>
    decreases |lines|
  {
    if |lines| == 0 then []
    else
      var init := RraFields(lines[..|lines| - 1]);
      match Classify(lines[|lines| - 1])
      case RraLine(f) => init + [f]
      case _ => init
  }

  /** The step of the last step line, `step` when there is none. */
  function LastStep(lines: seq<string>, step: Option<nat>): Option<nat>
    decreases |lines|
  {
    if |lines| == 0 then step
    else
      match Classify(lines[|lines| - 1])
      case StepLine(n) => Some(n)
      case _ => LastStep(lines[..|lines| - 1], step)
  }

  /** One more field joins the last run when it has that run's index, and
      starts a run of its own otherwise. */
  function Extend(runs: seq<seq<Field>>, f: Field): (r: seq<seq<Field>>)
    requires forall i :: 0 <= i < |runs| ==> |runs[i]| > 0
    ensures forall i :: 0 <= i < |r| ==> |r[i]| > 0
  {
    if |runs| > 0 && runs[|runs| - 1][0].index == f.index then
      runs[..|runs| - 1] + [runs[|runs| - 1] + [f]]
    else runs + [[f]]
  }

  /** The fields cut into maximal runs of consecutive fields with one index. */
  function Runs(fs: seq<Field>): (r: seq<seq<Field>>)
    ensures forall i :: 0 <= i < |r| ==> |r[i]| > 0
    decreases |fs|
  {
    if |fs| == 0 then [] else Extend(Runs(fs[..|fs| - 1]), fs[|fs| - 1])
  }

  function Flatten(runs: seq<seq<Field>>): seq<Field>
    decreases |runs|
  {
    if |runs| == 0 then [] else Flatten(runs[..|runs| - 1]) + runs[|runs| - 1]
  }

  /** The hash a run builds: its index under `name`, then each field in turn. */
  function GroupOf(run: seq<Field>): Group
    requires |run| > 0
    decreases |run|
  {
    if |run| == 1 then Opened(run[0])
    else
      var f := run[|run| - 1];
      GroupOf(run[..|run| - 1])[f.key := f.value]
  }

  function Groups(runs: seq<seq<Field>>): (gs: seq<Group>)
    requires forall i :: 0 <= i < |runs| ==> |runs[i]| > 0
    ensures |gs| == |runs| && forall i :: 0 <= i < |runs| ==> gs[i] == GroupOf(runs[i])
  {
    seq(|runs|, i requires 0 <= i < |runs| => GroupOf(runs[i]))
  }

  /** Adding the groups in order; the first exception stops it. */
  function AddAllDs(t: DsTable, gs: seq<Group>): Result<DsTable, InfoError>
    decreases |gs|
  {
    if |gs| == 0 then Success(t)
    else
      match AddAllDs(t, gs[..|gs| - 1])
      case Failure(e) => Failure(e)
      case Success(t1) => AddDs(t1, gs[|gs| - 1])
  }

  function AddAllRra(archives: seq<Archive>, gs: seq<Group>): Result<seq<Archive>, InfoError>
    decreases |gs|
  {
    if |gs| == 0 then Success(archives)
    else
      match AddAllRra(archives, gs[..|gs| - 1])
      case Failure(e) => Failure(e)
      case Success(a) => AddRra(a, gs[|gs| - 1])
  }

  predicate NameFree(fs: seq<Field>) {
    forall i :: 0 <= i < |fs| ==> fs[i].key != "name"
  }

  // ---------------------------------------------------------------------------
  // the runs

  lemma RunsSnoc(fs: seq<Field>, f: Field)
    ensures Runs(fs + [f]) == Extend(Runs(fs), f)
  {
    assert (fs + [f])[..|fs|] == fs;
  }

  lemma ExtendFlatten(runs: seq<seq<Field>>, f: Field)
    requires forall i :: 0 <= i < |runs| ==> |runs[i]| > 0
    ensures Flatten(Extend(runs, f)) == Flatten(runs) + [f]
  {
    var n := |runs|;
    if n > 0 && runs[n - 1][0].index == f.index {
      var r := runs[..n - 1] + [runs[n - 1] + [f]];
      assert r[..n - 1] == runs[..n - 1];
      assert Flatten(runs) == Flatten(runs[..n - 1]) + runs[n - 1];
      Reassociate(Flatten(runs[..n - 1]), runs[n - 1], [f]);
    } else {
      var r := runs + [[f]];
      assert r[..n] == runs;
    }
  }

  /** Flattened, the runs give back the fields. */
  lemma {:induction false} RunsFlatten(fs: seq<Field>)
    ensures Flatten(Runs(fs)) == fs
    decreases |fs|
  {
    if |fs| > 0 {
      var init := fs[..|fs| - 1];
      RunsFlatten(init);
      ExtendFlatten(Runs(init), fs[|fs| - 1]);
      assert init + [fs[|fs| - 1]] == fs;
    }
  }

  /** Every field of a run has the run's index. */
  predicate Uniform(run: seq<Field>)
    requires |run| > 0
  {
    forall j :: 0 <= j < |run| ==> run[j].index == run[0].index
  }

  lemma ExtendUniform(runs: seq<seq<Field>>, f: Field)
    requires forall i :: 0 <= i < |runs| ==> |runs[i]| > 0 && Uniform(runs[i])
    ensures var r := Extend(runs, f); forall i :: 0 <= i < |r| ==> Uniform(r[i])
  {
    var n := |runs|;
    if n > 0 && runs[n - 1][0].index == f.index {
      var last := runs[n - 1] + [f];
      assert Uniform(last) by {
        assert forall j :: 0 <= j < |runs[n - 1]| ==> last[j] == runs[n - 1][j];
      }
      var r := runs[..n - 1] + [last];
      assert forall i :: 0 <= i < n - 1 ==> r[i] == runs[i];
    } else {
      var r := runs + [[f]];
      assert forall i :: 0 <= i < n ==> r[i] == runs[i];
    }
  }

  lemma {:induction false} RunsUniform(fs: seq<Field>)
    ensures forall i :: 0 <= i < |Runs(fs)| ==> Uniform(Runs(fs)[i])
    decreases |fs|
  {
    if |fs| > 0 {
      var init := fs[..|fs| - 1];
      RunsUniform(init);
      ExtendUniform(Runs(init), fs[|fs| - 1]);
    }
  }

  /** Neighbouring runs have different indices. */
  predicate Maximal(runs: seq<seq<Field>>)
    requires forall i :: 0 <= i < |runs| ==> |runs[i]| > 0
  {
    forall i :: 0 < i < |runs| ==> runs[i][0].index != runs[i - 1][0].index
  }

  lemma ExtendMaximal(runs: seq<seq<Field>>, f: Field)
    requires forall i :: 0 <= i < |runs| ==> |runs[i]| > 0
    requires Maximal(runs)
    ensures Maximal(Extend(runs, f))
  {
    var n := |runs|;
    if n > 0 && runs[n - 1][0].index == f.index {
      var r := runs[..n - 1] + [runs[n - 1] + [f]];
      assert forall i :: 0 <= i < n ==> r[i][0] == runs[i][0];
    } else {
      var r := runs + [[f]];
      assert forall i :: 0 <= i < n ==> r[i] == runs[i];
    }
  }

  /** The runs are maximal. */
  lemma {:induction false} RunsMaximal(fs: seq<Field>)
    ensures Maximal(Runs(fs))
    decreases |fs|
  {
    if |fs| > 0 {
      RunsMaximal(fs[..|fs| - 1]);
      ExtendMaximal(Runs(fs[..|fs| - 1]), fs[|fs| - 1]);
    }
  }

  lemma ExtendNameFree(runs: seq<seq<Field>>, f: Field)
    requires forall i :: 0 <= i < |runs| ==> |runs[i]| > 0 && NameFree(runs[i])
    requires f.key != "name"
    ensures var r := Extend(runs, f); forall i :: 0 <= i < |r| ==> NameFree(r[i])
  {
    var n := |runs|;
    if n > 0 && runs[n - 1][0].index == f.index {
      var last := runs[n - 1] + [f];
      assert NameFree(last) by {
        assert forall j :: 0 <= j < |runs[n - 1]| ==> last[j] == runs[n - 1][j];
      }
      var r := runs[..n - 1] + [last];
      assert forall i :: 0 <= i < n - 1 ==> r[i] == runs[i];
    } else {
      var r := runs + [[f]];
      assert forall i :: 0 <= i < n ==> r[i] == runs[i];
    }
  }

  lemma {:induction false} RunsNameFree(fs: seq<Field>)
    requires NameFree(fs)
    ensures forall i :: 0 <= i < |Runs(fs)| ==> NameFree(Runs(fs)[i])
    decreases |fs|
  {
    if |fs| > 0 {
      var init := fs[..|fs| - 1];
      assert NameFree(init) by {
        assert forall i :: 0 <= i < |init| ==> init[i] == fs[i];
      }
      RunsNameFree(init);
      ExtendNameFree(Runs(init), fs[|fs| - 1]);
    }
  }

  /** A run's group carries the run's index as its name. */
  lemma {:induction false} GroupOfName(run: seq<Field>)
    requires |run| > 0 && NameFree(run)
    ensures GroupName(GroupOf(run)) == Some(run[0].index)
    decreases |run|
  {
    if |run| > 1 {
      GroupOfName(run[..|run| - 1]);
    }
  }

  lemma GroupOfSnoc(run: seq<Field>, f: Field)
    requires |run| > 0
    ensures GroupOf(run + [f]) == GroupOf(run)[f.key := f.value]
  {
    assert (run + [f])[..|run|] == run;
  }

  lemma GroupsSnoc(runs: seq<seq<Field>>)
    requires |runs| > 0 && forall i :: 0 <= i < |runs| ==> |runs[i]| > 0
    ensures Groups(runs) == Groups(runs[..|runs| - 1]) + [GroupOf(runs[|runs| - 1])]
  {
  }

  lemma AddAllDsSnoc(t: DsTable, gs: seq<Group>, g: Group)
    ensures AddAllDs(t, gs + [g])
         == match AddAllDs(t, gs) case Failure(e) => Failure(e) case Success(t1) => AddDs(t1, g)
  {
    assert (gs + [g])[..|gs|] == gs;
  }

  lemma AddAllRraSnoc(archives: seq<Archive>, gs: seq<Group>, g: Group)
    ensures AddAllRra(archives, gs + [g])
         == match AddAllRra(archives, gs) case Failure(e) => Failure(e) case Success(a) => AddRra(a, g)
  {
    assert (gs + [g])[..|gs|] == gs;
  }

  /** A successful fold succeeded on every prefix, and its last step added the last group. */
  lemma AddAllDsPrefix(t: DsTable, gs: seq<Group>)
    requires |gs| > 0 && AddAllDs(t, gs).Success?
    ensures AddAllDs(t, gs[..|gs| - 1]).Success?
    ensures AddAllDs(t, gs) == AddDs(AddAllDs(t, gs[..|gs| - 1]).value, gs[|gs| - 1])
  {
  }

  lemma AddAllRraPrefix(archives: seq<Archive>, gs: seq<Group>)
    requires |gs| > 0 && AddAllRra(archives, gs).Success?
    ensures AddAllRra(archives, gs[..|gs| - 1]).Success?
    ensures AddAllRra(archives, gs) == AddRra(AddAllRra(archives, gs[..|gs| - 1]).value, gs[|gs| - 1])
  {
  }

  lemma DsAppendStep(t: DsTable, t0: DsTable, g: Group)
    requires |t.ordered| <= |t0.ordered| && t0.ordered[..|t.ordered|] == t.ordered
    requires GroupName(g).Some? && AddDs(t0, g).Success?
    ensures var t1 := AddDs(t0, g).value;
      && |t1.ordered| == |t0.ordered| + 1
      && t1.ordered[..|t.ordered|] == t.ordered
      && t1.ordered[|t0.ordered|].name == GroupName(g).value
      && TypedSource(GroupName(g).value, g) == Success(t1.ordered[|t0.ordered|])
      && forall j :: 0 <= j < |t0.ordered| ==> t1.ordered[j] == t0.ordered[j]
  {
    var t1 := AddDs(t0, g).value;
    assert t1.ordered[..|t.ordered|] == t1.ordered[..|t0.ordered|][..|t.ordered|];
    assert forall j :: 0 <= j < |t0.ordered| ==> t1.ordered[j] == t1.ordered[..|t0.ordered|][j];
  }

  /** What adding the named groups `gs` leaves in `t1`, starting from `t`. */
  predicate AppendsNamed(t: DsTable, t1: DsTable, gs: seq<Group>)
    requires forall i :: 0 <= i < |gs| ==> GroupName(gs[i]).Some?
  {
    && |t1.ordered| == |t.ordered| + |gs|
    && t1.ordered[..|t.ordered|] == t.ordered
    && (forall i :: 0 <= i < |gs| ==> t1.ordered[|t.ordered| + i].name == GroupName(gs[i]).value)
    && forall i :: 0 <= i < |gs| ==> TypedSource(GroupName(gs[i]).value, gs[i]) == Success(t1.ordered[|t.ordered| + i])
  }

  lemma AppendsNamedStep(t: DsTable, t0: DsTable, t1: DsTable, gs: seq<Group>)
    requires |gs| > 0 && forall i :: 0 <= i < |gs| ==> GroupName(gs[i]).Some?
    requires AppendsNamed(t, t0, gs[..|gs| - 1])
    requires |t1.ordered| == |t0.ordered| + 1 && t1.ordered[..|t.ordered|] == t.ordered
    requires t1.ordered[|t0.ordered|].name == GroupName(gs[|gs| - 1]).value
    requires TypedSource(GroupName(gs[|gs| - 1]).value, gs[|gs| - 1]) == Success(t1.ordered[|t0.ordered|])
    requires forall j :: 0 <= j < |t0.ordered| ==> t1.ordered[j] == t0.ordered[j]
    ensures AppendsNamed(t, t1, gs)
  {
    var init := gs[..|gs| - 1];
    forall i | 0 <= i < |gs|
      ensures t1.ordered[|t.ordered| + i].name == GroupName(gs[i]).value
      ensures TypedSource(GroupName(gs[i]).value, gs[i]) == Success(t1.ordered[|t.ordered| + i])
    {
      if i < |init| {
        assert t1.ordered[|t.ordered| + i] == t0.ordered[|t.ordered| + i];
        assert gs[i] == init[i];
      }
    }
  }

  /** Adding named groups appends exactly one source per group, in order,
      named after the group, and keeps what was there. */
  lemma {:induction false} AddAllDsAppends(t: DsTable, gs: seq<Group>)
    requires forall i :: 0 <= i < |gs| ==> GroupName(gs[i]).Some?
    requires AddAllDs(t, gs).Success?
    ensures AppendsNamed(t, AddAllDs(t, gs).value, gs)
    decreases |gs|
  {
    if |gs| > 0 {
      var init := gs[..|gs| - 1];
      assert forall i :: 0 <= i < |init| ==> init[i] == gs[i];
      AddAllDsPrefix(t, gs);
      AddAllDsAppends(t, init);
      var t0 := AddAllDs(t, init).value;
      DsAppendStep(t, t0, gs[|gs| - 1]);
      AppendsNamedStep(t, t0, AddAllDs(t, gs).value, gs);
    }
  }

  lemma RraAppendStep(archives: seq<Archive>, a0: seq<Archive>, g: Group)
    requires |archives| <= |a0| && a0[..|archives|] == archives
    requires GroupName(g).Some? && AddRra(a0, g).Success?
    ensures |AddRra(a0, g).value| == |a0| + 1
    ensures AddRra(a0, g).value[..|archives|] == archives
    ensures TypedArchive(GroupName(g).value, g) == Success(AddRra(a0, g).value[|a0|])
    ensures forall j :: 0 <= j < |a0| ==> AddRra(a0, g).value[j] == a0[j]
  {
    var a1 := AddRra(a0, g).value;
    assert a1[..|archives|] == a1[..|a0|][..|archives|];
  }

  /** `xs` followed by the values of `built`, which all succeeded. */
  ghost predicate Appended<T, E>(xs: seq<T>, a: seq<T>, built: seq<Result<T, E>>) {
    && |a| == |xs| + |built|
    && a[..|xs|] == xs
    && forall i :: 0 <= i < |built| ==> built[i] == Success(a[|xs| + i])
  }

  lemma AppendedStep<T, E>(xs: seq<T>, a0: seq<T>, a1: seq<T>, built: seq<Result<T, E>>)
    requires |built| > 0 && Appended(xs, a0, built[..|built| - 1])
    requires |a1| == |a0| + 1 && a1[..|xs|] == xs
    requires built[|built| - 1] == Success(a1[|a0|])
    requires forall j :: 0 <= j < |a0| ==> a1[j] == a0[j]
    ensures Appended(xs, a1, built)
  {
    forall i | 0 <= i < |built| ensures built[i] == Success(a1[|xs| + i]) {
      if i < |built| - 1 {
        assert built[..|built| - 1][i] == built[i];
      }
    }
  }

  /** What `_add_rra` builds from each of the named groups. */
  function BuiltArchives(gs: seq<Group>): (r: seq<Result<Archive, InfoError>>)
    requires forall i :: 0 <= i < |gs| ==> GroupName(gs[i]).Some?
    ensures |r| == |gs| && forall i :: 0 <= i < |gs| ==> r[i] == TypedArchive(GroupName(gs[i]).value, gs[i])
  {
    seq(|gs|, i requires 0 <= i < |gs| => TypedArchive(GroupName(gs[i]).value, gs[i]))
  }

  lemma BuiltArchivesSnoc(gs: seq<Group>)
    requires |gs| > 0 && forall i :: 0 <= i < |gs| ==> GroupName(gs[i]).Some?
    ensures BuiltArchives(gs[..|gs| - 1]) == BuiltArchives(gs)[..|gs| - 1]
  {
  }

  /** Adding named groups appends exactly one archive per group, in order:
      the one `_add_rra` builds from that group. */
  lemma {:induction false} AddAllRraAppends(archives: seq<Archive>, gs: seq<Group>)
    requires forall i :: 0 <= i < |gs| ==> GroupName(gs[i]).Some?
    requires AddAllRra(archives, gs).Success?
    ensures Appended(archives, AddAllRra(archives, gs).value, BuiltArchives(gs))
    decreases |gs|
  {
    if |gs| > 0 {
      var init := gs[..|gs| - 1];
      AddAllRraPrefix(archives, gs);
      AddAllRraAppends(archives, init);
      BuiltArchivesSnoc(gs);
      var a0 := AddAllRra(archives, init).value;
      RraAppendStep(archives, a0, gs[|gs| - 1]);
      AppendedStep(archives, a0, AddAllRra(archives, gs).value, BuiltArchives(gs));
    }
  }

  // ---------------------------------------------------------------------------
  // the scan agrees with the runs

  /** All runs but the last have been flushed; the last one is open. */
  function Closed(runs: seq<seq<Field>>): seq<Group>
    requires forall i :: 0 <= i < |runs| ==> |runs[i]| > 0
  {
    if |runs| == 0 then [] else Groups(runs[..|runs| - 1])
  }

  function Open(runs: seq<seq<Field>>): Group
    requires forall i :: 0 <= i < |runs| ==> |runs[i]| > 0
  {
    if |runs| == 0 then map[] else GroupOf(runs[|runs| - 1])
  }

  /** The scanner state the runs of a prefix predict, if no flush has failed. */
  function Expected(st: InfoState, lines: seq<string>): Option<Scanner> {
    var dr := Runs(DsFields(lines));
    var rr := Runs(RraFields(lines));
    match AddAllDs(st.ds, Closed(dr))
    case Failure(_) => None
    case Success(t) =>
      match AddAllRra(st.archives, Closed(rr))
      case Failure(_) => None
      case Success(a) => Some(Scanner(InfoState(LastStep(lines, st.step), t, a), Open(dr), Open(rr)))
  }

  predicate Agrees(r: Result<Scanner, InfoError>, e: Option<Scanner>) {
    r.Success? == e.Some? && (r.Success? ==> r.value == e.value)
  }

  /** A field with the open run's index extends that run. */
  lemma FieldExtends(fs: seq<Field>, f: Field)
    requires NameFree(fs + [f])
    requires GroupName(Open(Runs(fs))) == Some(f.index)
    ensures Closed(Runs(fs + [f])) == Closed(Runs(fs))
    ensures Open(Runs(fs + [f])) == Open(Runs(fs))[f.key := f.value]
  {
    FieldNameFree(fs, f);
    RunsSnoc(fs, f);
    var r0: seq<seq<Field>> := Runs(fs);
    var n := |r0|;
    assert n > 0;
    GroupOfName(r0[n - 1]);
    var r := r0[..n - 1] + [r0[n - 1] + [f]];
    assert r[..n - 1] == r0[..n - 1];
    GroupOfSnoc(r0[n - 1], f);
  }

  /** A field with another index closes the open run, if any, and opens a new one. */
  lemma FieldOpens(fs: seq<Field>, f: Field)
    requires NameFree(fs + [f])
    requires GroupName(Open(Runs(fs))) != Some(f.index)
    ensures Closed(Runs(fs + [f]))
         == Closed(Runs(fs)) + (if |Runs(fs)| == 0 then [] else [Open(Runs(fs))])
    ensures Open(Runs(fs + [f])) == Opened(f)
    ensures |Runs(fs)| == 0 ==> Open(Runs(fs)) == map[]
  {
    FieldNameFree(fs, f);
    RunsSnoc(fs, f);
    var r0: seq<seq<Field>> := Runs(fs);
    var n := |r0|;
    if n > 0 {
      GroupOfName(r0[n - 1]);
      GroupsSnoc(r0);
    }
    var r := r0 + [[f]];
    assert r[..n] == r0;
  }

  lemma FieldNameFree(fs: seq<Field>, f: Field)
    requires NameFree(fs + [f])
    ensures forall i :: 0 <= i < |Runs(fs)| ==> NameFree(Runs(fs)[i])
  {
    assert NameFree(fs) by {
      assert forall i :: 0 <= i < |fs| ==> (fs + [f])[i] == fs[i];
    }
    RunsNameFree(fs);
  }

  lemma LinesSnoc(lines: seq<string>, line: string, st: InfoState)
    ensures var p := lines + [line];
            var k := Classify(line);
      && DsFields(p) == (if k.DsLine? then DsFields(lines) + [k.field] else DsFields(lines))
      && RraFields(p) == (if k.RraLine? then RraFields(lines) + [k.field] else RraFields(lines))
      && LastStep(p, st.step) == (if k.StepLine? then Some(k.step) else LastStep(lines, st.step))
      && ScanLines(st, p) == (if ScanLines(st, lines).Failure? then ScanLines(st, lines)
                              else ScanLine(ScanLines(st, lines).value, line))
  {
    assert (lines + [line])[..|lines|] == lines;
  }

  lemma DsLineAgrees(st: InfoState, lines: seq<string>, line: string, f: Field)
    requires Classify(line) == DsLine(f)
    requires NameFree(DsFields(lines) + [f])
    requires Agrees(ScanLines(st, lines), Expected(st, lines))
    ensures Agrees(ScanLines(st, lines + [line]), Expected(st, lines + [line]))
  {
    LinesSnoc(lines, line, st);
    var fs := DsFields(lines);
    var r0: seq<seq<Field>> := Runs(fs);
    if GroupName(Open(r0)) == Some(f.index) {
      FieldExtends(fs, f);
    } else {
      FieldOpens(fs, f);
    }
    if GroupName(Open(r0)) != Some(f.index) && |r0| > 0 {
      AddAllDsSnoc(st.ds, Closed(r0), Open(r0));
    }
  }

  lemma RraLineAgrees(st: InfoState, lines: seq<string>, line: string, f: Field)
    requires Classify(line) == RraLine(f)
    requires NameFree(RraFields(lines) + [f])
    requires Agrees(ScanLines(st, lines), Expected(st, lines))
    ensures Agrees(ScanLines(st, lines + [line]), Expected(st, lines + [line]))
  {
    LinesSnoc(lines, line, st);
    var fs := RraFields(lines);
    var r0: seq<seq<Field>> := Runs(fs);
    if GroupName(Open(r0)) == Some(f.index) {
      FieldExtends(fs, f);
    } else {
      FieldOpens(fs, f);
    }
    if GroupName(Open(r0)) != Some(f.index) && |r0| > 0 {
      AddAllRraSnoc(st.archives, Closed(r0), Open(r0));
    }
  }

  lemma InitNameFree(lines: seq<string>, line: string, st: InfoState)
    requires NameFree(DsFields(lines + [line])) && NameFree(RraFields(lines + [line]))
    ensures NameFree(DsFields(lines)) && NameFree(RraFields(lines))
  {
    LinesSnoc(lines, line, st);
    var ds := DsFields(lines);
    var rra := RraFields(lines);
    assert forall i :: 0 <= i < |ds| ==> DsFields(lines + [line])[i] == ds[i];
    assert forall i :: 0 <= i < |rra| ==> RraFields(lines + [line])[i] == rra[i];
  }

  /** Every prefix of the lines leaves the scan where the runs predict. */
  lemma {:induction false} ScanAgrees(st: InfoState, lines: seq<string>)
    requires NameFree(DsFields(lines)) && NameFree(RraFields(lines))
    ensures Agrees(ScanLines(st, lines), Expected(st, lines))
    decreases |lines|
  {
    if |lines| > 0 {
      var init := lines[..|lines| - 1];
      var line := lines[|lines| - 1];
      assert init + [line] == lines;
      LinesSnoc(init, line, st);
      InitNameFree(init, line, st);
      ScanAgrees(st, init);
      match Classify(line)
      case DsLine(f) => DsLineAgrees(st, init, line, f);
      case RraLine(f) => RraLineAgrees(st, init, line, f);
      case StepLine(n) =>
      case OtherLine =>
    }
  }

  /** `load_rrd_info` reads the reply as the reference reading says: it
      succeeds exactly when adding the groups of the `ds` runs and of the
      `rra` runs both succeed, the step is that of the last step line, and
      the data sources and archives are those the groups add, in order. */
  lemma LoadInfoByRuns(st: InfoState, lines: seq<string>)
    requires NameFree(DsFields(lines)) && NameFree(RraFields(lines))
    ensures var ds := AddAllDs(st.ds, Groups(Runs(DsFields(lines))));
            var rra := AddAllRra(st.archives, Groups(Runs(RraFields(lines))));
      && (LoadInfo(st, lines).Success? <==> ds.Success? && rra.Success?)
      && (LoadInfo(st, lines).Success? ==>
            LoadInfo(st, lines).value == InfoState(LastStep(lines, st.step), ds.value, rra.value))
  {
    ScanAgrees(st, lines);
    var dr := Runs(DsFields(lines));
    var rr := Runs(RraFields(lines));
    if |dr| > 0 {
      GroupsSnoc(dr);
      match AddAllDs(st.ds, Closed(dr))
      case Failure(_) => AddAllDsSnoc(st.ds, Closed(dr), Open(dr));
      case Success(_) => AddAllDsSnoc(st.ds, Closed(dr), Open(dr));
    }
    if |rr| > 0 {
      GroupsSnoc(rr);
      match AddAllRra(st.archives, Closed(rr))
      case Failure(_) => AddAllRraSnoc(st.archives, Closed(rr), Open(rr));
      case Success(_) => AddAllRraSnoc(st.archives, Closed(rr), Open(rr));
    }
  }

  /** The groups of name-free runs are named after the runs' indices. */
  lemma GroupNames(runs: seq<seq<Field>>)
    requires forall i :: 0 <= i < |runs| ==> |runs[i]| > 0 && NameFree(runs[i])
    ensures forall i :: 0 <= i < |runs| ==> GroupName(Groups(runs)[i]) == Some(runs[i][0].index)
  {
    forall i | 0 <= i < |runs| ensures GroupName(Groups(runs)[i]) == Some(runs[i][0].index) {
      GroupOfName(runs[i]);
    }
  }

  /** With `LoadInfoByRuns`: each run of `ds` fields adds exactly one data
      source, named after the run's index, in the order the runs appear; it is
      the source `_add_ds` builds from that run's group. */
  lemma OneSourcePerRun(t: DsTable, fs: seq<Field>)
    requires NameFree(fs)
    requires AddAllDs(t, Groups(Runs(fs))).Success?
    ensures var runs := Runs(fs);
            var t1 := AddAllDs(t, Groups(runs)).value;
      && |t1.ordered| == |t.ordered| + |runs|
      && t1.ordered[..|t.ordered|] == t.ordered
      && (forall i :: 0 <= i < |runs| ==> t1.ordered[|t.ordered| + i].name == runs[i][0].index)
      && forall i :: 0 <= i < |runs| ==>
           TypedSource(runs[i][0].index, GroupOf(runs[i])) == Success(t1.ordered[|t.ordered| + i])
  {
    RunsNameFree(fs);
    GroupNames(Runs(fs));
    AddAllDsAppends(t, Groups(Runs(fs)));
  }

  /** And each run of `rra` fields adds exactly one archive, in order: the one
      `_add_rra` builds from that run's group. */
  lemma OneArchivePerRun(archives: seq<Archive>, fs: seq<Field>)
    requires NameFree(fs)
    requires AddAllRra(archives, Groups(Runs(fs))).Success?
    ensures var runs := Runs(fs);
            var a := AddAllRra(archives, Groups(runs)).value;
      && |a| == |archives| + |runs| && a[..|archives|] == archives
      && forall i :: 0 <= i < |runs| ==>
           TypedArchive(runs[i][0].index, GroupOf(runs[i])) == Success(a[|archives| + i])
  {
    RunsNameFree(fs);
    GroupNames(Runs(fs));
    AddAllRraAppends(archives, Groups(Runs(fs)));
  }
}
