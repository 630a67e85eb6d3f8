/**
 * The `update` command line `Rrd#update_at` writes to rrdtool: a template
 * naming the data sources given, then the timestamp and the values in the
 * same order, each list joined with colons.
 */
module UpdateCommand {
  import opened Text
  import opened Pipe

  /** `:N` (now) or a time, given by its `to_i`. */
  datatype Timestamp = Now | At(seconds: int)

  function TimestampText(ts: Timestamp): string {
    match ts
    case Now => "N"
    case At(s) => IntToDecimal(s)
  }

  /** The data of an update: data-source name and value text, in the hash's
      insertion order. */
  type Update = seq<(string, string)>

  function Names(data: Update): (r: seq<string>)
    ensures |r| == |data| && forall i :: 0 <= i < |data| ==> r[i] == data[i].0
  {
    seq(|data|, i requires 0 <= i < |data| => data[i].0)
  }

  function Values(data: Update): (r: seq<string>)
    ensures |r| == |data| && forall i :: 0 <= i < |data| ==> r[i] == data[i].1
  {
    seq(|data|, i requires 0 <= i < |data| => data[i].1)
  }

  /** The arguments of `rrd_pipe(:update, ...)`. */
  function UpdateArgs(path: string, ts: Timestamp, data: Update): seq<string> {
    [path, "--template " + Join(Names(data), ':'), TimestampText(ts) + ":" + Join(Values(data), ':')]
  }

  /** Text that can stand between the separators of the command line. */
  predicate Plain(s: string) {
    ' ' !in s && ':' !in s
  }

  predicate PlainData(data: Update) {
    forall i :: 0 <= i < |data| ==> Plain(data[i].0) && Plain(data[i].1)
  }

  lemma TimestampPlain(ts: Timestamp)
    ensures Plain(TimestampText(ts))
  {
    match ts
    case Now =>
    case At(s) =>
      var d := Decimal(if s < 0 then -s else s);
      assert DigitsIn(d, 10);
      assert forall i :: 0 <= i < |d| ==> IsDigitIn(d[i], 10);
      assert ' ' !in d && ':' !in d;
  }

  lemma PlainLists(data: Update)
    requires PlainData(data)
    ensures Avoids(Names(data), ' ') && Avoids(Names(data), ':')
    ensures Avoids(Values(data), ' ') && Avoids(Values(data), ':')
    ensures ' ' !in Join(Names(data), ':') && ' ' !in Join(Values(data), ':')
  {
    JoinAvoids(Names(data), ':', ' ');
    JoinAvoids(Values(data), ':', ' ');
  }

  lemma CommandWords(command: string, path: string, option: string, list: string, values: string)
    ensures command + " " + Join([path, option + " " + list, values], ' ')
         == Join([command, path, option, list, values], ' ')
  {
    Join3(path, option + " " + list, values, ' ');
    Join5(command, path, option, list, values, ' ');
  }

  /** The line splits at its spaces into the command, the path, the template
      option and its list, and the timestamped values. */
  lemma UpdateLineWords(path: string, ts: Timestamp, data: Update)
    requires ' ' !in path && PlainData(data)
    ensures Split(CommandLine("update", UpdateArgs(path, ts, data)), ' ')
         == ["update", path, "--template", Join(Names(data), ':'),
             TimestampText(ts) + ":" + Join(Values(data), ':')]
  {
    var n := Join(Names(data), ':');
    var tv := TimestampText(ts) + ":" + Join(Values(data), ':');
    PlainLists(data);
    TimestampPlain(ts);
    assert ' ' !in tv;
    var option := "--template";
    assert "--template " + n == option + " " + n;
    CommandWords("update", path, option, n, tv);
    var words := ["update", path, option, n, tv];
    assert Avoids(words, ' ') by {
      assert ' ' !in "update" && ' ' !in option;
    }
    SplitJoin(words, ' ');
  }

  /** rrdtool reads back the names of the template, and the timestamp followed
      by one value per name, in the same order: the i-th value goes to the
      i-th name. */
  lemma UpdateLineLists(ts: Timestamp, data: Update)
    requires |data| > 0 && PlainData(data)
    ensures Split(Join(Names(data), ':'), ':') == Names(data)
    ensures Split(TimestampText(ts) + ":" + Join(Values(data), ':'), ':') == [TimestampText(ts)] + Values(data)
  {
    PlainLists(data);
    TimestampPlain(ts);
    SplitJoin(Names(data), ':');
    SplitJoin(Values(data), ':');
    SplitAt(TimestampText(ts), Join(Values(data), ':'), ':');
    assert TimestampText(ts) + ":" + Join(Values(data), ':') == TimestampText(ts) + [':'] + Join(Values(data), ':');
  }
}
