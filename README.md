# rrd4r in Dafny

rrd4r is a Ruby binding for rrdtool, the round-robin database tool. It does
not link against librrd. Instead it builds rrdtool command text, writes that
text down a pipe to a long-running `rrdtool -` process (or runs
`rrdtool create` / `rrdtool graph` as a subprocess), and reads the
line-oriented replies. This project models that text logic and proves
properties about it. It covers:

- the `DS:` / `RRA:` tokens of the data-source and archive classes, and
  `Rrd::Builder` (module `Tokens`, module `CreateCommand`);
- the argument list of `Rrd.create`, its two validation errors, and the
  older options-only version in `lib/rrd4r.rb` (`CreateCommand`);
- the `update` command line of `update_at` (`UpdateCommand`);
- the reply framing of `rrd_pipe` over a connection object holding the
  lines sent and the reply lines still queued (`Pipe`);
- the parser of `rrdtool info` output:
  - the line regexes (`InfoLines`);
  - `_add_ds`, `_add_rra` and the `load_rrd_info` state machine as
    functions (`InfoParser`);
  - a reference reading of the dump as maximal runs of same-index lines,
    and the theorem that the parser agrees with it (`InfoRuns`);
- the `Rrd` object, whose methods change its fields in place just as the
  Ruby ones do (`Session`);
- the trunk graph serialiser: `DEF`, `LINE` and `AREA` tokens,
  `Graph::Builder`, `Graph.create` and the `to_image` argument list
  (`GraphCommand`);
- string helpers that model the Ruby operations involved (`Text`):
  - `join` and `String#split`;
  - ASCII `upcase` / `downcase` / `capitalize`;
  - `gsub` of one character;
  - `Integer#to_s`, `String#to_i`;
  - `sprintf('%08x')`.

Most of this code is the same in `trunk/lib/rrd4r.rb` and `lib/rrd4r.rb`:

- the token classes;
- `update_at`;
- `rrd_pipe`;
- `load_rrd_info`, `_add_ds`, `_add_rra`.

That shared code is modelled once. The table cites the trunk lines, with the
matching `lib` lines in the last column. Only `Rrd.create` differs, and both
versions are modelled.

Conventions:

- Every option field holds the text that Ruby's string interpolation writes
  for it. `nil` becomes the empty text, and each `||` default is applied when
  the object is built.
- Reply lines are held without their newline. `buffer.puts` adds one back, and
  `each_line` is proved to take it off again.
- An info group is a `map<string, string>` from field name to text. The
  initial `{ :name => nil }` is the empty map.
- The exceptions that `_add_ds` / `_add_rra` raise are modelled as `InfoError`
  values, and loading stops at the first one. These cover `gsub` on a missing
  type or cf, and `eval` of a name that is not a known class.

## Model

| member | source | states |
|---|---|---|
| Tokens.NormalTokenFields | trunk/lib/rrd4r.rb:33-68 | A normal source's token splits at `:` into exactly `DS`, name, upper-cased type, heartbeat (empty when absent), min and max (`U` when absent); same code at lib/rrd4r.rb:33-68 |
| Tokens.ComputedTokenFields | trunk/lib/rrd4r.rb:70-78 | A computed source splits into `DS`, name, `COMPUTE`, the RPN expression; same at lib/rrd4r.rb:70-78 |
| Tokens.ArchiveTokenFields | trunk/lib/rrd4r.rb:80-114 | An archive splits into `RRA`, upper-cased CF, xff (`0.5` when absent), steps, rows; same at lib/rrd4r.rb:80-114 |
| Tokens.KindNames | trunk/lib/rrd4r.rb:46-68 | The four kinds render as `GAUGE`, `COUNTER`, `DERIVE`, `ABSOLUTE` |
| Tokens.CfNames | trunk/lib/rrd4r.rb:92-114 | The four CFs render as `AVERAGE`, `MIN`, `MAX`, `LAST` |
| CreateCommand.RrdBuilder.constructor | trunk/lib/rrd4r.rb:117-123 | A new builder has both lists empty |
| CreateCommand.RrdBuilder.Gauge | trunk/lib/rrd4r.rb:133-135 | Appends one gauge with the given options to the data sources; archives unchanged |
| CreateCommand.RrdBuilder.Counter | trunk/lib/rrd4r.rb:137-139 | Appends one counter; archives unchanged |
| CreateCommand.RrdBuilder.Derive | trunk/lib/rrd4r.rb:141-143 | Appends one derive source; archives unchanged |
| CreateCommand.RrdBuilder.Absolute | trunk/lib/rrd4r.rb:145-147 | Appends one absolute source; archives unchanged |
| CreateCommand.RrdBuilder.Compute | trunk/lib/rrd4r.rb:149-151 | Appends one computed source; archives unchanged |
| CreateCommand.RrdBuilder.Average | trunk/lib/rrd4r.rb:153-155 | Appends one AVERAGE archive; data sources unchanged |
| CreateCommand.RrdBuilder.Min | trunk/lib/rrd4r.rb:157-159 | Appends one MIN archive; data sources unchanged |
| CreateCommand.RrdBuilder.Max | trunk/lib/rrd4r.rb:161-163 | Appends one MAX archive; data sources unchanged |
| CreateCommand.RrdBuilder.Last | trunk/lib/rrd4r.rb:165-167 | Appends one LAST archive; data sources unchanged |
| CreateCommand.AppendDsTokens | trunk/lib/rrd4r.rb:187-189 | The loop appends the token of every data source, in order |
| CreateCommand.AppendRraTokens | trunk/lib/rrd4r.rb:193-195 | The loop appends the token of every archive, in order |
| CreateCommand.CreateArgs | trunk/lib/rrd4r.rb:175-195 | No data sources gives the data-source error, even when archives are missing too. Data sources but no archives gives the archive error. Otherwise the list is the path, `--start s` only if given, `--step n` only if given, every data-source token, then every archive token |
| CreateCommand.Create | trunk/lib/rrd4r.rb:171-198 | The same, with the option-supplied sources and archives placed before the builder's |
| CreateCommand.CreateFromOptions | lib/rrd4r.rb:117-143 | Older `create`: an absent or empty `:data_sources` gives the data-source error before the archives are looked at; then an absent or empty `:archives` gives the archive error; otherwise the ordered list from the options alone |
| Pipe.Connection.Puts | trunk/lib/rrd4r.rb:309 | Logs one sent line; the queue is unchanged |
| Pipe.Connection.Gets | trunk/lib/rrd4r.rb:313 | Takes the first queued reply line |
| Pipe.EndIndex | trunk/lib/rrd4r.rb:315-319 | The position of the first line starting `OK` or `ERROR:`, and no earlier line starts that way |
| Pipe.OkIsNotError | trunk/lib/rrd4r.rb:315-318 | A line starting `OK` never counts as an error |
| Pipe.RrdPipe | trunk/lib/rrd4r.rb:306-334 | Sends exactly one command line, `command args...` joined by spaces. Consumes the reply up to and including its terminator, and later lines stay queued. The body is the preceding lines, and the error is the terminator when it starts `ERROR:`. Same at lib/rrd4r.rb:251-279 |
| Pipe.EachLine | trunk/lib/rrd4r.rb:258 | `each_line` gives lines free of newlines |
| Pipe.JoinLinesAsJoin | trunk/lib/rrd4r.rb:321 | The buffer after `puts` of each line is the lines joined by newlines, plus a final newline |
| Pipe.EachLineJoinLines | trunk/lib/rrd4r.rb:321-328 | `each_line` of the buffer gives back exactly the lines put into it |
| Pipe.FrameLines | trunk/lib/rrd4r.rb:306-334 | The block reads exactly the reply lines before the terminator |
| UpdateCommand.UpdateLineWords | trunk/lib/rrd4r.rb:232-241 | The update line splits at its spaces into `update`, path, `--template`, the colon-joined names and `ts:values`; same at lib/rrd4r.rb:177-186 |
| UpdateCommand.UpdateLineLists | trunk/lib/rrd4r.rb:238-241 | The template gives back the names in hash order. The values field gives back the timestamp and then the values in the same order |
| UpdateCommand.TimestampPlain | trunk/lib/rrd4r.rb:233-237 | The timestamp text (`N` for `:N`, else the decimal of `to_i`) holds no space and no colon |
| InfoLines.MatchFieldSound | trunk/lib/rrd4r.rb:262-273 | A line the `ds[..]`/`rra[..]` regex accepts is exactly `prefix[index].key = value` with a well-formed index and key, and a value without a newline |
| InfoLines.MatchFieldComplete | trunk/lib/rrd4r.rb:262-273 | Every such printed line is accepted, with its three captures |
| InfoLines.MatchStepSound | trunk/lib/rrd4r.rb:260 | An accepted step line is `step = ` followed by digits, and the step is their value |
| InfoLines.MatchStepComplete | trunk/lib/rrd4r.rb:260-261 | `step = n` is read back as `n` |
| InfoLines.ClassifyPrinted | trunk/lib/rrd4r.rb:259-273 | Step lines, `ds` lines and `rra` lines are told apart by the `case` |
| InfoLines.SubscriptedKeyIgnored | trunk/lib/rrd4r.rb:268-276 | A line such as `rra[0].cdp_prep[0].value = ...` matches no branch |
| InfoParser.TypedSource | trunk/lib/rrd4r.rb:285-290 | A group without `type` raises. A source that is built is a normal source with the group's name |
| InfoParser.TypedArchive | trunk/lib/rrd4r.rb:298-302 | A group without `cf` raises |
| InfoParser.AddDs | trunk/lib/rrd4r.rb:283-294 | A group without a name changes nothing. Otherwise the error of building its source is raised, or that source is appended to the list and entered in the table under its name. Success keeps the by-name table equal to the ordered list. Same at lib/rrd4r.rb:228-239 |
| InfoParser.AddRra | trunk/lib/rrd4r.rb:296-304 | A group without a name changes nothing. Otherwise the error of building its archive is raised, or exactly that archive is appended after the earlier ones. Same at lib/rrd4r.rb:241-249 |
| InfoParser.ByNameLast | trunk/lib/rrd4r.rb:292-293 | A name is in the table exactly when some listed source has it. The table holds the last such source, and a repeated name keeps every entry in the list |
| InfoParser.ScanFailureStays | trunk/lib/rrd4r.rb:258-279 | Once `_add_ds`/`_add_rra` raises, later lines are not looked at and loading fails with that error |
| InfoParser.KindFromInfo | trunk/lib/rrd4r.rb:285-286 | The quoted, upper-cased type rrdtool prints (`"GAUGE"`, ...) is read back as that kind |
| InfoParser.CfFromInfo | trunk/lib/rrd4r.rb:298-299 | The quoted, upper-cased CF is read back as that CF |
| InfoParser.AddDsOfInfo | trunk/lib/rrd4r.rb:283-294 | Any group holding the name, type, heartbeat, min and max rrdtool prints for a normal source (other keys, such as `index`, `last_ds` or `value`, may be present) is loaded back as that very source, appended and entered by name |
| InfoParser.AddRraOfInfo | trunk/lib/rrd4r.rb:296-304 | Any group holding the cf, xff, `pdp_per_row` and rows rrdtool prints for an archive (other keys, such as `cur_row`, may be present) is loaded back as exactly that archive, with `pdp_per_row` as the steps |
| InfoParser.AddRraDefaults | trunk/lib/rrd4r.rb:300-302 | Missing `pdp_per_row`, `rows` and `xff` read as `0`, `0` and `0.0` |
| InfoRuns.RunsFlatten | trunk/lib/rrd4r.rb:262-273 | Concatenated, the runs give back the fields |
| InfoRuns.RunsUniform | trunk/lib/rrd4r.rb:263 | Every field of a run has the run's index |
| InfoRuns.RunsMaximal | trunk/lib/rrd4r.rb:263-266 | Neighbouring runs have different indices |
| InfoRuns.ScanAgrees | trunk/lib/rrd4r.rb:258-277 | After every prefix of the lines, the scan holds the groups of all runs but the last as added, and the last run as the open group |
| InfoRuns.LoadInfoByRuns | trunk/lib/rrd4r.rb:254-281 | Loading succeeds exactly when adding the `ds` run groups and the `rra` run groups both succeed. The step is the last step line's, and the sources and archives are those the groups add, in order. Other lines add nothing, and the last runs are flushed. Same at lib/rrd4r.rb:199-226 |
| InfoRuns.OneSourcePerRun | trunk/lib/rrd4r.rb:262-278 | Each maximal run of `ds` lines appends exactly one source, in order of appearance: the source that `_add_ds` builds from the group of that run's fields, named after the run's index |
| InfoRuns.OneArchivePerRun | trunk/lib/rrd4r.rb:268-279 | Each maximal run of `rra` lines appends exactly one archive, in order of appearance and after the earlier ones: the archive that `_add_rra` builds from the group of that run's fields |
| Session.Rrd.constructor | trunk/lib/rrd4r.rb:204-209 | A new database has no step, no sources and no archives |
| Session.Rrd.Open | trunk/lib/rrd4r.rb:200-212 | `Rrd.new` sends one `info`. After an `ERROR:` reply the database stays empty. Otherwise it holds what `LoadInfo` reads from the reply's lines, or raises that load's error |
| Session.Rrd.DataSourceNamed | trunk/lib/rrd4r.rb:218-220 | `self[name]` finds a source exactly when one of that name was loaded, and it is the last one so named; `data_source` at lib/rrd4r.rb:163-165 |
| Session.Rrd.AddDsGroup | trunk/lib/rrd4r.rb:283-294 | Changes the fields exactly as `AddDs` says, or raises changing nothing; keeps the table consistent |
| Session.Rrd.AddRraGroup | trunk/lib/rrd4r.rb:296-304 | Changes the archives exactly as `AddRra` says, or raises changing nothing; the sources are unchanged |
| Session.Rrd.ScanInfoLine | trunk/lib/rrd4r.rb:259-276 | One pass of the line block leaves the fields and groups where `ScanLine` says |
| Session.Rrd.ScanInfo | trunk/lib/rrd4r.rb:258-277 | The line loop leaves the fields and open groups where `ScanLines` says, or stops at the first error |
| Session.Rrd.FinishInfo | trunk/lib/rrd4r.rb:278-279 | The two final flushes, as `Finish` says |
| Session.Rrd.LoadRrdInfo | trunk/lib/rrd4r.rb:254-281 | Sends one `info` command. The block runs only on `OK`, and after an `ERROR:` nothing changes. Otherwise the fields become what `LoadInfo` reads from the body's lines, or the load error is raised. Same at lib/rrd4r.rb:199-226 |
| Session.Rrd.UpdateAt | trunk/lib/rrd4r.rb:232-242 | Sends exactly the `update` line of `UpdateArgs` and returns the reply body; same at lib/rrd4r.rb:177-187 |
| Session.Rrd.Update | trunk/lib/rrd4r.rb:222-224 | An update at `N` |
| Session.Rrd.Last | trunk/lib/rrd4r.rb:226-230 | Sends `last path`. On `OK` it gives the `to_i` of the body, and after an error the raw body |
| Session.LastReadsTime | trunk/lib/rrd4r.rb:226-230 | A reply of a time line, then `OK`, is read back as that time |
| Text.Hex08 | trunk/lib/rrd4r.rb:395 | `sprintf('%08x', n)` is at least 8 lower-case hex digits denoting `n`, and exactly 8 below 2^32 |
| Text.ToIDecimal | trunk/lib/rrd4r.rb:300-301 | `to_i` reads back the decimal text of any integer |
| Text.SplitJoin | trunk/lib/rrd4r.rb:239-240 | Splitting a join at a separator absent from the parts gives the parts back |
| GraphCommand.DefTokenFields | trunk/lib/rrd4r.rb:350-366 | A `DEF` splits into `DEF`, `vname=path`, data-source name, upper-cased CF, then `step=`, `start=`, `end=`, `reduce=` in that order, each only when set |
| GraphCommand.LineTokenFields | trunk/lib/rrd4r.rb:386-408 | A `LINE`, as written, splits into `LINE<width>` (width empty by default), the value followed by its colour text (bare hex digits for an integer colour), the quoted legend (the value by default), and `STACK` when stacked |
| GraphCommand.CorrectedLineTokenFields | trunk/lib/rrd4r.rb:386-408 | The same fields for the corrected `Line`, whose integer colour text is `#` and the hex digits |
| GraphCommand.AreaTokenFields | trunk/lib/rrd4r.rb:410-424 | An `AREA` splits the same way, without a width, with the colour text as given |
| GraphCommand.LineColor | trunk/lib/rrd4r.rb:390-397 | A string colour is kept. An integer colour is `#` and its `%08x` digits (corrected, see Findings) |
| GraphCommand.LineColorAsWritten | trunk/lib/rrd4r.rb:390-397 | As written: an integer colour is its `%08x` digits with no `#` |
| GraphCommand.LineColorSeparates | trunk/lib/rrd4r.rb:394-403 | With the corrected colour, rrdtool splits `value#rrggbbaa` back into the value and the hex digits |
| GraphCommand.LineColorAsWrittenMerges | trunk/lib/rrd4r.rb:394-403 | As written, the hex digits run into the value name: there is no `#` to split at |
| GraphCommand.LineValueMerges | trunk/lib/rrd4r.rb:386-408 | For a `Line` built as written with an integer colour, the second field of its token holds no `#`: rrdtool reads value and digits as one name |
| GraphCommand.CorrectedLineValueSeparates | trunk/lib/rrd4r.rb:386-408 | For the corrected `Line`, the second field splits at `#` into the value and the colour digits |
| GraphCommand.HexPlain | trunk/lib/rrd4r.rb:395 | Hex digits hold neither `#` nor `:` |
| GraphCommand.GraphBuilder.constructor | trunk/lib/rrd4r.rb:427-433 | A new builder has no defs and no elements |
| GraphCommand.GraphBuilder.Def | trunk/lib/rrd4r.rb:440-442 | Appends one def; the elements are unchanged |
| GraphCommand.GraphBuilder.Line | trunk/lib/rrd4r.rb:443-445 | Appends one line element, built as the code is written (`NewLine`); the defs are unchanged |
| GraphCommand.GraphBuilder.Area | trunk/lib/rrd4r.rb:446-448 | Appends one area element; the defs are unchanged |
| GraphCommand.Create | trunk/lib/rrd4r.rb:451-465 | The graph has the given title, then the option defs before the builder's, and the option elements before the builder's |
| GraphCommand.AppendSettings | trunk/lib/rrd4r.rb:473-479 | `--imgformat TYPE`, then title, width, height, start, end and lower-limit, each only when given |
| GraphCommand.AppendColors | trunk/lib/rrd4r.rb:481-485 | One `--color KEYvalue` per entry, in order: the upper-cased key with the value directly after it, no space between |
| GraphCommand.AppendDefs | trunk/lib/rrd4r.rb:487-489 | Every def token, in order |
| GraphCommand.AppendElements | trunk/lib/rrd4r.rb:490-492 | Every element token, in order |
| GraphCommand.ImageArgs | trunk/lib/rrd4r.rb:473-492 | The settings, then the colours, then the defs, then the elements |
| GraphCommand.HeadArgs | trunk/lib/rrd4r.rb:473-479 | The settings start with `--imgformat TYPE` |
| GraphCommand.ImageArgsLayout | trunk/lib/rrd4r.rb:473-492 | The image format is first. Each colour, def and element sits at its own position after the settings |
| GraphCommand.TailLayout | trunk/lib/rrd4r.rb:481-492 | After any settings, each colour, def and element sits at its own position, in order |
| GraphCommand.ToImage | trunk/lib/rrd4r.rb:471-501 | The command line is `graph`, the outfile (`-` by default), then the arguments joined by spaces. The image is read back exactly when no outfile is named |
| GraphCommand.ToPng | trunk/lib/rrd4r.rb:467-469 | `to_image` with format `png` |

## Left out

- The rrdtool binary is found with `which rrdtool` (trunk/lib/rrd4r.rb:5). Finding it, opening the `rrdtool -` pipe (`connect_to_rrdtool`), running `rrd_exec`, and the `open` / `read` of `to_image` are process I/O. The model produces the command texts and takes the reply lines as a queue in `Pipe.Connection`. The command lines start after the binary's path.
- The `close` method is pipe I/O.
- The `DEBUG` `puts` calls, and the printing of an `ERROR:` line in `rrd_pipe`, are console output.
- Pipe.RrdPipe: end of file is not modelled. When `gets` returns `nil` the Ruby loop never ends, so the model requires a terminator among the queued lines.
- Floating point: the xff that `_add_rra` reads with `to_f` is kept as its text, and a missing one becomes `0.0`.
- `eval` of class names becomes a fixed map from the four kind names and the four CF names. Any other name is an `UnknownType` / `UnknownCf` error. InfoParser.TypedSource: a type printed as `"COMPUTE"` is an `UnknownType` error here. Ruby's `eval` does find `Compute`, and `_add_ds` then builds a computed source whose expression is the options hash, whose token no engine would accept; that source is not modelled.
- `Vdef`, `Cdef`, `GraphElement` and `vertical_label` are left out because they are never rendered. The stub `Line`, `Area` and `Graph` of lib/rrd4r.rb:293-332 are left out because they produce no text.
- The test files only drive the real binary.
- `DataSource#update`, `update_at` and `def` delegate to the database (trunk/lib/rrd4r.rb:22-30). These delegations and the `rrd` back-reference are left out. So is lib/rrd4r.rb's passing of `value` where trunk passes `timestamp`. `Graph::Def` is given the database path and source name directly, in place of `data_source.rrd.rrd_path` and `data_source.name`.
- lib/rrd4r.rb's `open` yields the database to a block. The block is caller code.
- After `load_rrd_info` raises, `Rrd.new` raises and the half-built object is unreachable. The model reports the error and says nothing about the fields.
- CreateCommand.Create: trunk `create` ends with `self.open(rrd_path)` (trunk/lib/rrd4r.rb:197), which loads the new database through `info`. The model returns the argument list only. Opening is modelled separately by `Session.Rrd.Open`.
- `Graph.create` also writes the merged lists back into the caller's options hash. That side effect is left out.
- GraphCommand.LineColor: a colour that is neither a `String` nor an `Integer` is ignored in Ruby and cannot be expressed here. Integers are `nat`, so negative colours (`%08x` of a negative number prints `..f` digits) are not modelled.
- `last` wraps the seconds in `Time.at`. Session.Rrd.Last returns the integer seconds.
- InfoRuns.LoadInfoByRuns assumes that no field line has the key `name`. Such a line would overwrite the group's name entry, as the Ruby hash does, and the parser model keeps that behaviour. The run theorem simply does not cover it.
- Names are strings, not symbols, so `to_sym` is the identity.
- `args.flatten` is the identity, since every argument here is a string.
- Case mapping and `to_i` are modelled for ASCII text. `to_i` of underscores or of other bases is not modelled.

## Findings

| source | as written | input that shows it | evidently intended | confidence | as-written member | corrected member |
|---|---|---|---|---|---|---|
| trunk/lib/rrd4r.rb:394-395 | An `Integer` colour of a `Line` becomes `sprintf('%08x', c)`, which has no leading `#`, and `to_s` appends it straight after the value | `line('x', :color => 0xff0000ff)` renders `LINE:xff0000ff:'x'`; rrdtool reads the whole `xff0000ff` as the value name | `#` before the digits, as in `LINE:x#ff0000ff:'x'`, the form rrdtool reads as value and colour | likely; not executed | GraphCommand.LineValueMerges | GraphCommand.CorrectedLineValueSeparates |
