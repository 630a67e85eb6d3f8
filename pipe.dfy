/**
 * The conversation with a long-running `rrdtool -` process (`rrd_pipe`): one
 * command line is written, then reply lines are read until one starting with
 * `OK` or `ERROR:`; the lines before it are the command's output.
 */
module Pipe {
  import opened Wrappers
  import opened Text

  /** The two ends of the pipe to rrdtool: the command lines written to it so
      far, and the reply lines it has yet to deliver, each without its
      newline. */
  class Connection {
    var sent: seq<string>
    var pending: seq<string>

    constructor (replies: seq<string>)
      ensures sent == [] && pending == replies
    {
      sent := [];
      pending := replies;
    }

    /** `@rrd.puts(line)`. */
    method Puts(line: string)
      modifies this
      ensures sent == old(sent) + [line]
      ensures pending == old(pending)
    {
      sent := sent + [line];
    }

    /** `@rrd.gets`: the next reply line. */
    method Gets() returns (line: string)
      requires |pending| > 0
      modifies this
      ensures line == old(pending)[0]
      ensures pending == old(pending)[1..]
      ensures sent == old(sent)
    {
      line := pending[0];
      pending := pending[1..];
    }
  }

  /** `line =~ /^OK/`. */
  predicate IsOk(line: string) { StartsWith(line, "OK") }

  /** `line =~ /^ERROR:/`. */
  predicate IsError(line: string) { StartsWith(line, "ERROR:") }

  /** A line that ends a reply. */
  predicate IsEnd(line: string) { IsOk(line) || IsError(line) }

  /** No line is both. */
  lemma OkIsNotError(line: string)
    ensures IsOk(line) ==> !IsError(line)
  {
    if IsOk(line) {
      assert line[0] == 'O';
    }
  }

  predicate HasEnd(lines: seq<string>) {
    exists i :: 0 <= i < |lines| && IsEnd(lines[i])
  }

  /** The position of the line that ends the reply: the first `OK` or
      `ERROR:` line. */
  function EndIndex(lines: seq<string>): (k: nat)
    requires HasEnd(lines)
    ensures k < |lines| && IsEnd(lines[k])
    ensures forall j :: 0 <= j < k ==> !IsEnd(lines[j])
  {
    if IsEnd(lines[0]) then 0
    else
      assert HasEnd(lines[1..]) by {
        var i :| 0 <= i < |lines| && IsEnd(lines[i]);
        assert lines[1..][i - 1] == lines[i];
      }
      1 + EndIndex(lines[1..])
  }

  /** The text a `StringIO` holds after `puts` of each line: every line
      followed by a newline. */
  function JoinLines(lines: seq<string>): string
    decreases |lines|
  {
    if |lines| == 0 then ""
    else JoinLines(lines[..|lines| - 1]) + lines[|lines| - 1] + "\n"
  }

  /** `text.each_line`, each line without its newline: a final line without
      a newline still counts, an empty text has none. */
  function EachLine(text: string): (r: seq<string>)
    ensures Avoids(r, '\n')
  {
    var pieces := Split(text, '\n');
    SplitAvoids(text, '\n');
    if pieces[|pieces| - 1] == "" then pieces[..|pieces| - 1] else pieces
  }

  /** What `rrd_pipe` hands back: the output lines as one text, and the
      `ERROR:` line if the reply ended with one (then the block is not run). */
  datatype Reply = Reply(body: string, error: Option<string>)

  /** The reply that the queued lines `lines` make up. */
  function Frame(lines: seq<string>): (r: Reply)
    requires HasEnd(lines)
  {
    var k := EndIndex(lines);
    Reply(JoinLines(lines[..k]), if IsError(lines[k]) then Some(lines[k]) else None)
  }

  /** `"#{command} #{args.flatten.join(' ')}"`. */
  function CommandLine(command: string, args: seq<string>): string {
    command + " " + Join(args, ' ')
  }

  /** `rrd_pipe(command, *args)`: writes the command line, then consumes the
      reply up to and including its terminating line and no further; the
      lines after it stay queued for the next command. */
  method RrdPipe(io: Connection, command: string, args: seq<string>) returns (reply: Reply)
    requires HasEnd(io.pending)
    modifies io
    ensures io.sent == old(io.sent) + [CommandLine(command, args)]
    ensures reply == Frame(old(io.pending))
    ensures io.pending == old(io.pending)[EndIndex(old(io.pending)) + 1..]
  {
    io.Puts(CommandLine(command, args));
    ghost var queued := io.pending;
    ghost var k := EndIndex(queued);
    var buffer := "";
    var error: Option<string> := None;
    ghost var i := 0;
    while true
      invariant 0 <= i <= k
      invariant io.pending == queued[i..]
      invariant buffer == JoinLines(queued[..i])
      invariant io.sent == old(io.sent) + [CommandLine(command, args)]
      decreases |io.pending|
    {
      var line := io.Gets();
      assert line == queued[i];
      if IsOk(line) {
        OkIsNotError(line);
        break;
      } else if IsError(line) {
        error := Some(line);
        break;
      } else {
        assert queued[..i + 1][..i] == queued[..i];
        buffer := buffer + line + "\n";
        i := i + 1;
      }
    }
    assert i == k;
    assert error == (if IsError(queued[k]) then Some(queued[k]) else None);
    reply := Reply(buffer, error);
    assert reply == Frame(queued);
  }

  /** `puts` leaves a text that `each_line` reads back line by line. */
  lemma {:induction false} JoinLinesAsJoin(lines: seq<string>)
    requires |lines| > 0
    ensures JoinLines(lines) == Join(lines, '\n') + "\n"
    decreases |lines|
  {
    var n := |lines|;
    if n > 1 {
      var init := lines[..n - 1];
      JoinLinesAsJoin(init);
      JoinSnoc(init, lines[n - 1], '\n');
      assert init + [lines[n - 1]] == lines;
    }
  }

  /** The body of a reply is read back as exactly the lines that preceded
      its terminating line, when those lines hold no newline. */
  lemma EachLineJoinLines(lines: seq<string>)
    requires Avoids(lines, '\n')
    ensures EachLine(JoinLines(lines)) == lines
  {
    if |lines| > 0 {
      JoinLinesAsJoin(lines);
      JoinSnoc(lines, "", '\n');
      assert Join(lines + [""], '\n') == JoinLines(lines);
      SplitJoin(lines + [""], '\n');
      var pieces := Split(JoinLines(lines), '\n');
      assert pieces == lines + [""];
      assert pieces[|pieces| - 1] == "";
      assert pieces[..|pieces| - 1] == lines;
    }
  }

  /** The output a block of `rrd_pipe` gets to read. */
  lemma FrameLines(lines: seq<string>)
    requires HasEnd(lines) && Avoids(lines, '\n')
    ensures EachLine(Frame(lines).body) == lines[..EndIndex(lines)]
  {
    EachLineJoinLines(lines[..EndIndex(lines)]);
  }
}
