/**
 * The lines of `rrdtool info` output that `load_rrd_info` recognises:
 * `step = N`, and field lines `ds[X].key = value` and `rra[X].key = value`,
 * matched by the regular expressions `/^step = ([0-9]+)$/` and
 * `/^ds\[([A-Za-z0-9_]+)\]\.([a-z_]+) = (.*)$/` (and the same with `rra`).
 * Every other line is ignored.
 */
module InfoLines {
  import opened Wrappers
  import opened Text

  /** The three captures of a field line: the index `X`, the key, the value. */
  datatype Field = Field(index: string, key: string, value: string)

  /** `[A-Za-z0-9_]`. */
  predicate IsIndexChar(c: char) {
    'A' <= c <= 'Z' || 'a' <= c <= 'z' || '0' <= c <= '9' || c == '_'
  }

  /** `[a-z_]`. */
  predicate IsKeyChar(c: char) {
    'a' <= c <= 'z' || c == '_'
  }

  /** The longest prefix of `[A-Za-z0-9_]` characters. */
  function IndexSpan(s: string): (n: nat)
    ensures n <= |s|
    ensures forall i :: 0 <= i < n ==> IsIndexChar(s[i])
    ensures n < |s| ==> !IsIndexChar(s[n])
    decreases |s|
  {
    if |s| == 0 || !IsIndexChar(s[0]) then 0 else 1 + IndexSpan(s[1..])
  }

  /** The longest prefix of `[a-z_]` characters. */
  function KeySpan(s: string): (n: nat)
    ensures n <= |s|
    ensures forall i :: 0 <= i < n ==> IsKeyChar(s[i])
    ensures n < |s| ==> !IsKeyChar(s[n])
    decreases |s|
  {
    if |s| == 0 || !IsKeyChar(s[0]) then 0 else 1 + KeySpan(s[1..])
  }

  predicate IsIndex(s: string) {
    |s| > 0 && forall i :: 0 <= i < |s| ==> IsIndexChar(s[i])
  }

  predicate IsKey(s: string) {
    |s| > 0 && forall i :: 0 <= i < |s| ==> IsKeyChar(s[i])
  }

  /** The captures a matching line can have: `(.*)` stops at a newline. */
  predicate WellFormed(f: Field) {
    IsIndex(f.index) && IsKey(f.key) && '\n' !in f.value
  }

  /** The line that `rrdtool info` prints for a field. */
  function FieldLine(prefix: string, f: Field): string {
    prefix + "[" + IndexText(f)
  }

  /** What follows `ds[` in a field line. */
  function IndexText(f: Field): string {
    f.index + ("]." + KeyText(f.key, f.value))
  }

  /** What follows `].` in a field line. */
  function KeyText(key: string, value: string): string {
    key + (" = " + value)
  }

  /** The field regular expression for `prefix` (`ds` or `rra`) applied to one
      line: since neither an index nor a key can contain the character that
      follows it, the match is unique when there is one. */
  function MatchField(prefix: string, line: string): (r: Option<Field>)
  {
    var open := prefix + "[";
    if !StartsWith(line, open) then None
    else
      match MatchIndex(line[|open|..])
      case None => None
      case Some(f) => Some(f)
  }

  /** What follows `ds[`: the index, `].`, then the key and value. */
  function MatchIndex(s: string): (r: Option<Field>)
  {
    var n := IndexSpan(s);
    if n == 0 || !StartsWith(s[n..], "].") then None
    else
      match MatchKey(s[n + 2..])
      case None => None
      case Some(kv) => Some(Field(s[..n], kv.0, kv.1))
  }

  /** What follows `].`: the key, ` = `, then the value up to the end of the line. */
  function MatchKey(t: string): (r: Option<(string, string)>)
  {
    var m := KeySpan(t);
    if m == 0 || !StartsWith(t[m..], " = ") then None
    else
      var v := t[m + 3..];
      if '\n' in v then None else Some((t[..m], v))
  }

  lemma {:induction false} IndexSpanOf(a: string, b: string)
    requires forall i :: 0 <= i < |a| ==> IsIndexChar(a[i])
    requires |b| > 0 && !IsIndexChar(b[0])
    ensures IndexSpan(a + b) == |a|
    decreases |a|
  {
    if |a| > 0 {
      assert (a + b)[1..] == a[1..] + b;
      IndexSpanOf(a[1..], b);
    }
  }

  lemma {:induction false} KeySpanOf(a: string, b: string)
    requires forall i :: 0 <= i < |a| ==> IsKeyChar(a[i])
    requires |b| > 0 && !IsKeyChar(b[0])
    ensures KeySpan(a + b) == |a|
    decreases |a|
  {
    if |a| > 0 {
      assert (a + b)[1..] == a[1..] + b;
      KeySpanOf(a[1..], b);
    }
  }

  /** A text starting with `p` is `p` followed by the rest. */
  lemma Peel(p: string, rest: string)
    ensures StartsWith(p + rest, p)
    ensures (p + rest)[..|p|] == p && (p + rest)[|p|..] == rest
  {
  }

  lemma Unpeel(s: string, p: string)
    requires StartsWith(s, p)
    ensures s == p + s[|p|..]
  {
  }

  lemma MatchKeySound(t: string)
    requires MatchKey(t).Some?
    ensures IsKey(MatchKey(t).value.0) && '\n' !in MatchKey(t).value.1
    ensures t == KeyText(MatchKey(t).value.0, MatchKey(t).value.1)
  {
    var m := KeySpan(t);
    Unpeel(t[m..], " = ");
    assert t == t[..m] + t[m..];
  }

  lemma MatchKeyComplete(key: string, value: string)
    requires IsKey(key) && '\n' !in value
    ensures MatchKey(KeyText(key, value)) == Some((key, value))
  {
    KeySpanOf(key, " = " + value);
    Peel(key, " = " + value);
    Peel(" = ", value);
  }

  lemma MatchIndexParts(s: string)
    requires MatchIndex(s).Some?
    ensures var n := IndexSpan(s);
      && 0 < n && n + 2 <= |s| && StartsWith(s[n..], "].")
      && MatchKey(s[n + 2..]).Some?
      && MatchIndex(s).value == Field(s[..n], MatchKey(s[n + 2..]).value.0, MatchKey(s[n + 2..]).value.1)
  {
  }

  lemma MatchIndexSound(s: string)
    requires MatchIndex(s).Some?
    ensures WellFormed(MatchIndex(s).value)
    ensures s == IndexText(MatchIndex(s).value)
  {
    MatchIndexParts(s);
    var n := IndexSpan(s);
    var t := s[n + 2..];
    var f := MatchIndex(s).value;
    MatchKeySound(t);
    SpliceIndex(s, n, t);
    assert IsIndex(f.index);
  }

  lemma SpliceIndex(s: string, n: nat, t: string)
    requires n + 2 <= |s| && StartsWith(s[n..], "].") && t == s[n + 2..]
    ensures s == s[..n] + ("]." + t)
  {
    Unpeel(s[n..], "].");
    assert s[n..][2..] == t;
    assert s == s[..n] + s[n..];
  }

  lemma MatchIndexComplete(f: Field)
    requires WellFormed(f)
    ensures MatchIndex(IndexText(f)) == Some(f)
  {
    var t := KeyText(f.key, f.value);
    var s := IndexText(f);
    IndexSpanOf(f.index, "]." + t);
    Peel(f.index, "]." + t);
    Peel("].", t);
    assert s[|f.index|..][2..] == t;
    MatchKeyComplete(f.key, f.value);
  }

  /** A line matches only if it is the printed form of the captured field. */
  lemma MatchFieldSound(prefix: string, line: string)
    requires MatchField(prefix, line).Some?
    ensures WellFormed(MatchField(prefix, line).value)
    ensures line == FieldLine(prefix, MatchField(prefix, line).value)
  {
    MatchIndexSound(line[|prefix + "["|..]);
    Unpeel(line, prefix + "[");
  }

  /** Every well-formed field line is recognised, with its own captures. */
  lemma MatchFieldComplete(prefix: string, f: Field)
    requires WellFormed(f)
    ensures MatchField(prefix, FieldLine(prefix, f)) == Some(f)
  {
    Peel(prefix + "[", IndexText(f));
    MatchIndexComplete(f);
  }

  /** `/^step = ([0-9]+)$/` and `$1.to_i`. */
  function MatchStep(line: string): (r: Option<nat>)
  {
    if !StartsWith(line, "step = ") then None
    else
      var d := line[7..];
      if |d| > 0 && DigitSpan(d) == |d| then
        assert d[..|d|] == d;
        Some(ValueIn(d, 10))
      else None
  }

  /** The line that `rrdtool info` prints for the step. */
  function StepText(n: nat): string {
    "step = " + Decimal(n)
  }

  /** A step line is `step = ` and a non-empty run of decimal digits (leading
      zeros allowed), and the step is the number they denote. */
  lemma MatchStepSound(line: string)
    requires MatchStep(line).Some?
    ensures |line| > 7 && line == "step = " + line[7..]
    ensures DigitsIn(line[7..], 10) && ValueIn(line[7..], 10) == MatchStep(line).value
  {
    var d := line[7..];
    assert d[..|d|] == d;
    assert line[..7] == "step = ";
  }

  lemma MatchStepComplete(n: nat)
    ensures MatchStep(StepText(n)) == Some(n)
  {
    var line := StepText(n);
    var d := Decimal(n);
    assert line[..7] == "step = ";
    assert line[7..] == d;
    DigitSpanAll(d);
  }

  /** The `case` of `load_rrd_info`: the first pattern that matches wins. */
  datatype LineKind =
    | StepLine(step: nat)
    | DsLine(field: Field)
    | RraLine(field: Field)
    | OtherLine

  function Classify(line: string): (k: LineKind)
  {
    if MatchStep(line).Some? then StepLine(MatchStep(line).value)
    else if MatchField("ds", line).Some? then DsLine(MatchField("ds", line).value)
    else if MatchField("rra", line).Some? then RraLine(MatchField("rra", line).value)
    else OtherLine
  }

  /** The printed forms are told apart: a step line, a `ds` field line and an
      `rra` field line are each classified as what they are. */
  lemma ClassifyPrinted(n: nat, f: Field)
    requires WellFormed(f)
    ensures Classify(StepText(n)) == StepLine(n)
    ensures Classify(FieldLine("ds", f)) == DsLine(f)
    ensures Classify(FieldLine("rra", f)) == RraLine(f)
  {
    MatchStepComplete(n);
    MatchFieldComplete("ds", f);
    MatchFieldComplete("rra", f);
    var ds := FieldLine("ds", f);
    var rra := FieldLine("rra", f);
    assert ds[0] == 'd' && rra[0] == 'r';
    assert !StartsWith(ds, "step = ") by { assert "step = "[0] == 's'; }
    assert !StartsWith(rra, "step = ") by { assert "step = "[0] == 's'; }
    assert !StartsWith(rra, "ds[") by { assert "ds["[0] == 'd'; }
  }

  /** A field line for `prefix` is matched by what follows `prefix[`. */
  lemma MatchFieldAfter(prefix: string, s: string)
    ensures MatchField(prefix, prefix + "[" + s) == MatchIndex(s)
  {
    Peel(prefix + "[", s);
  }

  /** After a well-formed index and `].`, the key stage decides. */
  lemma MatchIndexAfter(index: string, t: string)
    requires IsIndex(index)
    ensures MatchIndex(index + ("]." + t))
         == (if MatchKey(t).Some? then Some(Field(index, MatchKey(t).value.0, MatchKey(t).value.1)) else None)
  {
    IndexSpanOf(index, "]." + t);
    Peel(index, "]." + t);
    Peel("].", t);
  }

  /** A key followed by anything but ` = ` is no match. */
  lemma MatchKeyBracket(key: string, rest: string)
    requires IsKey(key)
    ensures MatchKey(key + ("[" + rest)) == None
  {
    KeySpanOf(key, "[" + rest);
    Peel(key, "[" + rest);
    assert ("[" + rest)[0] == '[';
  }

  /** A line whose key is followed by `[` (such as the consolidation state
      `rra[0].cdp_prep[0].value = NaN`) is no field line: the key must be
      followed by ` = `. */
  lemma SubscriptedKeyIgnored(index: string, key: string, rest: string)
    requires IsIndex(index) && IsKey(key)
    ensures Classify("rra[" + (index + ("]." + (key + ("[" + rest))))) == OtherLine
  {
    var kt := key + ("[" + rest);
    var line := "rra[" + (index + ("]." + kt));
    assert !StartsWith(line, "step = ") by { assert line[0] == 'r'; }
    assert !StartsWith(line, "ds[") by { assert line[0] == 'r'; }
    MatchFieldAfter("rra", index + ("]." + kt));
    MatchKeyBracket(key, rest);
    MatchIndexAfter(index, kt);
  }
}
