/**
 * The line-based rewrite at the heart of `update_yaml_with_ips` in
 * update-blocklist.py: one pass over the lines of AdGuardHome.yaml that
 * replaces the block under every `disallowed_clients:` key by one
 * `- <ip>` item per entry, and passes every other line through.
 *
 * `PatchFrom` is the specification of the loop: the output produced from a
 * suffix of the lines, given the loop state (`inside_disallowed`,
 * `disallowed_indent`) on entry. `PatchLines` is the loop itself.
 */
module Patcher {
  import opened PyStr

  const Key := "disallowed_clients:"

  /** The two loop variables: `inside_disallowed` and, while it is true, `disallowed_indent`. */
  datatype Block = Outside | Inside(indent: string)

  /** `line[:len(line) - len(line.lstrip())]`. */
  function Indent(line: string): string {
    line[..LeadingSpace(line)]
  }

  /** The left-stripped line starts with the key. */
  predicate IsKeyLine(line: string) {
    StartsWith(LStrip(line), Key)
  }

  predicate IsBlank(line: string) {
    Strip(line) == ""
  }

  /** Inside a block, this line is the first one not belonging to it. */
  predicate EndsBlock(line: string, indent: string) {
    IsBlank(line) || LeadingSpace(line) <= |indent|
  }

  /** `f"{disallowed_indent}  - {ip}"`. */
  function EntryLine(indent: string, ip: string): string {
    indent + "  - " + ip
  }

  function Entries(indent: string, ips: seq<string>): seq<string> {
    seq(|ips|, k requires 0 <= k < |ips| => EntryLine(indent, ips[k]))
  }

  /** `line.rstrip("\n")`: a line as it is appended to `output_lines`. */
  function Emit(line: string): string {
    RStripChar(line, '\n')
  }

  /** Every line emitted as it is, in order. */
  function EmitAll(lines: seq<string>): seq<string> {
    if lines == [] then [] else [Emit(lines[0])] + EmitAll(lines[1..])
  }

  /** The output of the loop over `lines`, started in state `st`. */
  function PatchFrom(lines: seq<string>, st: Block, ips: seq<string>): seq<string>
    decreases |lines|
  {
    if lines == [] then []
    else
      var line := lines[0];
      if IsKeyLine(line) then
        [Emit(line)] + Entries(Indent(line), ips) + PatchFrom(lines[1..], Inside(Indent(line)), ips)
      else if st.Inside? && !EndsBlock(line, st.indent) then
        PatchFrom(lines[1..], st, ips)
      else
        [Emit(line)] + PatchFrom(lines[1..], Outside, ips)
  }

  function Patch(lines: seq<string>, ips: seq<string>): seq<string> {
    PatchFrom(lines, Outside, ips)
  }

  /** `"\n".join(output_lines) + "\n"`: the text written to the temporary file. */
  function Render(out: seq<string>): string {
    Join(out, "\n") + "\n"
  }

  /** The new content of AdGuardHome.yaml, given its old content. */
  function Apply(text: string, ips: seq<string>): string {
    Render(Patch(ReadLines(text), ips))
  }

  /** Each line followed by "\n": the lines a file holding `Render(out)` is read back as. */
  function Terminate(out: seq<string>): seq<string> {
    seq(|out|, k requires 0 <= k < |out| => out[k] + "\n")
  }

  /** The loop of `update_yaml_with_ips` (update-blocklist.py, lines 68-101). */
  method PatchLines(lines: seq<string>, ips: seq<string>) returns (output_lines: seq<string>)
    ensures output_lines == Patch(lines, ips)
  {
    output_lines := [];
    var inside_disallowed := false;
    var disallowed_indent := "";
    var i := 0;
    while i < |lines|
      invariant 0 <= i <= |lines|
      invariant output_lines + PatchFrom(lines[i..], StateOf(inside_disallowed, disallowed_indent), ips)
                == Patch(lines, ips)
    {
      var line := lines[i];
      ghost var st := StateOf(inside_disallowed, disallowed_indent);
      LoopTests(line, disallowed_indent);
      var stripped := LStrip(line);
      var indent := line[..|line| - |stripped|];
      if StartsWith(stripped, Key) {
        StepKey(lines, i, st, output_lines, ips);
        disallowed_indent := indent;
        output_lines := output_lines + [RStripChar(line, '\n')];
        inside_disallowed := true;
        var formatted_ips := Entries(disallowed_indent, ips);
        output_lines := output_lines + formatted_ips;
      } else if inside_disallowed {
        if Strip(line) == "" || |line| - |LStrip(line)| <= |disallowed_indent| {
          StepEmit(lines, i, st, output_lines, ips);
          inside_disallowed := false;
          output_lines := output_lines + [RStripChar(line, '\n')];
        } else {
          StepDrop(lines, i, st, output_lines, ips);
        }
      } else {
        StepEmit(lines, i, st, output_lines, ips);
        output_lines := output_lines + [RStripChar(line, '\n')];
      }
      i := i + 1;
    }
  }

  function StateOf(inside_disallowed: bool, disallowed_indent: string): Block {
    if inside_disallowed then Inside(disallowed_indent) else Outside
  }

  // One pass of the loop body, one lemma per branch: how the output so far
  // plus the output still to come splits into what line `i` contributes and
  // the output from the next line on.

  /** A key line: emitted, followed by the entries; a block at its indent begins. */
  lemma StepKey(lines: seq<string>, i: nat, st: Block, done: seq<string>, ips: seq<string>)
    requires i < |lines| && IsKeyLine(lines[i])
    ensures done + PatchFrom(lines[i..], st, ips)
            == done + [Emit(lines[i])] + Entries(Indent(lines[i]), ips) + PatchFrom(lines[i + 1..], Inside(Indent(lines[i])), ips)
  {
    assert lines[i..][0] == lines[i] && lines[i..][1..] == lines[i + 1..];
  }

  /** A line inside a block that does not end it: dropped. */
  lemma StepDrop(lines: seq<string>, i: nat, st: Block, done: seq<string>, ips: seq<string>)
    requires i < |lines| && !IsKeyLine(lines[i]) && st.Inside? && !EndsBlock(lines[i], st.indent)
    ensures done + PatchFrom(lines[i..], st, ips) == done + PatchFrom(lines[i + 1..], st, ips)
  {
    assert lines[i..][0] == lines[i] && lines[i..][1..] == lines[i + 1..];
  }

  /** Any other line: emitted, and the loop is outside a block afterwards. */
  lemma StepEmit(lines: seq<string>, i: nat, st: Block, done: seq<string>, ips: seq<string>)
    requires i < |lines| && !IsKeyLine(lines[i]) && !(st.Inside? && !EndsBlock(lines[i], st.indent))
    ensures done + PatchFrom(lines[i..], st, ips) == done + [Emit(lines[i])] + PatchFrom(lines[i + 1..], Outside, ips)
  {
    assert lines[i..][0] == lines[i] && lines[i..][1..] == lines[i + 1..];
  }

  /** The tests the loop body writes out are the classification `PatchFrom` uses. */
  lemma LoopTests(line: string, indent: string)
    ensures StartsWith(LStrip(line), Key) == IsKeyLine(line)
    ensures line[..|line| - |LStrip(line)|] == Indent(line)
    ensures (Strip(line) == "" || |line| - |LStrip(line)| <= |indent|) == EndsBlock(line, indent)
  {
    assert |line| - |LStrip(line)| == LeadingSpace(line);
  }

  // ------------------------------------------------- shape of the output

  /** Lines before the first key line come out unchanged, only without their "\n". */
  lemma {:induction false} PassThrough(pre: seq<string>, rest: seq<string>, ips: seq<string>)
    requires forall k :: 0 <= k < |pre| ==> !IsKeyLine(pre[k])
    ensures Patch(pre + rest, ips) == EmitAll(pre) + Patch(rest, ips)
    decreases |pre|
  {
    if pre == [] {
      assert pre + rest == rest;
    } else {
      assert (pre + rest)[0] == pre[0] && (pre + rest)[1..] == pre[1..] + rest;
      PassThrough(pre[1..], rest, ips);
    }
  }

  /** Inside a block, the deeper-indented non-blank lines are dropped. */
  lemma {:induction false} DropBlock(body: seq<string>, rest: seq<string>, indent: string, ips: seq<string>)
    requires forall k :: 0 <= k < |body| ==> !IsKeyLine(body[k]) && !EndsBlock(body[k], indent)
    ensures PatchFrom(body + rest, Inside(indent), ips) == PatchFrom(rest, Inside(indent), ips)
    decreases |body|
  {
    if body == [] {
      assert body + rest == rest;
    } else {
      assert (body + rest)[0] == body[0] && (body + rest)[1..] == body[1..] + rest;
      DropBlock(body[1..], rest, indent, ips);
    }
  }

  /** The lines of a block under `key`: neither a key line nor one that ends the block. */
  predicate InBlock(body: seq<string>, key: string) {
    forall k :: 0 <= k < |body| ==> !IsKeyLine(body[k]) && !EndsBlock(body[k], Indent(key))
  }

  predicate NoKeyLine(lines: seq<string>) {
    forall k :: 0 <= k < |lines| ==> !IsKeyLine(lines[k])
  }

  /** A key line starts a block whatever the state: it is emitted, followed by the entries. */
  lemma KeyFirst(line: string, rest: seq<string>, st: Block, ips: seq<string>)
    requires IsKeyLine(line)
    ensures PatchFrom([line] + rest, st, ips)
            == [Emit(line)] + Entries(Indent(line), ips) + PatchFrom(rest, Inside(Indent(line)), ips)
  {
    assert ([line] + rest)[0] == line && ([line] + rest)[1..] == rest;
  }

  /** The line that ends a block is emitted, and the loop is outside a block again. */
  lemma BoundaryFirst(line: string, rest: seq<string>, indent: string, ips: seq<string>)
    requires !IsKeyLine(line) && EndsBlock(line, indent)
    ensures PatchFrom([line] + rest, Inside(indent), ips) == [Emit(line)] + PatchFrom(rest, Outside, ips)
  {
    assert ([line] + rest)[0] == line && ([line] + rest)[1..] == rest;
  }

  /**
   * The first key line is kept verbatim (inline value included), followed by
   * one item per entry at two more columns; its old block is dropped; the
   * line that ends the block, and everything after it, is processed as usual.
   */
  lemma BlockReplaced(pre: seq<string>, key: string, body: seq<string>, boundary: string,
                      rest: seq<string>, ips: seq<string>)
    requires NoKeyLine(pre) && IsKeyLine(key) && InBlock(body, key)
    requires !IsKeyLine(boundary) && EndsBlock(boundary, Indent(key))
    ensures Patch(pre + [key] + body + [boundary] + rest, ips)
            == EmitAll(pre) + [Emit(key)] + Entries(Indent(key), ips) + [Emit(boundary)] + Patch(rest, ips)
  {
    var ind := Indent(key);
    var last := [boundary] + rest;
    var tail := [key] + (body + last);
    calc {
      Patch(pre + [key] + body + [boundary] + rest, ips);
      { Nest(pre, key, body, boundary, rest); }
      Patch(pre + tail, ips);
      { PassThrough(pre, tail, ips); }
      EmitAll(pre) + PatchFrom(tail, Outside, ips);
      { KeyFirst(key, body + last, Outside, ips); }
      EmitAll(pre) + ([Emit(key)] + Entries(ind, ips) + PatchFrom(body + last, Inside(ind), ips));
      { DropBlock(body, last, ind, ips); }
      EmitAll(pre) + ([Emit(key)] + Entries(ind, ips) + PatchFrom(last, Inside(ind), ips));
      { BoundaryFirst(boundary, rest, ind, ips); }
      EmitAll(pre) + ([Emit(key)] + Entries(ind, ips) + ([Emit(boundary)] + Patch(rest, ips)));
      { Regroup(EmitAll(pre), [Emit(key)], Entries(ind, ips), [Emit(boundary)], Patch(rest, ips)); }
      EmitAll(pre) + [Emit(key)] + Entries(ind, ips) + [Emit(boundary)] + Patch(rest, ips);
    }
  }

  lemma Regroup(a: seq<string>, b: seq<string>, c: seq<string>, d: seq<string>, e: seq<string>)
    ensures a + (b + c + (d + e)) == a + b + c + d + e
  {
  }

  /** A block that runs to the end of the input is simply terminated there. */
  lemma BlockAtEnd(pre: seq<string>, key: string, body: seq<string>, ips: seq<string>)
    requires NoKeyLine(pre) && IsKeyLine(key) && InBlock(body, key)
    ensures Patch(pre + [key] + body, ips) == EmitAll(pre) + [Emit(key)] + Entries(Indent(key), ips)
  {
    var ind := Indent(key);
    var tail := [key] + (body + []);
    calc {
      Patch(pre + [key] + body, ips);
      { assert pre + [key] + body == pre + tail; }
      Patch(pre + tail, ips);
      { PassThrough(pre, tail, ips); }
      EmitAll(pre) + PatchFrom(tail, Outside, ips);
      { KeyFirst(key, body + [], Outside, ips); }
      EmitAll(pre) + ([Emit(key)] + Entries(ind, ips) + PatchFrom(body + [], Inside(ind), ips));
      { DropBlock(body, [], ind, ips); }
      EmitAll(pre) + ([Emit(key)] + Entries(ind, ips) + []);
      { Regroup(EmitAll(pre), [Emit(key)], Entries(ind, ips), [], []); }
      EmitAll(pre) + [Emit(key)] + Entries(ind, ips);
    }
  }

  /** A key line met while inside a block is patched too, and starts a block of its own. */
  lemma KeyInsideBlock(pre: seq<string>, key: string, body: seq<string>, key2: string,
                       rest: seq<string>, ips: seq<string>)
    requires NoKeyLine(pre) && IsKeyLine(key) && InBlock(body, key) && IsKeyLine(key2)
    ensures Patch(pre + [key] + body + [key2] + rest, ips)
            == EmitAll(pre) + [Emit(key)] + Entries(Indent(key), ips)
               + [Emit(key2)] + Entries(Indent(key2), ips) + PatchFrom(rest, Inside(Indent(key2)), ips)
  {
    var ind := Indent(key);
    var ind2 := Indent(key2);
    var after := [key2] + rest;
    var tail := [key] + (body + after);
    var second := [Emit(key2)] + Entries(ind2, ips);
    calc {
      Patch(pre + [key] + body + [key2] + rest, ips);
      { Nest(pre, key, body, key2, rest); }
      Patch(pre + tail, ips);
      { PassThrough(pre, tail, ips); }
      EmitAll(pre) + PatchFrom(tail, Outside, ips);
      { KeyFirst(key, body + after, Outside, ips); }
      EmitAll(pre) + ([Emit(key)] + Entries(ind, ips) + PatchFrom(body + after, Inside(ind), ips));
      { DropBlock(body, after, ind, ips); }
      EmitAll(pre) + ([Emit(key)] + Entries(ind, ips) + PatchFrom(after, Inside(ind), ips));
      { KeyFirst(key2, rest, Inside(ind), ips); }
      EmitAll(pre) + ([Emit(key)] + Entries(ind, ips) + (second + PatchFrom(rest, Inside(ind2), ips)));
      { Regroup(EmitAll(pre), [Emit(key)], Entries(ind, ips), second, PatchFrom(rest, Inside(ind2), ips)); }
      EmitAll(pre) + [Emit(key)] + Entries(ind, ips) + second + PatchFrom(rest, Inside(ind2), ips);
      { Regroup4(EmitAll(pre) + [Emit(key)] + Entries(ind, ips), [Emit(key2)], Entries(ind2, ips), PatchFrom(rest, Inside(ind2), ips)); }
      EmitAll(pre) + [Emit(key)] + Entries(ind, ips) + [Emit(key2)] + Entries(ind2, ips) + PatchFrom(rest, Inside(ind2), ips);
    }
  }

  lemma Nest(pre: seq<string>, key: string, body: seq<string>, line: string, rest: seq<string>)
    ensures pre + [key] + body + [line] + rest == pre + ([key] + (body + ([line] + rest)))
  {
  }

  lemma Regroup4(a: seq<string>, b: seq<string>, c: seq<string>, d: seq<string>)
    ensures a + (b + c) + d == a + b + c + d
  {
  }

  /** Without a key line the lines pass through one for one; nothing is appended. */
  lemma NoKeyLinesUnchanged(lines: seq<string>, ips: seq<string>)
    requires NoKeyLine(lines)
    ensures Patch(lines, ips) == EmitAll(lines)
  {
    PassThrough(lines, [], ips);
    assert lines + [] == lines;
  }

  // ------------------------------------------------ the written text

  /** Ends `text` with a "\n" unless it already does. */
  function Terminated(text: string): string {
    if text != [] && text[|text| - 1] == '\n' then text else text + "\n"
  }

  /** On a line as a file yields it, `rstrip("\n")` removes exactly its terminator. */
  lemma EmitLine(line: string)
    requires line != [] && LineShaped(line)
    ensures '\n' !in Emit(line)
    ensures line[|line| - 1] == '\n' ==> Emit(line) + "\n" == line
    ensures line[|line| - 1] != '\n' ==> Emit(line) == line
  {
    var e := Emit(line);
    if line[|line| - 1] == '\n' {
      assert |e| < |line|;
      assert line[|e|] == '\n';
      assert e + "\n" == line;
    }
  }

  lemma RenderCons(e: string, es: seq<string>)
    requires es != []
    ensures Render([e] + es) == e + "\n" + Render(es)
  {
    assert ([e] + es)[1..] == es;
  }

  /** Rewriting a document without a key line only makes sure it ends with a newline. */
  lemma {:induction false} RenderEmitAll(text: string)
    ensures Render(EmitAll(ReadLines(text))) == Terminated(text)
    decreases |text|
  {
    if text != [] {
      var n := LineLength(text);
      var line := text[..n];
      var rest := text[n..];
      assert text == line + rest;
      assert ReadLines(text) == [line] + ReadLines(rest);
      EmitLine(line);
      if rest == [] {
        assert ([line] + ReadLines(rest))[1..] == [];
      } else {
        RenderEmitAll(rest);
        RenderEmitLine(line, rest);
      }
    }
  }

  /** One more line, terminated by "\n", in front of a non-empty rest. */
  lemma RenderEmitLine(line: string, rest: string)
    requires rest != [] && Emit(line) + "\n" == line
    requires Render(EmitAll(ReadLines(rest))) == Terminated(rest)
    ensures Render(EmitAll([line] + ReadLines(rest))) == Terminated(line + rest)
  {
    var more := ReadLines(rest);
    assert more != [];
    assert ([line] + more)[1..] == more;
    RenderCons(Emit(line), EmitAll(more));
    TerminatedAppend(line, rest);
  }

  lemma TerminatedAppend(a: string, b: string)
    requires b != []
    ensures Terminated(a + b) == a + Terminated(b)
  {
    assert (a + b)[|a + b| - 1] == b[|b| - 1];
    if b[|b| - 1] != '\n' {
      assert a + b + "\n" == a + (b + "\n");
    }
  }

  /** A document with no `disallowed_clients:` line is written back as it was. */
  lemma NoKeyPassesThrough(text: string, ips: seq<string>)
    requires NoKeyLine(ReadLines(text))
    ensures Apply(text, ips) == Terminated(text)
  {
    NoKeyLinesUnchanged(ReadLines(text), ips);
    RenderEmitAll(text);
  }

  /** Reading the written text back gives exactly the emitted lines, each with one "\n". */
  lemma {:induction false} RenderReadBack(out: seq<string>)
    requires out != []
    requires NoNewlines(out)
    ensures ReadLines(Render(out)) == Terminate(out)
    decreases |out|
  {
    var o := out[0];
    LineLengthOf(o, Join(out[1..], "\n") + "\n");
    if |out| == 1 {
      assert Render(out) == o + "\n" + "";
      assert (o + "\n" + "")[|o| + 1..] == "";
    } else {
      var rest := Render(out[1..]);
      assert Render(out) == o + "\n" + rest;
      assert (o + "\n" + rest)[..|o| + 1] == o + "\n";
      assert (o + "\n" + rest)[|o| + 1..] == rest;
      RenderReadBack(out[1..]);
      assert Terminate(out) == [o + "\n"] + Terminate(out[1..]);
    }
  }

  lemma {:induction false} LineLengthOf(o: string, t: string)
    requires '\n' !in o
    ensures LineLength(o + "\n" + t) == |o| + 1
    decreases |o|
  {
    if o != [] {
      assert (o + "\n" + t)[1..] == o[1..] + "\n" + t;
      LineLengthOf(o[1..], t);
    }
  }

  /** No string of `out` holds a "\n". */
  predicate NoNewlines(out: seq<string>) {
    forall k :: 0 <= k < |out| ==> '\n' !in out[k]
  }

  /** Items under an indent and entries without "\n" hold no "\n". */
  lemma EntriesNoNewline(indent: string, ips: seq<string>)
    requires '\n' !in indent && NoNewlines(ips)
    ensures NoNewlines(Entries(indent, ips))
  {
    forall k | 0 <= k < |ips|
      ensures '\n' !in EntryLine(indent, ips[k])
    {
      assert EntryLine(indent, ips[k]) == indent + "  - " + ips[k];
    }
  }

  /** On the lines of a file, and entries without "\n", no output line holds a "\n". */
  lemma {:induction false} PatchOutputNoNewline(lines: seq<string>, st: Block, ips: seq<string>)
    requires forall k :: 0 <= k < |lines| ==> lines[k] != [] && LineShaped(lines[k])
    requires NoNewlines(ips)
    ensures NoNewlines(PatchFrom(lines, st, ips))
    decreases |lines|
  {
    if lines != [] {
      var line := lines[0];
      EmitLine(line);
      if IsKeyLine(line) {
        var ind := Indent(line);
        assert LeadingSpace(line) < |line|;
        assert '\n' !in ind;
        EntriesNoNewline(ind, ips);
        PatchOutputNoNewline(lines[1..], Inside(ind), ips);
      } else if st.Inside? && !EndsBlock(line, st.indent) {
        PatchOutputNoNewline(lines[1..], st, ips);
      } else {
        PatchOutputNoNewline(lines[1..], Outside, ips);
      }
    }
  }

  // ------------------------------------------------------- idempotence

  lemma TerminateAppend(a: seq<string>, b: seq<string>)
    ensures Terminate(a + b) == Terminate(a) + Terminate(b)
  {
  }

  lemma TerminateCons(b: string, es: seq<string>, o: seq<string>)
    ensures Terminate([b] + es + o) == [b + "\n"] + (Terminate(es) + Terminate(o))
  {
    TerminateAppend([b] + es, o);
    TerminateAppend([b], es);
    assert Terminate([b]) == [b + "\n"];
  }

  /** Key has no "\n", so "\n"s after a text cannot decide whether it starts with Key. */
  lemma StartsWithKeyNewlines(x: string, t: string)
    requires forall j :: 0 <= j < |t| ==> t[j] == '\n'
    ensures StartsWith(x + t, Key) == StartsWith(x, Key)
  {
    assert '\n' !in Key;
    if |x| < |Key| && |x| + |t| >= |Key| {
      assert Key[|x|] in Key;
      assert (x + t)[..|Key|][|x|] == '\n' != Key[|x|];
    }
    if StartsWith(x, Key) {
      assert (x + t)[..|Key|] == x[..|Key|];
    }
  }

  /** "\n"s after a line with text are kept by `lstrip()` and add no indentation. */
  lemma NewlinesAfterText(b: string, t: string)
    requires forall j :: 0 <= j < |t| ==> t[j] == '\n'
    requires LeadingSpace(b) < |b|
    ensures LeadingSpace(b + t) == LeadingSpace(b)
    ensures LStrip(b + t) == LStrip(b) + t
  {
    LeadingSpaceAppend(b, t);
    assert (b + t)[LeadingSpace(b)..] == b[LeadingSpace(b)..] + t;
  }

  /** "\n"s after a blank line leave it blank. */
  lemma NewlinesAfterBlank(b: string, t: string)
    requires forall j :: 0 <= j < |t| ==> t[j] == '\n'
    requires LeadingSpace(b) == |b|
    ensures LStrip(b + t) == ""
  {
    forall i | 0 <= i < |t| ensures IsSpace(t[i]) {}
    LeadingSpacePrefix(b, t);
    assert LeadingSpace(t) == |t|;
  }

  /** Trailing "\n"s change neither key detection, blankness, nor the indent of a non-blank line. */
  lemma TrailingNewlinesIrrelevant(b: string, t: string)
    requires forall j :: 0 <= j < |t| ==> t[j] == '\n'
    ensures IsKeyLine(b + t) == IsKeyLine(b)
    ensures IsBlank(b + t) == IsBlank(b)
    ensures !IsBlank(b) ==> LeadingSpace(b + t) == LeadingSpace(b) && Indent(b + t) == Indent(b)
  {
    StripEmptyIff(b);
    StripEmptyIff(b + t);
    if LeadingSpace(b) < |b| {
      NewlinesAfterText(b, t);
      StartsWithKeyNewlines(LStrip(b), t);
      assert (b + t)[..LeadingSpace(b)] == b[..LeadingSpace(b)];
    } else {
      NewlinesAfterBlank(b, t);
    }
  }

  /** An emitted line, read back with its "\n", is classified and emitted as the original was. */
  lemma ReadBackSameLine(line: string, indent: string)
    ensures Emit(Emit(line) + "\n") == Emit(line)
    ensures IsKeyLine(Emit(line) + "\n") == IsKeyLine(line)
    ensures EndsBlock(Emit(line) + "\n", indent) == EndsBlock(line, indent)
    ensures IsKeyLine(line) ==> Indent(Emit(line) + "\n") == Indent(line)
  {
    var b := Emit(line);
    EmitAgain(b);
    var t := line[|b|..];
    assert line == b + t;
    SameClass(b, t);
    SameClass(b, "\n");
  }

  /** `b + t` and `b`, for `t` all "\n"s, are classified alike by the loop. */
  lemma SameClass(b: string, t: string)
    requires forall j :: 0 <= j < |t| ==> t[j] == '\n'
    ensures IsKeyLine(b + t) == IsKeyLine(b)
    ensures forall indent :: EndsBlock(b + t, indent) == EndsBlock(b, indent)
    ensures IsKeyLine(b) ==> Indent(b + t) == Indent(b)
  {
    TrailingNewlinesIrrelevant(b, t);
    StripEmptyIff(b);
    if IsKeyLine(b) {
      assert LStrip(b) != [];
    }
  }

  /** `rstrip("\n")` takes back exactly the "\n" added to a line that had none. */
  lemma EmitAgain(b: string)
    requires b == [] || b[|b| - 1] != '\n'
    ensures Emit(b + "\n") == b
  {
    assert (b + "\n")[..|b|] == b;
  }

  /** An item line written under a key, read back, is inside that key's block. */
  lemma EntryDropped(indent: string, ip: string)
    requires forall i :: 0 <= i < |indent| ==> IsSpace(indent[i])
    ensures !IsKeyLine(EntryLine(indent, ip) + "\n")
    ensures !EndsBlock(EntryLine(indent, ip) + "\n", indent)
  {
    var t := "  - " + ip + "\n";
    var s := EntryLine(indent, ip) + "\n";
    assert s == indent + t;
    assert t[0] == ' ' && t[1..][0] == ' ' && t[1..][1..][0] == '-';
    assert !IsSpace('-');
    assert LeadingSpace(t[1..][1..]) == 0;
    assert LeadingSpace(t[1..]) == 1;
    assert LeadingSpace(t) == 2;
    LeadingSpacePrefix(indent, t);
    assert LStrip(s)[0] == '-' != Key[0];
    StripEmptyIff(s);
  }

  /** The items written under a key, read back, are dropped as the key's old block. */
  lemma EntriesDropped(indent: string, ips: seq<string>, rest: seq<string>, ips2: seq<string>)
    requires forall i :: 0 <= i < |indent| ==> IsSpace(indent[i])
    ensures PatchFrom(Terminate(Entries(indent, ips)) + rest, Inside(indent), ips2)
            == PatchFrom(rest, Inside(indent), ips2)
  {
    var body := Terminate(Entries(indent, ips));
    forall k | 0 <= k < |body|
      ensures !IsKeyLine(body[k]) && !EndsBlock(body[k], indent)
    {
      EntryDropped(indent, ips[k]);
    }
    DropBlock(body, rest, indent, ips2);
  }

  /** Patching the rewritten lines again, from the same state, changes nothing. */
  lemma {:induction false} PatchFixpoint(lines: seq<string>, st: Block, ips: seq<string>)
    ensures PatchFrom(Terminate(PatchFrom(lines, st, ips)), st, ips) == PatchFrom(lines, st, ips)
    decreases |lines|
  {
    if lines != [] {
      var line := lines[0];
      var b := Emit(line);
      ReadBackSameLine(line, if st.Inside? then st.indent else "");
      if IsKeyLine(line) {
        var ind := Indent(line);
        var es := Entries(ind, ips);
        var o := PatchFrom(lines[1..], Inside(ind), ips);
        PatchFixpoint(lines[1..], Inside(ind), ips);
        TerminateCons(b, es, o);
        var reread := [b + "\n"] + (Terminate(es) + Terminate(o));
        assert reread[0] == b + "\n" && reread[1..] == Terminate(es) + Terminate(o);
        EntriesDropped(ind, ips, Terminate(o), ips);
      } else if st.Inside? && !EndsBlock(line, st.indent) {
        PatchFixpoint(lines[1..], st, ips);
      } else {
        var o := PatchFrom(lines[1..], Outside, ips);
        PatchFixpoint(lines[1..], Outside, ips);
        TerminateAppend([b], o);
        var reread := [b + "\n"] + Terminate(o);
        assert reread[0] == b + "\n" && reread[1..] == Terminate(o);
      }
    }
  }

  /**
   * Running the rewrite on its own output, with the same entries, writes the
   * same text again, provided no entry holds a "\n".
   */
  lemma ApplyIdempotent(text: string, ips: seq<string>)
    requires NoNewlines(ips)
    ensures Apply(Apply(text, ips), ips) == Apply(text, ips)
  {
    var lines := ReadLines(text);
    var out := Patch(lines, ips);
    if lines == [] {
      assert Apply(text, ips) == "\n";
      assert LineLength("\n") == 1;
      assert "\n"[..1] == "\n" && "\n"[1..] == "";
      assert ReadLines("\n") == ["\n"];
      assert LStrip("\n") == "";
      assert Patch(["\n"], ips) == [Emit("\n")] + Patch([], ips);
    } else {
      assert out != [];
      PatchOutputNoNewline(lines, Outside, ips);
      RenderReadBack(out);
      PatchFixpoint(lines, Outside, ips);
    }
  }
}
