/** The line reader of a view module's host process (src/ViewModuleHost.cpp:45-47, 126-140): output arrives in reads of any
    size, and ready() is emitted for the first complete line that is READY. */
module ReadyLines {
  import opened Sequences

  const NEWLINE: byte := 10
  const READY: Bytes := [82, 69, 65, 68, 89]

  // ---- lines ----

  function Glue(lines: seq<Bytes>): Bytes {
    if lines == [] then [] else lines[0] + [NEWLINE] + Glue(lines[1..])
  }

  ghost predicate NoNewlines(lines: seq<Bytes>) { forall i :: 0 <= i < |lines| ==> NEWLINE !in lines[i] }

  /** These are the complete lines of the output, and this is what follows the last of them. */
  ghost predicate Splits(output: Bytes, lines: seq<Bytes>, tail: Bytes) {
    output == Glue(lines) + tail && NoNewlines(lines) && NEWLINE !in tail
  }

  lemma HasLines(output: Bytes, lines: seq<Bytes>, tail: Bytes)
    requires Splits(output, lines, tail)
    ensures lines != [] <==> NEWLINE in output
  {
    if lines == [] {
      assert output == tail;
    } else {
      assert output[|lines[0]|] == NEWLINE;
    }
  }

  /** An output divides into lines in one way only. */
  lemma {:induction false} SplitsOnce(output: Bytes, lines1: seq<Bytes>, tail1: Bytes, lines2: seq<Bytes>, tail2: Bytes)
    requires Splits(output, lines1, tail1) && Splits(output, lines2, tail2)
    ensures lines1 == lines2 && tail1 == tail2
    decreases |lines1|
  {
    HasLines(output, lines1, tail1);
    HasLines(output, lines2, tail2);
    if lines1 == [] {
      assert output == tail1 && output == tail2;
    } else {
      FirstLine(lines1, tail1, lines2, tail2);
      var rest := output[|lines1[0]| + 1..];
      assert rest == Glue(lines1[1..]) + tail1;
      assert rest == Glue(lines2[1..]) + tail2;
      SplitsOnce(rest, lines1[1..], tail1, lines2[1..], tail2);
      assert lines1 == [lines1[0]] + lines1[1..] && lines2 == [lines2[0]] + lines2[1..];
    }
  }

  lemma FirstLine(lines1: seq<Bytes>, tail1: Bytes, lines2: seq<Bytes>, tail2: Bytes)
    requires lines1 != [] && lines2 != [] && NoNewlines(lines1) && NoNewlines(lines2)
    requires Glue(lines1) + tail1 == Glue(lines2) + tail2
    ensures lines1[0] == lines2[0]
  {
    var output := Glue(lines1) + tail1;
    var a, b := lines1[0], lines2[0];
    assert output[..|a|] == a && output[|a|] == NEWLINE;
    assert output[..|b|] == b && output[|b|] == NEWLINE by {
      assert output == b + [NEWLINE] + Glue(lines2[1..]) + tail2;
    }
    assert forall k :: 0 <= k < |a| ==> output[k] == a[k] != NEWLINE;
    assert forall k :: 0 <= k < |b| ==> output[k] == b[k] != NEWLINE;
  }

  lemma {:induction false} GlueAppend(lines: seq<Bytes>, line: Bytes)
    ensures Glue(lines + [line]) == Glue(lines) + line + [NEWLINE]
  {
    if lines == [] {
      assert [line][1..] == [];
    } else {
      GlueAppend(lines[1..], line);
      assert (lines + [line])[1..] == lines[1..] + [line];
    }
  }

  // ---- what READY looks like ----

  /** The bytes QByteArray::trimmed() strips: tab, newline, vertical tab, form feed, carriage return, space. */
  predicate IsSpace(b: byte) { 9 <= b <= 13 || b == 32 }

  function TrimLeft(s: Bytes): Bytes {
    if s != [] && IsSpace(s[0]) then TrimLeft(s[1..]) else s
  }

  function TrimRight(s: Bytes): Bytes {
    if s != [] && IsSpace(s[|s| - 1]) then TrimRight(s[..|s| - 1]) else s
  }

  function Trimmed(s: Bytes): Bytes { TrimRight(TrimLeft(s)) }

  ghost predicate AllSpace(s: Bytes) { forall i :: 0 <= i < |s| ==> IsSpace(s[i]) }

  /** READY with nothing but space around it. */
  ghost predicate SaysReady(line: Bytes) {
    exists before: Bytes, after: Bytes :: line == before + READY + after && AllSpace(before) && AllSpace(after)
  }

  lemma {:induction false} TrimLeftSplits(s: Bytes) returns (before: Bytes)
    ensures AllSpace(before) && s == before + TrimLeft(s)
  {
    if s != [] && IsSpace(s[0]) {
      var rest := TrimLeftSplits(s[1..]);
      before := [s[0]] + rest;
    } else {
      before := [];
    }
  }

  lemma {:induction false} TrimRightSplits(s: Bytes) returns (after: Bytes)
    ensures AllSpace(after) && s == TrimRight(s) + after
  {
    if s != [] && IsSpace(s[|s| - 1]) {
      var rest := TrimRightSplits(s[..|s| - 1]);
      after := rest + [s[|s| - 1]];
    } else {
      after := [];
    }
  }

  lemma {:induction false} TrimLeftDrops(before: Bytes, s: Bytes)
    requires AllSpace(before) && s != [] && !IsSpace(s[0])
    ensures TrimLeft(before + s) == s
  {
    if before == [] {
      assert before + s == s;
    } else {
      TrimLeftDrops(before[1..], s);
      assert (before + s)[1..] == before[1..] + s;
    }
  }

  lemma {:induction false} TrimRightDrops(s: Bytes, after: Bytes)
    requires AllSpace(after) && s != [] && !IsSpace(s[|s| - 1])
    ensures TrimRight(s + after) == s
    decreases |after|
  {
    if after == [] {
      assert s + after == s;
    } else {
      TrimRightDrops(s, after[..|after| - 1]);
      assert (s + after)[..|s + after| - 1] == s + after[..|after| - 1];
    }
  }

  lemma TrimmedIsReady(line: Bytes)
    ensures Trimmed(line) == READY <==> SaysReady(line)
  {
    hide TrimLeft, TrimRight, IsSpace, AllSpace;
    if Trimmed(line) == READY {
      var before := TrimLeftSplits(line);
      var after := TrimRightSplits(TrimLeft(line));
      assert line == before + READY + after;
    }
    if before: Bytes, after: Bytes :| line == before + READY + after && AllSpace(before) && AllSpace(after) {
      ReadyTrims(line, before, after);
    }
  }

  lemma ReadyTrims(line: Bytes, before: Bytes, after: Bytes)
    requires line == before + READY + after && AllSpace(before) && AllSpace(after)
    ensures Trimmed(line) == READY
  {
    hide TrimLeft, TrimRight, AllSpace;
    assert line == before + (READY + after);
    TrimLeftDrops(before, READY + after);
    TrimRightDrops(READY, after);
  }

  // ---- the reader ----

  /** `seen` and `emitted` are history: the lines parsed and the times ready() was emitted. */
  datatype Reader = Reader(buffer: Bytes, latched: bool, seen: seq<Bytes>, emitted: nat)

  const FRESH := Reader([], false, [], 0)

  function IndexOf(s: Bytes, b: byte): (i: int)
    ensures i == -1 <==> b !in s
    ensures i != -1 ==> 0 <= i < |s| && s[i] == b && b !in s[..i]
  {
    if s == [] then -1
    else if s[0] == b then 0
    else
      var i := IndexOf(s[1..], b);
      assert i != -1 ==> s[..i + 1] == [s[0]] + s[1..][..i];
      if i == -1 then -1 else i + 1
  }

  function TakeLine(r: Reader, line: Bytes): Reader {
    var now := !r.latched && Trimmed(line) == READY;
    r.(latched := r.latched || now, seen := r.seen + [line], emitted := r.emitted + if now then 1 else 0)
  }

  /** Parses every complete line of the buffer. */
  function Parse(r: Reader): Reader
    decreases |r.buffer|
  {
    var i := IndexOf(r.buffer, NEWLINE);
    if i == -1 then r else Parse(TakeLine(r.(buffer := r.buffer[i + 1..]), r.buffer[..i]))
  }

  lemma ParseOne(r: Reader)
    ensures var i := IndexOf(r.buffer, NEWLINE);
            Parse(r) == if i == -1 then r else Parse(TakeLine(r.(buffer := r.buffer[i + 1..]), r.buffer[..i]))
  {
    hide TakeLine, IndexOf;
  }

  function Read(r: Reader, chunk: Bytes): Reader { Parse(r.(buffer := r.buffer + chunk)) }

  function ReadAll(r: Reader, chunks: seq<Bytes>): Reader
    decreases |chunks|
  {
    if chunks == [] then r else ReadAll(Read(r, chunks[0]), chunks[1..])
  }

  ghost predicate SomeReady(lines: seq<Bytes>) { exists i :: 0 <= i < |lines| && SaysReady(lines[i]) }

  ghost predicate Consistent(r: Reader) {
    && NoNewlines(r.seen)
    && (r.latched <==> SomeReady(r.seen)) && r.emitted == if r.latched then 1 else 0
  }

  lemma TakeLineKeeps(r: Reader, line: Bytes)
    requires Consistent(r) && NEWLINE !in line
    ensures Consistent(TakeLine(r, line))
  {
    TrimmedIsReady(line);
    var lines := r.seen + [line];
    assert lines[|r.seen|] == line && forall i :: 0 <= i < |r.seen| ==> lines[i] == r.seen[i];
    hide SaysReady, Trimmed;
    if i :| 0 <= i < |r.seen| && SaysReady(r.seen[i]) {
      assert SaysReady(lines[i]);
    }
    if SaysReady(line) {
      assert SaysReady(lines[|r.seen|]);
    }
    if i :| 0 <= i < |lines| && SaysReady(lines[i]) {
      assert i == |r.seen| || SaysReady(r.seen[i]);
    }
  }

  lemma {:induction false} ParseSplits(r: Reader, output: Bytes)
    requires Consistent(r) && output == Glue(r.seen) + r.buffer
    ensures var r' := Parse(r); Consistent(r') && Splits(output, r'.seen, r'.buffer)
    decreases |r.buffer|
  {
    hide Consistent, TakeLine, Parse, IndexOf, Glue;
    ParseOne(r);
    var i := IndexOf(r.buffer, NEWLINE);
    if i != -1 {
      var line, rest := r.buffer[..i], r.buffer[i + 1..];
      assert r.buffer == line + [NEWLINE] + rest;
      GlueAppend(r.seen, line);
      TakeParts(r, rest, line);
      assert output == Glue(r.seen + [line]) + rest;
      ParseSplits(TakeLine(r.(buffer := rest), line), output);
    } else {
      ConsistentLines(r);
    }
  }

  lemma TakeParts(r: Reader, rest: Bytes, line: Bytes)
    requires Consistent(r) && NEWLINE !in line
    ensures var t := TakeLine(r.(buffer := rest), line); t.seen == r.seen + [line] && t.buffer == rest && Consistent(t)
  {
    TakeLineKeeps(r.(buffer := rest), line);
  }

  lemma ConsistentLines(r: Reader)
    requires Consistent(r)
    ensures NoNewlines(r.seen)
  {
  }

  lemma {:induction false} ReadAllSplits(r: Reader, chunks: seq<Bytes>, output: Bytes)
    requires Consistent(r) && Splits(output, r.seen, r.buffer)
    ensures var r' := ReadAll(r, chunks); Consistent(r') && Splits(output + Flatten(chunks), r'.seen, r'.buffer)
    decreases |chunks|
  {
    hide Consistent, Parse, Glue;
    if chunks == [] {
      assert output + Flatten(chunks) == output;
    } else {
      hide NoNewlines;
      var r1 := r.(buffer := r.buffer + chunks[0]);
      assert Consistent(r1) by {
        SameHistory(r, r1);
      }
      assert output + chunks[0] == Glue(r.seen) + r1.buffer;
      ParseSplits(r1, output + chunks[0]);
      ReadAllSplits(Parse(r1), chunks[1..], output + chunks[0]);
      assert output + Flatten(chunks) == output + chunks[0] + Flatten(chunks[1..]);
    }
  }

  lemma SameHistory(r: Reader, r': Reader)
    requires Consistent(r) && r'.seen == r.seen && r'.latched == r.latched && r'.emitted == r.emitted
    ensures Consistent(r')
  {
  }

  /** Whatever the sizes of the reads, the lines seen are the complete lines of the output so far, the buffer is what follows
      them, and ready() has been emitted once if one of those lines says READY, and not at all otherwise. */
  lemma ReadyLaw(chunks: seq<Bytes>)
    ensures var r := ReadAll(FRESH, chunks);
            && Splits(Flatten(chunks), r.seen, r.buffer)
            && r.emitted == if SomeReady(r.seen) then 1 else 0
  {
    assert Splits([], [], []);
    ReadAllSplits(FRESH, chunks, []);
    assert [] + Flatten(chunks) == Flatten(chunks);
  }

  /** Two divisions of one output leave the reader in the same state. */
  lemma ChunksDoNotMatter(chunks1: seq<Bytes>, chunks2: seq<Bytes>)
    requires Flatten(chunks1) == Flatten(chunks2)
    ensures ReadAll(FRESH, chunks1) == ReadAll(FRESH, chunks2)
  {
    assert Splits([], [], []);
    ReadAllSplits(FRESH, chunks1, []);
    ReadAllSplits(FRESH, chunks2, []);
    assert [] + Flatten(chunks1) == Flatten(chunks1);
    var r1, r2 := ReadAll(FRESH, chunks1), ReadAll(FRESH, chunks2);
    SplitsOnce(Flatten(chunks1), r1.seen, r1.buffer, r2.seen, r2.buffer);
  }

  /** The host's reading side. */
  class ViewModuleHost {
    var stdoutBuffer: Bytes
    var readyEmitted: bool
    ghost var seen: seq<Bytes>
    ghost var emitted: nat

    ghost function View(): Reader
      reads this
    {
      Reader(stdoutBuffer, readyEmitted, seen, emitted)
    }

    constructor ()
      ensures View() == FRESH
    {
      stdoutBuffer, readyEmitted, seen, emitted := [], false, [], 0;
    }

    /** What spawn() does to the reader: a new process is read from the start. */
    method Spawn()
      modifies this
      ensures View() == FRESH
    {
      stdoutBuffer, readyEmitted, seen, emitted := [], false, [], 0;
    }

    method OnReadyRead(chunk: Bytes)
      modifies this
      ensures View() == Read(old(View()), chunk)
    {
      hide Parse, Trimmed, IndexOf;
      stdoutBuffer := stdoutBuffer + chunk;
      var newline := IndexOf(stdoutBuffer, NEWLINE);
      while newline != -1
        invariant newline == IndexOf(stdoutBuffer, NEWLINE)
        invariant Parse(View()) == Read(old(View()), chunk)
        decreases |stdoutBuffer|
      {
        ParseOne(View());
        var line := stdoutBuffer[..newline];
        stdoutBuffer := stdoutBuffer[newline + 1..];
        seen := seen + [line];
        if !readyEmitted && Trimmed(line) == READY {
          readyEmitted := true;
          emitted := emitted + 1;
        }
        newline := IndexOf(stdoutBuffer, NEWLINE);
      }
      ParseOne(View());
    }
  }
}
