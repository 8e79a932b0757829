/**
 * The line decoder of `StreamEvents`. A line starting with "data:" appends
 * its remainder after those five characters, followed by a newline, to the
 * buffer; a white-space-only line while the buffer is not empty emits an
 * event whose data is the trimmed buffer and clears the buffer; every other
 * line is ignored. A block still pending at the end of the body is dropped.
 *
 * The decoder is specified as a left fold of `Step` over the lines read so
 * far, which is how the reading loop consumes them.
 */
module Decoder {
  import opened Wrappers
  import opened Strings
  import opened Dtos
  import opened Seqs

  const DataPrefix: string := "data:"

  /** The `chunk` buffer and the events emitted so far. */
  datatype DecoderState = DecoderState(chunk: string, events: seq<CustomEventArgs>)

  const Initial: DecoderState := DecoderState("", [])

  /** A white-space-only line: one that trims to the empty string (see `BlankIffTrimmedEmpty`). */
  predicate IsBlank(line: string) {
    AllWhiteSpace(line)
  }

  lemma BlankIffTrimmedEmpty(line: string)
    ensures IsBlank(line) <==> Trim(line) == ""
  {
    TrimEmptyIffAllWhiteSpace(line);
  }

  /** What a line contributes to the buffer: its remainder and a newline, if it is a data line. */
  function Contribution(line: string): string {
    if StartsWith(line, DataPrefix) then line[|DataPrefix|..] + "\n" else ""
  }

  /** The decoder's reaction to one line. */
  function Step(st: DecoderState, line: string): DecoderState {
    if StartsWith(line, DataPrefix) then
      DecoderState(st.chunk + (line[|DataPrefix|..] + "\n"), st.events)
    else if IsBlank(line) && |st.chunk| > 0 then
      DecoderState("", st.events + [Message(Trim(st.chunk))])
    else st
  }

  /** The state after reading `lines`, one after another, starting from `st`. */
  function Feed(st: DecoderState, lines: seq<string>): DecoderState
    decreases |lines|
  {
    if lines == [] then st
    else Step(Feed(st, lines[..|lines| - 1]), lines[|lines| - 1])
  }

  /** The events a body of `lines` yields. */
  function Decode(lines: seq<string>): seq<CustomEventArgs> {
    Feed(Initial, lines).events
  }

  /** Reading `xs` and then `ys` is reading `xs + ys`. */
  lemma {:induction false} FeedAppend(st: DecoderState, xs: seq<string>, ys: seq<string>)
    ensures Feed(st, xs + ys) == Feed(Feed(st, xs), ys)
    decreases |ys|
  {
    if ys == [] {
      assert xs + ys == xs;
    } else {
      var n := |ys| - 1;
      assert (xs + ys)[..|xs + ys| - 1] == xs + ys[..n];
      assert (xs + ys)[|xs + ys| - 1] == ys[n];
      FeedAppend(st, xs, ys[..n]);
    }
  }

  /** Events are only ever appended: what was emitted stays, in order, in front. */
  lemma {:induction false} FeedKeepsEvents(st: DecoderState, lines: seq<string>)
    ensures Feed(st, lines).events == st.events + Feed(DecoderState(st.chunk, []), lines).events
    decreases |lines|
  {
    if lines != [] {
      var n := |lines| - 1;
      FeedKeepsEvents(st, lines[..n]);
      FeedKeepsChunk(st, DecoderState(st.chunk, []), lines[..n]);
    }
  }

  /** The buffer does not depend on what was emitted before. */
  lemma {:induction false} FeedKeepsChunk(st: DecoderState, st': DecoderState, lines: seq<string>)
    requires st.chunk == st'.chunk
    ensures Feed(st, lines).chunk == Feed(st', lines).chunk
    decreases |lines|
  {
    if lines != [] {
      FeedKeepsChunk(st, st', lines[..|lines| - 1]);
    }
  }

  /** The events of a prefix of the body are a prefix of the events of the body. */
  lemma DecodePrefix(xs: seq<string>, ys: seq<string>)
    ensures Decode(xs) <= Decode(xs + ys)
  {
    FeedAppend(Initial, xs, ys);
    FeedKeepsEvents(Feed(Initial, xs), ys);
  }

  /** Every emitted event has type "message", data, and no id or retry hint. */
  lemma {:induction false} FeedEmitsMessages(st: DecoderState, lines: seq<string>)
    requires forall e :: e in st.events ==> e.eventType == Some(MessageType) && e.data.Some?
                                            && e.id.None? && e.retry.None?
    ensures forall e :: e in Feed(st, lines).events ==>
              e.eventType == Some(MessageType) && e.data.Some? && e.id.None? && e.retry.None?
    decreases |lines|
  {
    if lines != [] {
      FeedEmitsMessages(st, lines[..|lines| - 1]);
    }
  }

  lemma DecodedEventsAreMessages(lines: seq<string>)
    ensures forall e :: e in Decode(lines) ==>
              e.eventType == Some(MessageType) && e.data.Some? && e.id.None? && e.retry.None?
  {
    FeedEmitsMessages(Initial, lines);
  }

  /** A data line is never blank: its first character is 'd'. */
  lemma DataLineIsNotBlank(line: string)
    requires StartsWith(line, DataPrefix)
    ensures !IsBlank(line)
  {
    assert line[0] == 'd';
  }

  /** What the data lines of `lines` put in the buffer, in order. */
  function Accumulated(lines: seq<string>): string
    decreases |lines|
  {
    if lines == [] then ""
    else Accumulated(lines[..|lines| - 1]) + Contribution(lines[|lines| - 1])
  }

  /** `lines` holds at least one data line. */
  predicate HasData(lines: seq<string>) {
    exists i :: 0 <= i < |lines| && StartsWith(lines[i], DataPrefix)
  }

  /** The buffer becomes non-empty exactly when a data line was read, even a bare "data:". */
  lemma {:induction false} AccumulatedNonEmptyIffData(lines: seq<string>)
    ensures Accumulated(lines) != "" <==> HasData(lines)
    decreases |lines|
  {
    if lines != [] {
      var n := |lines| - 1;
      AccumulatedNonEmptyIffData(lines[..n]);
      if HasData(lines[..n]) {
        var i :| 0 <= i < n && StartsWith(lines[..n][i], DataPrefix);
        assert lines[i] == lines[..n][i];
      }
      if HasData(lines) && !StartsWith(lines[n], DataPrefix) {
        var i :| 0 <= i < |lines| && StartsWith(lines[i], DataPrefix);
        assert lines[..n][i] == lines[i];
      }
    }
  }

  /** A line that is not blank only feeds the buffer. */
  lemma StepNonBlank(st: DecoderState, line: string)
    requires !IsBlank(line)
    ensures Step(st, line) == DecoderState(st.chunk + Contribution(line), st.events)
  {
    if !StartsWith(line, DataPrefix) {
      assert st.chunk + "" == st.chunk;
    }
  }

  /** Lines with no blank one among them only feed the buffer and emit nothing. */
  lemma {:induction false} FeedNonBlank(st: DecoderState, lines: seq<string>)
    requires forall i :: 0 <= i < |lines| ==> !IsBlank(lines[i])
    ensures Feed(st, lines) == DecoderState(st.chunk + Accumulated(lines), st.events)
    decreases |lines|
  {
    if lines == [] {
      assert st.chunk + "" == st.chunk;
    } else {
      var n := |lines| - 1;
      var front, last := lines[..n], lines[n];
      assert forall i :: 0 <= i < |front| ==> !IsBlank(front[i]) by {
        forall i | 0 <= i < |front| ensures !IsBlank(front[i]) {
          assert front[i] == lines[i];
        }
      }
      FeedNonBlank(st, front);
      StepNonBlank(DecoderState(st.chunk + Accumulated(front), st.events), last);
      ConcatAssoc(st.chunk, Accumulated(front), Contribution(last));
    }
  }

  /** A block still unterminated at the end of the body is never emitted. */
  lemma DecodeDropsUnterminatedBlock(xs: seq<string>, tail: seq<string>)
    requires forall i :: 0 <= i < |tail| ==> !IsBlank(tail[i])
    ensures Decode(xs + tail) == Decode(xs)
  {
    FeedAppend(Initial, xs, tail);
    FeedNonBlank(Feed(Initial, xs), tail);
  }

  /** The event one block yields, if it holds a data line. */
  function BlockEvents(block: seq<string>): seq<CustomEventArgs> {
    if HasData(block) then [Message(Trim(Accumulated(block)))] else []
  }

  /** A block of non-blank lines and the blank line that ends it. */
  datatype Block = Block(lines: seq<string>, terminator: string)

  /** A body made of `blocks`, each followed by its terminating blank line. */
  function Render(blocks: seq<Block>): seq<string>
    decreases |blocks|
  {
    if blocks == [] then []
    else Render(blocks[..|blocks| - 1]) + blocks[|blocks| - 1].lines + [blocks[|blocks| - 1].terminator]
  }

  /** The events of `blocks` taken one block at a time. */
  function BlocksEvents(blocks: seq<Block>): seq<CustomEventArgs>
    decreases |blocks|
  {
    if blocks == [] then []
    else BlocksEvents(blocks[..|blocks| - 1]) + BlockEvents(blocks[|blocks| - 1].lines)
  }

  /** Every block is free of blank lines and ends with a blank line. */
  predicate WellFormedBlocks(blocks: seq<Block>) {
    && (forall j :: 0 <= j < |blocks| ==> IsBlank(blocks[j].terminator))
    && (forall j, i :: 0 <= j < |blocks| && 0 <= i < |blocks[j].lines| ==> !IsBlank(blocks[j].lines[i]))
  }

  /** One block, then the blank line that ends it, from an empty buffer. */
  lemma FeedBlock(evs: seq<CustomEventArgs>, block: seq<string>, blank: string)
    requires forall i :: 0 <= i < |block| ==> !IsBlank(block[i])
    requires IsBlank(blank)
    ensures Feed(DecoderState("", evs), block + [blank]) == DecoderState("", evs + BlockEvents(block))
  {
    var st := DecoderState("", evs);
    FeedAppend(st, block, [blank]);
    FeedNonBlank(st, block);
    AccumulatedNonEmptyIffData(block);
    assert "" + Accumulated(block) == Accumulated(block);
    assert [blank][..0] == [];
    if StartsWith(blank, DataPrefix) {
      DataLineIsNotBlank(blank);
    }
  }

  /**
   * Events come out in stream order, one for each blank-line-terminated
   * block that holds at least one data line, none for the others.
   */
  lemma {:induction false} FeedBlocks(evs: seq<CustomEventArgs>, blocks: seq<Block>)
    requires WellFormedBlocks(blocks)
    ensures Feed(DecoderState("", evs), Render(blocks)) == DecoderState("", evs + BlocksEvents(blocks))
    decreases |blocks|
  {
    if blocks != [] {
      var front := blocks[..|blocks| - 1];
      assert WellFormedBlocks(front) by {
        forall j | 0 <= j < |front| ensures IsBlank(front[j].terminator) {
          assert front[j] == blocks[j];
        }
        forall j, i | 0 <= j < |front| && 0 <= i < |front[j].lines| ensures !IsBlank(front[j].lines[i]) {
          assert front[j] == blocks[j];
        }
      }
      FeedBlocks(evs, front);
      FeedNextBlock(evs, blocks);
    }
  }

  /** The induction step of `FeedBlocks`: one more block at the end. */
  lemma FeedNextBlock(evs: seq<CustomEventArgs>, blocks: seq<Block>)
    requires blocks != [] && WellFormedBlocks(blocks)
    requires Feed(DecoderState("", evs), Render(blocks[..|blocks| - 1]))
             == DecoderState("", evs + BlocksEvents(blocks[..|blocks| - 1]))
    ensures Feed(DecoderState("", evs), Render(blocks)) == DecoderState("", evs + BlocksEvents(blocks))
  {
    var n := |blocks| - 1;
    var front, last := blocks[..n], blocks[n];
    var st := DecoderState("", evs);
    assert Render(blocks) == Render(front) + last.lines + [last.terminator];
    ConcatAssoc(Render(front), last.lines, [last.terminator]);
    FeedAppend(st, Render(front), last.lines + [last.terminator]);
    assert forall i :: 0 <= i < |last.lines| ==> !IsBlank(last.lines[i]);
    FeedBlock(evs + BlocksEvents(front), last.lines, last.terminator);
    assert BlocksEvents(blocks) == BlocksEvents(front) + BlockEvents(last.lines);
    ConcatAssoc(evs, BlocksEvents(front), BlockEvents(last.lines));
  }

  /** A body of terminated blocks decodes to the events of its blocks, in order. */
  lemma DecodeBlocks(blocks: seq<Block>)
    requires WellFormedBlocks(blocks)
    ensures Decode(Render(blocks)) == BlocksEvents(blocks)
  {
    FeedBlocks([], blocks);
  }

  /** One data line then a blank line: a single "message" event with the trimmed remainder. */
  lemma SingleDataLine(s: string, blank: string)
    requires IsBlank(blank)
    ensures Decode([DataPrefix + s, blank]) == [Message(Trim(s))]
  {
    var line := DataPrefix + s;
    assert StartsWith(line, DataPrefix);
    assert line[|DataPrefix|..] == s;
    assert !StartsWith(blank, DataPrefix) by {
      if StartsWith(blank, DataPrefix) { DataLineIsNotBlank(blank); }
    }
    var lines := [line, blank];
    assert lines[..1] == [line];
    assert [line][..0] == [];
    var afterData := DecoderState(s + "\n", []);
    assert Feed(Initial, [line]) == Step(Initial, line);
    assert Step(Initial, line) == afterData;
    assert Feed(Initial, lines) == Step(afterData, blank);
    TrimIgnoresNewline(s);
  }

  /** A bare "data:" line still makes the buffer non-empty: one event with empty data. */
  lemma EmptyDataLineEmitsEmptyEvent()
    ensures Decode(["data:", ""]) == [Message("")]
  {
    assert DataPrefix + "" == "data:";
    SingleDataLine("", "");
  }

  /**
   * A body like "data: {\"message\": \"Hello\"}\n\n": one event whose data is
   * the text after "data: ", when that text has no surrounding white space.
   */
  lemma SpacedDataLine(json: string, blank: string)
    requires json != [] && !IsWhiteSpace(json[0]) && !IsWhiteSpace(json[|json| - 1])
    requires IsBlank(blank)
    ensures Decode(["data: " + json, blank]) == [Message(json)]
  {
    assert DataPrefix + (" " + json) == "data: " + json;
    SingleDataLine(" " + json, blank);
    assert (" " + json)[1..] == json;
    assert Trim(" " + json) == Trim(json) == json;
  }

  /**
   * Two blocks, each an ignored "event:" line and a "data:" line, then a blank
   * line: two events, in stream order, whose type is not taken from "event:".
   */
  lemma TwoBlocksBody(name1: string, json1: string, name2: string, json2: string)
    requires json1 != [] && !IsWhiteSpace(json1[0]) && !IsWhiteSpace(json1[|json1| - 1])
    requires json2 != [] && !IsWhiteSpace(json2[0]) && !IsWhiteSpace(json2[|json2| - 1])
    ensures Decode(["event: " + name1, "data: " + json1, "", "event: " + name2, "data: " + json2, ""])
            == [Message(json1), Message(json2)]
  {
    var b1 := ["event: " + name1, "data: " + json1];
    var b2 := ["event: " + name2, "data: " + json2];
    BlockOfEventAndData(name1, json1);
    BlockOfEventAndData(name2, json2);
    var e1, d1, e2, d2 := "event: " + name1, "data: " + json1, "event: " + name2, "data: " + json2;
    DecodeTwoBlocks(b1, "", b2, "");
    assert b1 + [""] == [e1, d1, ""];
    assert b1 + [""] + b2 == [e1, d1, "", e2, d2];
    assert b1 + [""] + b2 + [""] == [e1, d1, "", e2, d2, ""];
  }

  /** Two terminated blocks decode to the events of the first, then of the second. */
  lemma DecodeTwoBlocks(b1: seq<string>, t1: string, b2: seq<string>, t2: string)
    requires forall i :: 0 <= i < |b1| ==> !IsBlank(b1[i])
    requires forall i :: 0 <= i < |b2| ==> !IsBlank(b2[i])
    requires IsBlank(t1) && IsBlank(t2)
    ensures Decode(b1 + [t1] + b2 + [t2]) == BlockEvents(b1) + BlockEvents(b2)
  {
    var x, y := b1 + [t1], b2 + [t2];
    ConcatAssoc(x, b2, [t2]);
    FeedAppend(Initial, x, y);
    FeedBlock([], b1, t1);
    assert [] + BlockEvents(b1) == BlockEvents(b1);
    FeedBlock(BlockEvents(b1), b2, t2);
  }

  /** An "event: name" line and a "data: json" line form a block yielding `json`. */
  lemma BlockOfEventAndData(name: string, json: string)
    requires json != [] && !IsWhiteSpace(json[0]) && !IsWhiteSpace(json[|json| - 1])
    ensures var block := ["event: " + name, "data: " + json];
            && (forall i :: 0 <= i < |block| ==> !IsBlank(block[i]))
            && BlockEvents(block) == [Message(json)]
  {
    var e, d := "event: " + name, "data: " + json;
    var block := [e, d];
    assert e[0] == 'e' && !IsWhiteSpace(e[0]);
    assert StartsWith(d, DataPrefix) && d[|DataPrefix|..] == " " + json;
    assert !StartsWith(e, DataPrefix) by { assert e[0] != DataPrefix[0]; }
    DataLineIsNotBlank(d);
    assert block[..1] == [e] && [e][..0] == [];
    assert Contribution(e) == "" && Contribution(d) == " " + json + "\n";
    assert Accumulated([e]) == "" + Contribution(e) == "";
    assert Accumulated(block) == Accumulated([e]) + Contribution(d);
    assert HasData(block) by { assert StartsWith(block[1], DataPrefix); }
    TrimIgnoresNewline(" " + json);
    assert (" " + json)[1..] == json;
    assert Trim(" " + json) == Trim(json) == json;
    assert Accumulated(block) == " " + json + "\n";
    assert BlockEvents(block) == [Message(Trim(Accumulated(block)))];
  }

  /**
   * A two-line block: the remainders are joined by a newline and only the
   * joined text is trimmed, so the second line keeps its leading spaces.
   */
  lemma TwoDataLines(a: string, b: string, blank: string)
    requires IsBlank(blank)
    ensures Decode([DataPrefix + a, DataPrefix + b, blank]) == [Message(Trim(a + "\n" + b))]
  {
    var l1, l2 := DataPrefix + a, DataPrefix + b;
    var block := [l1, l2];
    assert l1[|DataPrefix|..] == a && l2[|DataPrefix|..] == b;
    assert StartsWith(l1, DataPrefix) && StartsWith(l2, DataPrefix);
    DataLineIsNotBlank(l1);
    DataLineIsNotBlank(l2);
    assert block[..1] == [l1] && [l1][..0] == [];
    assert Accumulated([l1]) == "" + Contribution(l1) == a + "\n";
    assert Accumulated(block) == (a + "\n") + (b + "\n");
    ConcatAssoc(a + "\n", b, "\n");
    ConcatAssoc(a, "\n", b);
    TrimIgnoresNewline(a + "\n" + b);
    assert HasData(block) by { assert StartsWith(block[0], DataPrefix); }
    assert BlockEvents(block) == [Message(Trim(a + "\n" + b))];
    FeedBlock([], block, blank);
    assert block + [blank] == [l1, l2, blank];
    assert [] + BlockEvents(block) == BlockEvents(block);
  }
}
