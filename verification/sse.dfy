/**
 * `parseSSEStream` of lib/secondme.ts: collapses a server-sent-event stream
 * into the text its events carry. The stream is given as the sequence of
 * already-decoded chunks the reader delivers; `delta` stands for parsing an
 * event's JSON payload and reading `choices[0].delta.content` from it, `None`
 * when the payload is malformed or has no such field.
 */
module Sse {
  import opened Wrappers
  import opened Text

  /** The prefix that marks an event line. */
  const DataPrefix: string := "data: "

  /** The payload that marks the end of the events. */
  const DoneSentinel: string := "[DONE]"

  /** What one line adds to the text: the content of a `data: ` line's payload, or nothing. */
  function LineText(line: string, delta: string -> Option<string>): (r: string)
    ensures !StartsWith(line, DataPrefix) ==> r == ""
    ensures StartsWith(line, DataPrefix) && Trim(line[|DataPrefix|..]) == DoneSentinel ==> r == ""
    ensures r != "" ==> StartsWith(line, DataPrefix) && delta(Trim(line[|DataPrefix|..])) == Some(r)
    ensures StartsWith(line, DataPrefix) && Trim(line[|DataPrefix|..]) != DoneSentinel
            && delta(Trim(line[|DataPrefix|..])).Some? && delta(Trim(line[|DataPrefix|..])).value != ""
            ==> r == delta(Trim(line[|DataPrefix|..])).value
  {
    if !StartsWith(line, DataPrefix) then ""
    else
      var data := Trim(line[|DataPrefix|..]);
      if data == DoneSentinel then ""
      else
        var content := delta(data);
        if content.Some? && content.value != "" then content.value else ""
  }

  /** The strings `f` gives for the items, concatenated in order. */
  function Collect(items: seq<string>, f: string -> string): string
  {
    if items == [] then "" else Collect(items[..|items| - 1], f) + f(items[|items| - 1])
  }

  /** `LineText` for a fixed payload reader. */
  function LineTextWith(delta: string -> Option<string>): string -> string
  {
    line => LineText(line, delta)
  }

  /** What a list of lines adds, in order. */
  function LinesText(lines: seq<string>, delta: string -> Option<string>): string
  {
    Collect(lines, LineTextWith(delta))
  }

  /** What one chunk adds: its own lines, split at `\n` within the chunk. */
  function ChunkText(chunk: string, delta: string -> Option<string>): string
  {
    LinesText(Split(chunk, '\n'), delta)
  }

  /** `ChunkText` for a fixed payload reader. */
  function ChunkTextWith(delta: string -> Option<string>): string -> string
  {
    chunk => ChunkText(chunk, delta)
  }

  /** The text of a whole stream: what its chunks add, in order. */
  function StreamText(chunks: seq<string>, delta: string -> Option<string>): string
  {
    Collect(chunks, ChunkTextWith(delta))
  }

  /** `parseSSEStream`: reads chunk after chunk and appends the content of every event line. */
  method ParseSSEStream(chunks: seq<string>, delta: string -> Option<string>) returns (result: string)
    ensures result == StreamText(chunks, delta)
    ensures chunks == [] ==> result == ""
  {
    result := "";
    var i := 0;
    while i < |chunks|
      invariant 0 <= i <= |chunks|
      invariant result == StreamText(chunks[..i], delta)
    {
      var chunk := chunks[i];
      var lines := Split(chunk, '\n');
      ghost var before := result;
      for j := 0 to |lines|
        invariant result == before + LinesText(lines[..j], delta)
      {
        var line := lines[j];
        CollectAccum(before, lines, j, LineTextWith(delta));
        if StartsWith(line, DataPrefix) {
          var data := Trim(line[|DataPrefix|..]);
          if data == DoneSentinel {
            continue;
          }
          var content := delta(data);
          if content.Some? && content.value != "" {
            result := result + content.value;
          }
        }
      }
      assert lines[..|lines|] == lines;
      CollectStep(chunks, i, ChunkTextWith(delta));
      i := i + 1;
    }
    assert chunks[..|chunks|] == chunks;
  }

  /** Collecting consecutive lists gives the collection of the first followed by that of the second. */
  lemma {:induction false} CollectAppend(a: seq<string>, b: seq<string>, f: string -> string)
    ensures Collect(a + b, f) == Collect(a, f) + Collect(b, f)
  {
    if b == [] {
      assert a + b == a;
    } else {
      var front, last := b[..|b| - 1], b[|b| - 1];
      CollectAppend(a, front, f);
      assert (a + b)[..|a + b| - 1] == a + front;
      assert (a + b)[|a + b| - 1] == last;
      StringAssoc(Collect(a, f), Collect(front, f), f(last));
    }
  }

  lemma StringAssoc(x: string, y: string, z: string)
    ensures (x + y) + z == x + (y + z)
  {
  }

  /** Collecting one more item appends what `f` gives for it. */
  lemma CollectStep(items: seq<string>, n: nat, f: string -> string)
    requires n < |items|
    ensures Collect(items[..n + 1], f) == Collect(items[..n], f) + f(items[n])
  {
    assert items[..n + 1][..n] == items[..n];
  }

  /** The same step with text already gathered in front. */
  lemma CollectAccum(before: string, items: seq<string>, n: nat, f: string -> string)
    requires n < |items|
    ensures before + Collect(items[..n], f) + f(items[n]) == before + Collect(items[..n + 1], f)
  {
    CollectStep(items, n, f);
  }

  /** Collecting a single item gives what `f` gives for it. */
  lemma CollectSingle(x: string, f: string -> string)
    ensures Collect([x], f) == f(x)
  {
    assert [x][..0] == [];
  }

  /** The text of consecutive lines is the text of the first ones followed by that of the rest. */
  lemma LinesTextAppend(a: seq<string>, b: seq<string>, delta: string -> Option<string>)
    ensures LinesText(a + b, delta) == LinesText(a, delta) + LinesText(b, delta)
  {
    CollectAppend(a, b, LineTextWith(delta));
  }

  /** The text of a stream is the text of its first chunks followed by that of the rest. */
  lemma StreamTextAppend(a: seq<string>, b: seq<string>, delta: string -> Option<string>)
    ensures StreamText(a + b, delta) == StreamText(a, delta) + StreamText(b, delta)
  {
    CollectAppend(a, b, ChunkTextWith(delta));
  }

  /** A `[DONE]` line does not end the parse: it adds nothing and the lines after it still count. */
  lemma DoneDoesNotStop(before: seq<string>, after: seq<string>, delta: string -> Option<string>)
    ensures LinesText(before + ["data: [DONE]"] + after, delta) == LinesText(before, delta) + LinesText(after, delta)
  {
    LinesTextAppend(before + ["data: [DONE]"], after, delta);
    LinesTextAppend(before, ["data: [DONE]"], delta);
    DoneLineSilent(delta);
  }

  /** The line `data: [DONE]` on its own adds nothing. */
  lemma DoneLineSilent(delta: string -> Option<string>)
    ensures LinesText(["data: [DONE]"], delta) == ""
  {
    DoneLineText(delta);
    CollectSingle("data: [DONE]", LineTextWith(delta));
  }

  lemma DoneLineText(delta: string -> Option<string>)
    ensures LineText("data: [DONE]", delta) == ""
  {
    DoneLinePayload();
    assert Trim(DoneSentinel) == DoneSentinel;
  }

  lemma DoneLinePayload()
    ensures StartsWith("data: [DONE]", DataPrefix) && "data: [DONE]"[|DataPrefix|..] == DoneSentinel
  {
  }

  /** Lines that are not events, `[DONE]` lines and events whose payload yields no content add nothing at all, and raise no error. */
  lemma {:induction false} SilentLinesAddNothing(lines: seq<string>, delta: string -> Option<string>)
    requires forall i :: 0 <= i < |lines| ==>
               !StartsWith(lines[i], DataPrefix)
               || Trim(lines[i][|DataPrefix|..]) == DoneSentinel
               || delta(Trim(lines[i][|DataPrefix|..])) in {None, Some("")}
    ensures LinesText(lines, delta) == ""
  {
    if lines != [] {
      SilentLinesAddNothing(lines[..|lines| - 1], delta);
    }
  }

  /** A string without the separator splits into itself alone. */
  lemma {:induction false} SplitWithoutSeparator(s: string, c: char)
    requires c !in s
    ensures Split(s, c) == [s]
  {
    if s != [] {
      SplitWithoutSeparator(s[1..], c);
      assert s == [s[0]] + s[1..];
    }
  }

  /**
   * Lines are split chunk by chunk, so an event line that arrives in two
   * chunks is lost: cut after `dat`, an event adds nothing, whatever its payload.
   */
  lemma EventCutAcrossChunksIsLost(payload: string, delta: string -> Option<string>)
    requires '\n' !in payload
    ensures StreamText(["dat", "a: " + payload], delta) == ""
  {
    NoEventChunkSilent("dat", delta);
    assert ("a: " + payload)[0] == 'a';
    NoEventChunkSilent("a: " + payload, delta);
    CollectAppend(["dat"], ["a: " + payload], ChunkTextWith(delta));
    CollectSingle("dat", ChunkTextWith(delta));
    CollectSingle("a: " + payload, ChunkTextWith(delta));
    assert ["dat", "a: " + payload] == ["dat"] + ["a: " + payload];
  }

  /** A chunk holding one line that is not an event adds nothing. */
  lemma NoEventChunkSilent(chunk: string, delta: string -> Option<string>)
    requires '\n' !in chunk && !StartsWith(chunk, DataPrefix)
    ensures ChunkText(chunk, delta) == ""
  {
    SplitWithoutSeparator(chunk, '\n');
    CollectSingle(chunk, LineTextWith(delta));
  }
}
