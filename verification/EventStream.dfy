/**
 Cutting an upstream event stream into frames as its text arrives, and what
 the frames add up to.  ai2apps/cloud_gateway.py; section 9.2 of the WHATWG
 HTML standard.
 */
module EventStream {
  import opened Base

  /******* Frames *******/

  /** `replace("\r\n", "\n")`. */
  function Norm(s: string): string {
    if s == "" then ""
    else if |s| > 1 && s[0] == '\r' && s[1] == '\n' then "\n" + Norm(s[2..])
    else [s[0]] + Norm(s[1..])
  }

  predicate BlankLineAt(s: string, i: nat) {
    i + 1 < |s| && s[i] == '\n' && s[i + 1] == '\n'
  }

  /** Where the first blank line begins. */
  function Break(s: string): (r: Option<nat>)
    ensures r.Some? ==> r.value + 1 < |s|
  {
    if |s| < 2 then None
    else if BlankLineAt(s, 0) then Some(0)
    else
      var rest := Break(s[1..]);
      if rest.Some? then Some(rest.value + 1) else None
  }

  /** The first blank line: the text is what is before it, two line feeds, and what is behind it. */
  lemma BreakIsFirst(s: string, before: string, after: string)
    ensures match Break(s)
            case Some(i) =>
              && s == s[..i] + "\n\n" + s[i + 2..]
              && (s == before + "\n\n" + after ==> i <= |before|)
            case None => s != before + "\n\n" + after
  {
    BreakIsBlank(s);
    if s == before + "\n\n" + after { assert BlankLineAt(s, |before|); }
  }

  lemma {:induction false} BreakIsBlank(s: string)
    ensures match Break(s)
            case Some(i) => BlankLineAt(s, i) && forall j: nat :: j < i ==> !BlankLineAt(s, j)
            case None => forall j: nat :: !BlankLineAt(s, j)
  {
    if |s| >= 2 {
      BreakIsBlank(s[1..]);
      assert forall j: nat :: j > 0 ==> BlankLineAt(s, j) == BlankLineAt(s[1..], j - 1);
    }
  }

  /** The complete frames of a text, and what follows the last of them. */
  function Frames(s: string): seq<string>
    decreases |s|
  {
    match Break(s)
    case None => []
    case Some(i) => [s[..i]] + Frames(s[i + 2..])
  }

  function Rest(s: string): string
    decreases |s|
  {
    match Break(s)
    case None => s
    case Some(i) => Rest(s[i + 2..])
  }

  /** Frames and remainder put together again. */
  function Joined(frames: seq<string>, rest: string): string {
    if frames == [] then rest else frames[0] + "\n\n" + Joined(frames[1..], rest)
  }

  lemma {:induction false} JoinIsInverse(s: string)
    ensures Joined(Frames(s), Rest(s)) == s
    decreases |s|
  {
    var b := Break(s);
    if b.Some? {
      var i := b.value;
      BreakIsBlank(s);
      JoinIsInverse(s[i + 2..]);
      assert s == s[..i] + "\n\n" + s[i + 2..];
      assert Frames(s)[1..] == Frames(s[i + 2..]);
    }
  }

  lemma {:induction false} SameBreak(a: string, b: string)
    requires Break(a).Some?
    ensures Break(a + b) == Break(a)
  {
    assert (a + b)[1..] == a[1..] + b;
    if !BlankLineAt(a, 0) { SameBreak(a[1..], b); }
  }

  lemma FirstCut(s: string, cut: Option<nat>)
    requires cut == Break(s)
    ensures cut.None? ==> Frames(s) == [] && Rest(s) == s
    ensures cut.Some? ==>
              Frames(s) == [s[..cut.value]] + Frames(s[cut.value + 2..]) && Rest(s) == Rest(s[cut.value + 2..])
  {
    hide Break;
  }

  lemma Associate<T>(a: seq<T>, b: seq<T>, d: seq<T>)
    ensures a + (b + d) == (a + b) + d
  {
  }

  lemma CutSlices(a: string, b: string, i: nat)
    requires i + 1 < |a|
    ensures (a + b)[..i] == a[..i] && (a + b)[i + 2..] == a[i + 2..] + b
  {
  }

  /** Cutting what has arrived first and the rest later gives the frames of the whole. */
  lemma {:induction false} CutInTwo(a: string, b: string)
    ensures Frames(a + b) == Frames(a) + Frames(Rest(a) + b)
    ensures Rest(a + b) == Rest(Rest(a) + b)
    decreases |a|
  {
    hide Frames, Rest, Break;
    FirstCut(a, Break(a));
    if Break(a).Some? {
      var i := Break(a).value;
      SameBreak(a, b);
      FirstCut(a + b, Break(a + b));
      CutSlices(a, b, i);
      CutInTwo(a[i + 2..], b);
      Associate([a[..i]], Frames(a[i + 2..]), Frames(Rest(a) + b));
    }
  }

  /******* Chunks *******/

  function Concat(chunks: seq<string>): string {
    if chunks == [] then "" else chunks[0] + Concat(chunks[1..])
  }

  /** Every chunk is normalised by itself. */
  function Received(chunks: seq<string>): string {
    if chunks == [] then "" else Norm(chunks[0]) + Received(chunks[1..])
  }

  /** A line end of two characters falls between this chunk and what follows. */
  predicate SplitAfter(chunk: string, rest: string) {
    chunk != "" && chunk[|chunk| - 1] == '\r' && rest != "" && rest[0] == '\n'
  }

  predicate StartsCrLf(s: string) {
    |s| > 1 && s[0] == '\r' && s[1] == '\n'
  }

  /** What NormJoin says. */
  predicate JoinsWell(a: string, b: string) {
    && |Norm(a + b)| + (if SplitAfter(a, b) then 1 else 0) == |Norm(a)| + |Norm(b)|
    && (!SplitAfter(a, b) ==> Norm(a + b) == Norm(a) + Norm(b))
  }

  lemma NormPair(s: string)
    requires StartsCrLf(s)
    ensures Norm(s) == "\n" + Norm(s[2..])
  {
  }

  lemma NormOne(s: string)
    requires s != "" && !StartsCrLf(s)
    ensures Norm(s) == [s[0]] + Norm(s[1..])
  {
  }

  lemma JoinPair(a: string, b: string)
    requires StartsCrLf(a) && JoinsWell(a[2..], b)
    ensures JoinsWell(a, b)
  {
    hide Norm;
    assert (a + b)[2..] == a[2..] + b;
    NormPair(a);
    NormPair(a + b);
  }

  lemma JoinOne(a: string, b: string)
    requires a != "" && !StartsCrLf(a + b) && !StartsCrLf(a) && JoinsWell(a[1..], b)
    ensures JoinsWell(a, b)
  {
    hide Norm;
    assert (a + b)[1..] == a[1..] + b;
    NormOne(a);
    NormOne(a + b);
  }

  lemma JoinSplit(a: string, b: string)
    requires a == "\r" && b != "" && b[0] == '\n'
    ensures JoinsWell(a, b)
  {
    assert Norm("\r") == "\r" by { assert "\r"[1..] == ""; }
    hide Norm;
    assert (a + b)[2..] == b[1..];
    NormPair(a + b);
    NormOne(b);
  }

  lemma {:induction false} NormJoin(a: string, b: string)
    ensures JoinsWell(a, b)
    decreases |a|
  {
    if a == "" {
      assert a + b == b;
    } else if StartsCrLf(a) {
      NormJoin(a[2..], b);
      JoinPair(a, b);
    } else if a == "\r" && b != "" && b[0] == '\n' {
      JoinSplit(a, b);
    } else {
      NormJoin(a[1..], b);
      JoinOne(a, b);
    }
  }

  /** How many chunk boundaries split a line end. */
  function Splits(chunks: seq<string>): nat {
    if chunks == [] then 0 else (if SplitAfter(chunks[0], Concat(chunks[1..])) then 1 else 0) + Splits(chunks[1..])
  }

  lemma {:induction false} ReceivedLength(chunks: seq<string>)
    ensures |Received(chunks)| == |Norm(Concat(chunks))| + Splits(chunks)
    ensures Splits(chunks) == 0 ==> Received(chunks) == Norm(Concat(chunks))
  {
    if chunks != [] {
      NormJoin(chunks[0], Concat(chunks[1..]));
      ReceivedLength(chunks[1..]);
    }
  }

  /** The chunks give the frames and remainder of the whole text exactly when no boundary splits a CR LF. */
  lemma SameFramesIff(chunks: seq<string>)
    ensures (Frames(Received(chunks)) == Frames(Norm(Concat(chunks)))
             && Rest(Received(chunks)) == Rest(Norm(Concat(chunks))))
            <==> Splits(chunks) == 0
  {
    ReceivedLength(chunks);
    JoinIsInverse(Received(chunks));
    JoinIsInverse(Norm(Concat(chunks)));
  }

  lemma {:induction false} CrFreeIsUnsplit(chunks: seq<string>)
    requires '\r' !in Concat(chunks)
    ensures Splits(chunks) == 0 && Norm(Concat(chunks)) == Concat(chunks)
  {
    CrFreeIsNormal(Concat(chunks));
    if chunks != [] {
      assert forall c :: c in Concat(chunks[1..]) ==> c in Concat(chunks);
      assert forall c :: c in chunks[0] ==> c in Concat(chunks);
      if chunks[0] != "" { assert chunks[0][|chunks[0]| - 1] in chunks[0]; }
      CrFreeIsUnsplit(chunks[1..]);
    }
  }

  lemma {:induction false} CrFreeIsNormal(s: string)
    requires '\r' !in s
    ensures Norm(s) == s
  {
    if s != "" { CrFreeIsNormal(s[1..]); }
  }

  /******* What a frame says *******/

  function Lines(frame: string): seq<string>
    decreases |frame|
  {
    if frame == "" then [""]
    else
      var rest := Lines(frame[1..]);
      if frame[0] == '\n' then [""] + rest else if rest == [] then [frame] else [[frame[0]] + rest[0]] + rest[1..]
  }

  predicate StartsWith(s: string, prefix: string) {
    |prefix| <= |s| && s[..|prefix|] == prefix
  }

  /** The fields of an object as texts; an absent or falsy field is not there. */
  type Fields = map<string, string>

  function Field(fields: Fields, key: string): string {
    if key in fields then fields[key] else ""
  }

  datatype Json = Invalid | Value | Object(fields: Fields)

  /** The foreign parts: trimming white space, decoding JSON, naming a stop reason, and picking out an error object. */
  datatype Codec = Codec(strip: string -> string, decode: string -> Json, finish: string -> string,
                         error: Fields -> string)

  /** The event's name: the last event line wins. */
  function EventName(c: Codec, lines: seq<string>): string {
    if lines == [] then "message"
    else
      var last := lines[|lines| - 1];
      if StartsWith(last, "event:") then c.strip(last[6..]) else EventName(c, lines[..|lines| - 1])
  }

  /** The data lines, in order. */
  function DataLines(c: Codec, lines: seq<string>): seq<string> {
    if lines == [] then []
    else
      var before := DataLines(c, lines[..|lines| - 1]);
      var last := lines[|lines| - 1];
      if !StartsWith(last, "event:") && StartsWith(last, "data:") then before + [c.strip(last[5..])] else before
  }

  function JoinLines(lines: seq<string>): string {
    if lines == [] then "" else if |lines| == 1 then lines[0] else lines[0] + "\n" + JoinLines(lines[1..])
  }

  /** Lines are what the text is joined from, and hold no line feed. */
  lemma {:induction false} LinesAre(frame: string)
    ensures Lines(frame) != [] && JoinLines(Lines(frame)) == frame
    ensures forall line :: line in Lines(frame) ==> '\n' !in line
  {
    if frame != "" {
      LinesAre(frame[1..]);
      var rest, all := Lines(frame[1..]), Lines(frame);
      if frame[0] == '\n' {
        assert all[1..] == rest;
      } else {
        assert all[1..] == rest[1..];
        assert forall line :: line in all[1..] ==> line in rest;
      }
    }
  }

  lemma {:induction false} JoinLinesGrow(lines: seq<string>, last: string)
    ensures JoinLines(lines + [last]) == if lines == [] then last else JoinLines(lines) + "\n" + last
  {
    if |lines| > 1 {
      assert (lines + [last])[1..] == lines[1..] + [last];
      JoinLinesGrow(lines[1..], last);
    } else if lines != [] {
      assert (lines + [last])[1..] == [last];
    }
  }

  /** An event line with nothing but other lines behind it gives the name; without one it is "message". */
  lemma {:induction false} EventNameIs(c: Codec, lines: seq<string>, k: nat, name: string)
    requires forall i, rest :: k < i < |lines| ==> lines[i] != "event:" + rest
    ensures k < |lines| && lines[k] == "event:" + name ==> EventName(c, lines) == c.strip(name)
    ensures (forall i, rest :: 0 <= i < |lines| ==> lines[i] != "event:" + rest) ==> EventName(c, lines) == "message"
  {
    if lines != [] {
      var m := |lines| - 1;
      if StartsWith(lines[m], "event:") {
        assert lines[m] == "event:" + lines[m][6..];
        if k < |lines| && lines[k] == "event:" + name { assert k == m && lines[m][6..] == name; }
      } else {
        forall rest ensures lines[m] != "event:" + rest { assert ("event:" + rest)[..6] == "event:"; }
        forall i, rest | k < i < m ensures lines[..m][i] != "event:" + rest { assert lines[..m][i] == lines[i]; }
        EventNameIs(c, lines[..m], k, name);
        if forall i, rest :: 0 <= i < |lines| ==> lines[i] != "event:" + rest {
          forall i, rest | 0 <= i < m ensures lines[..m][i] != "event:" + rest { assert lines[..m][i] == lines[i]; }
        }
      }
    }
  }

  /** What a line adds to the data. */
  function DataOf(c: Codec, line: string): seq<string> {
    if |line| >= 5 && line[0] == 'd' && line[1] == 'a' && line[2] == 't' && line[3] == 'a' && line[4] == ':'
    then [c.strip(line[5..])] else []
  }

  /** The data lines are those of the first lines followed by those of the others. */
  lemma {:induction false} DataLinesJoin(c: Codec, lines: seq<string>, more: seq<string>)
    ensures DataLines(c, lines + more) == DataLines(c, lines) + DataLines(c, more)
    decreases |more|
  {
    if more == [] {
      assert lines + more == lines;
    } else {
      assert (lines + more)[..|lines + more| - 1] == lines + more[..|more| - 1];
      DataLinesJoin(c, lines, more[..|more| - 1]);
    }
  }

  lemma DataLinesOne(c: Codec, line: string)
    ensures DataLines(c, [line]) == DataOf(c, line)
  {
    assert [line][..0] == [];
    if |line| >= 5 { assert line[..5] == [line[0], line[1], line[2], line[3], line[4]]; }
  }

  /** What goes on to the client, with the request id of that moment. */
  datatype Out =
    | Created(id: string, fields: Fields)
    | Text(id: string, delta: string)
    | Tool(id: string, callId: string, index: nat, arguments: string, name: Option<string>)
    | Completed(id: string, fields: Fields, finish: string, usage: string)
    | Failed(id: string, fields: Fields, error: string)

  /** `aborted` when decoded data turned out not to be an object where fields are read. */
  datatype State = State(requestId: string, tools: map<string, nat>, out: seq<Out>, aborted: bool)

  predicate Known(event: string) {
    event in ["response.created", "output_text.delta", "tool_call.delta", "response.completed", "response.failed"]
  }

  function Handle(c: Codec, s: State, frame: string): State {
    var lines := Lines(frame);
    var event, data := EventName(c, lines), DataLines(c, lines);
    if s.aborted || data == [] then s
    else
      var json := c.decode(JoinLines(data));
      if json.Invalid? || !Known(event) then s
      else if json.Value? then s.(aborted := true)
      else React(c, s, event, json.fields)
  }

  function React(c: Codec, s: State, event: string, fields: Fields): State {
    if event == "response.created" then
      var id := Field(fields, "requestId");
      if id == "" then s else s.(requestId := id, out := s.out + [Created(id, fields)])
    else if event == "output_text.delta" then s.(out := s.out + [Text(s.requestId, Field(fields, "delta"))])
    else if event == "tool_call.delta" then
      var callId := Field(fields, "callId");
      var tools := if callId in s.tools then s.tools else s.tools[callId := |s.tools|];
      var name := if Field(fields, "name") == "" then None else Some(Field(fields, "name"));
      s.(tools := tools,
         out := s.out + [Tool(s.requestId, callId, tools[callId], Field(fields, "argumentsDelta"), name)])
    else if event == "response.completed" then
      s.(out := s.out + [Completed(s.requestId, fields, c.finish(Field(fields, "stopReason")), Field(fields, "usage"))])
    else s.(out := s.out + [Failed(s.requestId, fields, c.error(fields))])
  }

  function HandleAll(c: Codec, s: State, frames: seq<string>): State {
    if frames == [] then s else Handle(c, HandleAll(c, s, frames[..|frames| - 1]), frames[|frames| - 1])
  }

  lemma {:induction false} HandleJoin(c: Codec, s: State, a: seq<string>, b: seq<string>)
    ensures HandleAll(c, s, a + b) == HandleAll(c, HandleAll(c, s, a), b)
    decreases |b|
  {
    if b == [] {
      assert a + b == a;
    } else {
      assert (a + b)[..|a + b| - 1] == a + b[..|b| - 1];
      HandleJoin(c, s, a, b[..|b| - 1]);
    }
  }

  function Fresh(id: string): State {
    State(id, map[], [], false)
  }

  /**
   The generator: a buffer that takes up every chunk and is cut while it holds a blank line; `closed` tells
   whether the closing mark is sent.
   */
  method StreamBody(c: Codec, chunks: seq<string>, id: string) returns (s: State, buffer: string, closed: bool)
    ensures s == HandleAll(c, Fresh(id), Frames(Received(chunks))) && buffer == Rest(Received(chunks))
    ensures AnsweredBy(c, Answered(c, Frames(Received(chunks))), s.out) && Numbered(s) && Announced(s, id)
    ensures closed <==> forall frame :: frame in Frames(Received(chunks)) ==> !Stops(c, frame)
  {
    hide Handle, Frames, Rest, Stops, Answers, Numbered, Announced;
    buffer := "";
    s := Fresh(id);
    ghost var taken := "";
    EmptyText();
    for k := 0 to |chunks|
      invariant Received(chunks) == taken + Received(chunks[k..])
      invariant buffer == Rest(taken) && s == HandleAll(c, Fresh(id), Frames(taken))
    {
      assert chunks[k..][0] == chunks[k] && chunks[k..][1..] == chunks[k + 1..];
      CutInTwo(taken, Norm(chunks[k]));
      HandleJoin(c, Fresh(id), Frames(taken), Frames(buffer + Norm(chunks[k])));
      buffer := buffer + Norm(chunks[k]);
      s, buffer := Drain(c, s, buffer);
      taken := taken + Norm(chunks[k]);
    }
    closed := !s.aborted;
    assert taken + "" == taken;
    FramesAreAnswered(c, Fresh(id), Frames(taken));
    assert s.out[0..] == s.out;
    ToolsAreNumbered(c, id, Frames(taken));
    RequestIdIsLast(c, id, Frames(taken));
  }

  lemma EmptyText()
    ensures Frames("") == [] && Rest("") == ""
  {
  }

  lemma NoFrames(c: Codec, s: State)
    ensures HandleAll(c, s, []) == s
  {
  }

  lemma NothingToCut(buffer: string)
    requires Break(buffer).None?
    ensures Frames(buffer) == [] && Rest(buffer) == buffer
  {
  }

  lemma OneMoreFrame(c: Codec, s: State, done: seq<string>, buffer: string)
    requires Break(buffer).Some?
    ensures var i := Break(buffer).value;
            && done + Frames(buffer) == (done + [buffer[..i]]) + Frames(buffer[i + 2..])
               && Rest(buffer) == Rest(buffer[i + 2..])
            && HandleAll(c, s, done + [buffer[..i]]) == Handle(c, HandleAll(c, s, done), buffer[..i])
  {
    hide Handle;
    var frame := buffer[..Break(buffer).value];
    assert (done + [frame])[..|done|] == done;
  }

  /** One frame: its lines, its data, and what goes on to the client for it. */
  method HandleFrame(c: Codec, s: State, frame: string) returns (r: State)
    requires !s.aborted
    ensures r == Handle(c, s, frame)
  {
    var event, data := ReadLines(c, Lines(frame));
    if data == [] { return s; }
    var json := c.decode(JoinLines(data));
    if json.Invalid? { return s; }
    var calls := event == "response.created" || event == "output_text.delta" || event == "tool_call.delta"
                 || event == "response.completed" || event == "response.failed";
    if !calls { return s; }
    if json.Value? { return s.(aborted := true); }
    var fields := json.fields;
    if event == "response.created" {
      var id := Field(fields, "requestId");
      if id == "" { return s; }
      r := State(id, s.tools, s.out + [Created(id, fields)], false);
    } else if event == "output_text.delta" {
      r := State(s.requestId, s.tools, s.out + [Text(s.requestId, Field(fields, "delta"))], false);
    } else if event == "tool_call.delta" {
      var callId := Field(fields, "callId");
      var tools := s.tools;
      if callId !in tools { tools := tools[callId := |tools|]; }
      var name := None;
      if Field(fields, "name") != "" { name := Some(Field(fields, "name")); }
      r := State(s.requestId, tools,
                 s.out + [Tool(s.requestId, callId, tools[callId], Field(fields, "argumentsDelta"), name)], false);
    } else if event == "response.completed" {
      var finish := c.finish(Field(fields, "stopReason"));
      r := State(s.requestId, s.tools, s.out + [Completed(s.requestId, fields, finish, Field(fields, "usage"))], false);
    } else {
      r := State(s.requestId, s.tools, s.out + [Failed(s.requestId, fields, c.error(fields))], false);
    }
  }

  method ReadLines(c: Codec, lines: seq<string>) returns (event: string, data: seq<string>)
    ensures event == EventName(c, lines) && data == DataLines(c, lines)
  {
    event, data := "message", [];
    for k := 0 to |lines|
      invariant event == EventName(c, lines[..k]) && data == DataLines(c, lines[..k])
    {
      assert lines[..k + 1][..k] == lines[..k];
      var line := lines[k];
      if StartsWith(line, "event:") {
        event := c.strip(line[6..]);
      } else if StartsWith(line, "data:") {
        data := data + [c.strip(line[5..])];
      }
    }
    assert lines[..|lines|] == lines;
  }

  lemma AbortedStays(c: Codec, s: State, frame: string)
    ensures s.aborted ==> Handle(c, s, frame) == s
  {
  }

  method Drain(c: Codec, s0: State, text: string) returns (s: State, buffer: string)
    ensures s == HandleAll(c, s0, Frames(text)) && buffer == Rest(text)
  {
    hide Handle, HandleAll, Frames, Rest;
    s, buffer := s0, text;
    NoFrames(c, s0);
    ghost var done: seq<string> := [];
    while Break(buffer).Some?
      invariant Frames(text) == done + Frames(buffer) && Rest(text) == Rest(buffer)
      invariant s == HandleAll(c, s0, done)
      decreases |buffer|
    {
      var i := Break(buffer).value;
      var frame := buffer[..i];
      if s.aborted {
        AbortedStays(c, s, frame);
      } else {
        s := HandleFrame(c, s, frame);
      }
      OneMoreFrame(c, s0, done, buffer);
      done := done + [frame];
      buffer := buffer[i + 2..];
    }
    NothingToCut(buffer);
    assert done + [] == done;
  }

  /******* Main results *******/

  /** However a text without CR is divided into chunks, the outcome is the one of the whole text. */
  lemma ChunkingDoesNotMatter(c: Codec, id: string, chunks: seq<string>)
    requires '\r' !in Concat(chunks)
    ensures HandleAll(c, Fresh(id), Frames(Received(chunks)))
            == HandleAll(c, Fresh(id), Frames(Received([Concat(chunks)])))
    ensures Rest(Received(chunks)) == Rest(Received([Concat(chunks)]))
  {
    CrFreeIsUnsplit(chunks);
    ReceivedLength(chunks);
    assert Received([Concat(chunks)]) == Norm(Concat(chunks)) + "" == Norm(Concat(chunks));
  }

  /** With CR LF line ends too, as long as no boundary falls between the two characters. */
  lemma ChunkingOfCrLf(c: Codec, id: string, chunks: seq<string>)
    requires Splits(chunks) == 0
    ensures HandleAll(c, Fresh(id), Frames(Received(chunks)))
            == HandleAll(c, Fresh(id), Frames(Received([Concat(chunks)])))
  {
    ReceivedLength(chunks);
    assert Received([Concat(chunks)]) == Norm(Concat(chunks)) + "" == Norm(Concat(chunks));
  }

  /** The event of a frame and what its data decode to; None for a frame without data or with data that is not JSON. */
  function Message(c: Codec, frame: string): Option<(string, Json)> {
    var data := DataLines(c, Lines(frame));
    if data == [] || c.decode(JoinLines(data)).Invalid? then None
    else Some((EventName(c, Lines(frame)), c.decode(JoinLines(data))))
  }

  /** Reading a field of data that is no object ends the generator. */
  ghost predicate Stops(c: Codec, frame: string) {
    match Message(c, frame)
    case None => false
    case Some(m) =>
      m.1.Value? && m.0 in {"response.created", "output_text.delta", "tool_call.delta", "response.completed",
                            "response.failed"}
  }

  /** Frames of the five events with an object as data are answered; a creation only with a request id. */
  ghost predicate Speaks(c: Codec, frame: string) {
    match Message(c, frame)
    case None => false
    case Some(m) => m.1.Object? && SpeaksOf(m.0, m.1.fields)
  }

  predicate SpeaksOf(event: string, fields: Fields) {
    || event == "output_text.delta" || event == "tool_call.delta" || event == "response.completed"
    || event == "response.failed"
    || (event == "response.created" && "requestId" in fields && fields["requestId"] != "")
  }

  /** The text of a field, empty when there is none. */
  function TextOf(fields: Fields, key: string): string {
    if key !in fields then "" else fields[key]
  }

  /** The answer to a frame, up to the request id and the tool's index. */
  ghost predicate Answers(c: Codec, frame: string, o: Out) {
    match Message(c, frame)
    case None => false
    case Some(m) => m.1.Object? && AnswersTo(c, m.0, m.1.fields, o)
  }

  predicate AnswersTo(c: Codec, event: string, fields: Fields, o: Out) {
    match o
    case Created(id, f) => event == "response.created" && id == TextOf(fields, "requestId") && f == fields
    case Text(_, delta) => event == "output_text.delta" && delta == TextOf(fields, "delta")
    case Tool(_, callId, _, arguments, name) =>
      && event == "tool_call.delta" && callId == TextOf(fields, "callId")
      && arguments == TextOf(fields, "argumentsDelta")
      && name == (if TextOf(fields, "name") == "" then None else Some(TextOf(fields, "name")))
    case Completed(_, f, finish, usage) =>
      && event == "response.completed" && f == fields
      && finish == c.finish(TextOf(fields, "stopReason")) && usage == TextOf(fields, "usage")
    case Failed(_, f, error) => event == "response.failed" && f == fields && error == c.error(fields)
  }

  /** The frames that are answered: those that speak, up to the first that stops the generator. */
  ghost function Answered(c: Codec, frames: seq<string>): seq<string> {
    if frames == [] || Stops(c, frames[0]) then []
    else (if Speaks(c, frames[0]) then [frames[0]] else []) + Answered(c, frames[1..])
  }

  ghost predicate AnsweredBy(c: Codec, frames: seq<string>, out: seq<Out>) {
    |out| == |frames| && forall k :: 0 <= k < |out| ==> Answers(c, frames[k], out[k])
  }

  /** One frame adds its answer, or nothing. */
  lemma HandleAnswers(c: Codec, s: State, frame: string)
    requires !s.aborted
    ensures var s' := Handle(c, s, frame);
            && (s'.aborted <==> Stops(c, frame))
            && (Speaks(c, frame) ==> |s'.out| == |s.out| + 1 && s'.out[..|s.out|] == s.out
                                     && Answers(c, frame, s'.out[|s.out|]))
            && (!Speaks(c, frame) || Stops(c, frame) ==> s'.out == s.out)
  {
    hide EventName, DataLines, Lines, JoinLines, React, AnswersTo;
    var m := Message(c, frame);
    if m.Some? && m.value.1.Object? && Known(m.value.0) {
      ReactAnswers(c, s, m.value.0, m.value.1.fields);
    }
  }

  lemma ReactAnswers(c: Codec, s: State, event: string, fields: Fields)
    requires Known(event)
    ensures var s' := React(c, s, event, fields);
            && s'.aborted == s.aborted
            && (SpeaksOf(event, fields) ==> |s'.out| == |s.out| + 1 && s'.out[..|s.out|] == s.out
                                            && AnswersTo(c, event, fields, s'.out[|s.out|]))
            && (!SpeaksOf(event, fields) ==> s'.out == s.out)
  {
  }

  lemma {:induction false} FramesAreAnswered(c: Codec, s: State, frames: seq<string>)
    requires !s.aborted
    ensures var s' := HandleAll(c, s, frames);
            && |s.out| <= |s'.out| && s'.out[..|s.out|] == s.out
            && AnsweredBy(c, Answered(c, frames), s'.out[|s.out|..])
            && (s'.aborted <==> exists frame :: frame in frames && Stops(c, frame))
    decreases |frames|
  {
    hide Handle, Speaks, Stops, Answers;
    if frames != [] {
      var next := Handle(c, s, frames[0]);
      HandleFirst(c, s, frames);
      HandleAnswers(c, s, frames[0]);
      if next.aborted {
        StaysAborted(c, next, frames[1..]);
      } else {
        FramesAreAnswered(c, next, frames[1..]);
        StopsLater(c, frames);
        var out := HandleAll(c, s, frames).out;
        if Speaks(c, frames[0]) {
          assert out[|s.out|] == next.out[|s.out|] && out[|s.out|..] == [out[|s.out|]] + out[|next.out|..];
          assert out[..|s.out|] == out[..|next.out|][..|s.out|];
        }
      }
    }
  }

  lemma HandleFirst(c: Codec, s: State, frames: seq<string>)
    requires frames != []
    ensures HandleAll(c, s, frames) == HandleAll(c, Handle(c, s, frames[0]), frames[1..])
  {
    hide Handle;
    HandleJoin(c, s, [frames[0]], frames[1..]);
    assert [frames[0]] + frames[1..] == frames;
    assert [frames[0]][..0] == [];
  }

  lemma {:induction false} StaysAborted(c: Codec, s: State, frames: seq<string>)
    requires s.aborted
    ensures HandleAll(c, s, frames) == s
  {
    if frames != [] { StaysAborted(c, s, frames[..|frames| - 1]); }
  }

  lemma StopsLater(c: Codec, frames: seq<string>)
    requires frames != [] && !Stops(c, frames[0])
    ensures (exists frame :: frame in frames && Stops(c, frame))
            <==> exists frame :: frame in frames[1..] && Stops(c, frame)
  {
    hide Stops;
    assert frames == [frames[0]] + frames[1..];
  }

  /** The texts sent, and the texts of the answered text frames. */
  function TextsSent(out: seq<Out>): seq<string> {
    if out == [] then [] else (if out[0].Text? then [out[0].delta] else []) + TextsSent(out[1..])
  }

  function TextsReceived(c: Codec, frames: seq<string>): seq<string> {
    if frames == [] then []
    else
      (match Message(c, frames[0])
       case Some((event, Object(fields))) => if event == "output_text.delta" then [TextOf(fields, "delta")] else []
       case _ => [])
      + TextsReceived(c, frames[1..])
  }

  /** The client gets every piece of text, in order and unchanged. */
  lemma {:induction false} TextArrives(c: Codec, frames: seq<string>, out: seq<Out>)
    requires AnsweredBy(c, frames, out)
    ensures TextsSent(out) == TextsReceived(c, frames)
  {
    hide Message;
    if out != [] {
      assert Answers(c, frames[0], out[0]);
      forall k | 0 <= k < |out[1..]| ensures Answers(c, frames[1..][k], out[1..][k]) {
        assert Answers(c, frames[k + 1], out[k + 1]);
      }
      TextArrives(c, frames[1..], out[1..]);
    }
  }

  /** The call ids of the tool chunks, each at its first appearance. */
  function Appearances(out: seq<Out>): seq<string> {
    if out == [] then []
    else
      var before, last := Appearances(out[..|out| - 1]), out[|out| - 1];
      if last.Tool? && last.callId !in before then before + [last.callId] else before
  }

  ghost predicate Numbered(s: State) {
    var order := Appearances(s.out);
    && NoDuplicates(order) && |s.tools| == |order|
    && (forall id :: id in s.tools <==> id in order)
    && (forall k :: 0 <= k < |order| ==> order[k] in s.tools && s.tools[order[k]] == k)
    && (forall o :: o in s.out && o.Tool? ==> o.callId in s.tools && o.index == s.tools[o.callId])
  }

  lemma OneMoreOut(s: State, s': State, o: Out)
    requires Numbered(s) && s'.out == s.out + [o]
    requires if o.Tool? then
               s'.tools == (if o.callId in s.tools then s.tools else s.tools[o.callId := |s.tools|])
                 && o.index == s'.tools[o.callId]
             else s'.tools == s.tools
    ensures Numbered(s')
  {
    assert s'.out[..|s'.out| - 1] == s.out;
  }

  lemma HandleNumbers(c: Codec, s: State, frame: string)
    requires Numbered(s)
    ensures Numbered(Handle(c, s, frame))
  {
    hide Numbered, Lines, EventName, DataLines, JoinLines;
    var s' := Handle(c, s, frame);
    if s'.out != s.out {
      OneMoreOut(s, s', s'.out[|s.out|]);
    } else {
      SameNumbers(s, s');
    }
  }

  lemma SameNumbers(s: State, s': State)
    requires Numbered(s) && s'.out == s.out && s'.tools == s.tools
    ensures Numbered(s')
  {
  }

  /** Tool indices are dense, distinct and in order of first appearance, and every chunk of a call carries its index. */
  lemma {:induction false} ToolsAreNumbered(c: Codec, id: string, frames: seq<string>)
    ensures Numbered(HandleAll(c, Fresh(id), frames))
  {
    if frames != [] {
      ToolsAreNumbered(c, id, frames[..|frames| - 1]);
      HandleNumbers(c, HandleAll(c, Fresh(id), frames[..|frames| - 1]), frames[|frames| - 1]);
    }
  }

  /** The last announced request id, or the made-up one. */
  function LastCreated(out: seq<Out>, id: string): string {
    if out == [] then id else if out[|out| - 1].Created? then out[|out| - 1].id else LastCreated(out[..|out| - 1], id)
  }

  ghost predicate Announced(s: State, id: string) {
    && s.requestId == LastCreated(s.out, id)
    && forall k :: 0 <= k < |s.out| ==> Carries(s.out, k, id)
  }

  predicate Carries(out: seq<Out>, k: nat, id: string)
    requires k < |out|
  {
    out[k].id == LastCreated(out[..k + 1], id)
  }

  lemma OneMoreAnnounced(s: State, s': State, o: Out, id: string)
    requires Announced(s, id) && s'.out == s.out + [o] && o.id == s'.requestId
    requires !o.Created? ==> s'.requestId == s.requestId
    ensures Announced(s', id)
  {
    assert s'.out[..|s.out|] == s.out && s'.out[..|s'.out|] == s'.out;
    forall k | 0 <= k < |s.out| ensures Carries(s'.out, k, id) {
      assert Carries(s.out, k, id);
      assert s'.out[..k + 1] == s.out[..k + 1];
    }
  }

  lemma SameAnnounced(s: State, s': State, id: string)
    requires Announced(s, id) && s'.out == s.out && s'.requestId == s.requestId
    ensures Announced(s', id)
  {
  }

  lemma HandleAnnounces(c: Codec, s: State, frame: string, id: string)
    requires Announced(s, id)
    ensures Announced(Handle(c, s, frame), id)
  {
    hide Announced, Lines, EventName, DataLines, JoinLines;
    var s' := Handle(c, s, frame);
    if s'.out != s.out {
      OneMoreAnnounced(s, s', s'.out[|s.out|], id);
    } else {
      SameAnnounced(s, s', id);
    }
  }

  /** Every chunk that goes out carries the request id announced last before it. */
  lemma {:induction false} RequestIdIsLast(c: Codec, id: string, frames: seq<string>)
    ensures Announced(HandleAll(c, Fresh(id), frames), id)
  {
    hide Handle;
    if frames != [] {
      RequestIdIsLast(c, id, frames[..|frames| - 1]);
      HandleAnnounces(c, HandleAll(c, Fresh(id), frames[..|frames| - 1]), frames[|frames| - 1], id);
    }
  }
}
