/** The last-resort renderer of a throwable and its causal chain. Each write to
    the diagnostic stream (one call of the source's `p`) is one string; the
    text of a whole report is the specification function Render. */
module StackTracePrinter {

  import opened Wrappers
  import opened Faults
  import opened Text

  /** The intro of every predecessor's header. */
  const PREVIOUS_INTRO := "Previous: "

  /** The header `%s[%s] %s\n`: intro, class name in brackets, message. */
  function Header(intro: string, cls: string, message: string): string {
    intro + "[" + cls + "] " + message + "\n"
  }

  /** The header names the class in brackets between the intro and the
      message, and ends the line. */
  lemma HeaderLayout(intro: string, cls: string, message: string)
    ensures var r, n := Header(intro, cls, message), |intro|;
      && |r| == n + |cls| + |message| + 4
      && r[..n] == intro
      && r[n] == '['
      && r[n + 1..n + 1 + |cls|] == cls
      && r[n + 1 + |cls|..n + 3 + |cls|] == "] "
      && r[n + 3 + |cls|..|r| - 1] == message
      && r[|r| - 1] == '\n'
  {
    var r := Header(intro, cls, message);
    assert r == intro + ("[" + cls + "] " + message + "\n");
  }

  /** `$station['file'] ?: 'unknown'`: null, "" and "0" are falsy in PHP. */
  function FileText(file: Option<string>): (r: string)
    ensures r == "unknown" || (file.Some? && r == file.value)
    ensures file.None? || file.value == "" || file.value == "0" ==> r == "unknown"
    ensures file.Some? && file.value != "" && file.value != "0" ==> r == file.value
  {
    if file.None? || file.value == "" || file.value == "0" then "unknown" else file.value
  }

  /** `%d` of the line: null prints as 0. */
  function LineText(line: Option<int>): string {
    IntToString(line.GetOr(0))
  }

  /** The printed line number reads back as the frame's line, or 0 without one. */
  lemma LineTextReadsBack(line: Option<int>)
    ensures ParseInt(LineText(line)) == Some(line.GetOr(0))
  {
    IntToStringRoundTrip(line.GetOr(0));
  }

  /** The station line `#%- 3s%s:%d\n`. */
  function StationLine(idx: nat, f: Frame): (r: string)
    ensures |r| >= 1 && r[0] == '#'
  {
    "#" + PadRight(NatToString(idx), 3) + FileText(f.file) + ":" + LineText(f.line) + "\n"
  }

  /** A station line starts with '#' and the frame's index in decimal, padded
      with spaces to at least three characters; the index reads back as the
      frame's position. */
  lemma StationLineIsTagged(idx: nat, f: Frame)
    ensures var r, digits := StationLine(idx, f), NatToString(idx);
      && |r| >= 4 && 1 + |digits| <= |r|
      && r[1..1 + |digits|] == digits
      && ParseDigits(digits) == idx
      && forall i :: 1 + |digits| <= i < 4 ==> r[i] == ' '
  {
    var digits := NatToString(idx);
    var head := "#" + PadRight(digits, 3);
    var rest := FileText(f.file) + ":" + LineText(f.line) + "\n";
    PaddedTag(digits);
    PrefixKept(head, rest);
    assert StationLine(idx, f) == head + rest;
    NatToStringRoundTrip(idx);
  }

  /** After the padded tag come the file text, ':', the line number (which
      reads back as the frame's line, 0 without one) and the newline. */
  lemma StationLineLayout(idx: nat, f: Frame)
    ensures var r, tag, ft, lt := StationLine(idx, f), PadRight(NatToString(idx), 3), FileText(f.file), LineText(f.line);
      && |r| == 3 + |tag| + |ft| + |lt|
      && r[1..1 + |tag|] == tag
      && r[1 + |tag|..1 + |tag| + |ft|] == ft
      && r[1 + |tag| + |ft|] == ':'
      && r[2 + |tag| + |ft|..|r| - 1] == lt
      && ParseInt(r[2 + |tag| + |ft|..|r| - 1]) == Some(f.line.GetOr(0))
      && r[|r| - 1] == '\n'
  {
    var tag, ft, lt := PadRight(NatToString(idx), 3), FileText(f.file), LineText(f.line);
    var r := StationLine(idx, f);
    assert r == ("#" + tag) + ft + ":" + lt + "\n";
    FiveParts("#" + tag, ft, ":", lt, "\n");
    assert r[1..1 + |tag|] == r[..1 + |tag|][1..];
    LineTextReadsBack(f.line);
  }

  lemma PaddedTag(digits: string)
    ensures var head := "#" + PadRight(digits, 3);
      && |head| >= 4 && 1 + |digits| <= |head|
      && head[1..1 + |digits|] == digits
      && forall i :: 1 + |digits| <= i < 4 ==> head[i] == ' '
  {
    var tag := PadRight(digits, 3);
    assert ("#" + tag)[1..1 + |digits|] == tag[..|digits|];
  }

  lemma PrefixKept(head: string, rest: string)
    ensures (head + rest)[..|head|] == head
    ensures forall i :: 0 <= i < |head| ==> (head + rest)[i] == head[i]
  {
  }

  /** The summary of one argument: `array<count>`, the class name of an
      object, or the type name of anything else. */
  function Summary(a: Arg): string {
    match a
    case ArrArg(n) => "array" + NatToString(n)
    case ObjArg(c) => c
    case Prim(t) => t
  }

  function Summaries(args: seq<Arg>): seq<string> {
    seq(|args|, i requires 0 <= i < |args| => Summary(args[i]))
  }

  /** The argument list of a frame: an absent or non-array `args` is empty. */
  function ArgList(f: Frame): seq<Arg> {
    f.args.GetOr([])
  }

  /** The function name as printed: a closure called from a class prints as the
      fixed marker `{closure}`, every other name as it is. */
  function DisplayName(cls: Option<string>, func: Option<string>): (r: Option<string>)
    ensures r.Some? <==> func.Some?
    ensures cls.None? ==> r == func
    ensures func.Some? && !Contains(func.value, "{closure}") ==> r == func
    ensures r.Some? ==> (Contains(r.value, "{closure}") <==> Contains(func.value, "{closure}"))
    ensures r.Some? && cls.Some? && Contains(func.value, "{closure}") ==> r.value == "{closure}"
  {
    if func.Some? && Contains(func.value, "{closure}") && cls.Some? then
      assert OccursAt("{closure}", "{closure}", 0);
      Some("{closure}")
    else func
  }

  /** The signature line `    %s%s%s%s%s%s\n`: class, call type, function
      (null prints empty), then the argument summaries in parentheses. */
  function SignatureLine(cls: Option<string>, callType: Option<string>, func: Option<string>, params: seq<string>): (r: string)
    ensures |r| >= 7 && r[..4] == "    " && r[|r| - 2..] == ")\n"
  {
    "    " + cls.GetOr("") + callType.GetOr("") + func.GetOr("") + "(" + Join(params, ", ") + ")" + "\n"
  }

  /** Between the indent and the closing `)\n` come class, call type and
      function name, then '(' and the summaries joined by ", ". */
  lemma SignatureLineLayout(cls: Option<string>, callType: Option<string>, func: Option<string>, params: seq<string>)
    ensures var r, name, list := SignatureLine(cls, callType, func, params),
                                 cls.GetOr("") + callType.GetOr("") + func.GetOr(""), Join(params, ", ");
      && |r| == 7 + |name| + |list|
      && r[..4] == "    "
      && r[4..4 + |name|] == name
      && r[4 + |name|] == '('
      && r[5 + |name|..5 + |name| + |list|] == list
      && r[5 + |name| + |list|..] == ")\n"
  {
    var c1, c2, c3 := cls.GetOr(""), callType.GetOr(""), func.GetOr("");
    var list := Join(params, ", ");
    AppendAssoc("    ", c1, c2);
    AppendAssoc("    ", c1 + c2, c3);
    assert SignatureLine(cls, callType, func, params) == "    " + (c1 + c2 + c3) + "(" + list + ")" + "\n";
    FiveParts("    ", c1 + c2 + c3, "(", list, ")\n");
  }

  /** Where each of three parts sits inside a slice that holds their concatenation. */
  lemma ThreeWithin(r: string, off: nat, x: string, y: string, z: string)
    requires off + |x| + |y| + |z| <= |r| && r[off..off + |x| + |y| + |z|] == x + y + z
    ensures r[off..off + |x|] == x
    ensures r[off + |x|..off + |x| + |y|] == y
    ensures r[off + |x| + |y|..off + |x| + |y| + |z|] == z
  {
    var w := r[off..off + |x| + |y| + |z|];
    assert forall i :: 0 <= i < |w| ==> r[off + i] == w[i];
    assert forall i :: 0 <= i < |x| ==> w[i] == x[i];
    assert forall i :: 0 <= i < |y| ==> w[|x| + i] == y[i];
    assert forall i :: 0 <= i < |z| ==> w[|x| + |y| + i] == z[i];
  }

  /** Where each of five concatenated parts sits. */
  lemma FiveParts(p1: string, p2: string, p3: string, p4: string, p5: string)
    ensures var r, n1, n2, n3, n4 := p1 + p2 + p3 + p4 + p5, |p1|, |p1| + |p2|, |p1| + |p2| + |p3|, |p1| + |p2| + |p3| + |p4|;
      && |r| == n4 + |p5|
      && r[..n1] == p1 && r[n1..n2] == p2 && r[n2..n3] == p3 && r[n3..n4] == p4 && r[n4..] == p5
  {
    var r := p1 + p2 + p3 + p4 + p5;
    assert r[..|p1|] == p1;
    assert r[|p1|..|p1| + |p2|] == p2;
    assert r[|p1| + |p2|..|p1| + |p2| + |p3|] == p3;
    assert r[|p1| + |p2| + |p3|..|p1| + |p2| + |p3| + |p4|] == p4;
  }

  /** Everything printed for the frame at index `idx`: its station line, then a
      signature line exactly when the frame names a class or a function. */
  function StationLines(idx: nat, f: Frame): (lines: seq<string>)
    ensures 1 <= |lines| <= 2 && lines[0] == StationLine(idx, f)
    ensures |lines| == 2 <==> f.cls.Some? || f.func.Some?
    ensures |lines| == 2 ==> lines[1] == SignatureOf(f)
  {
    [StationLine(idx, f)]
    + if f.cls.Some? || f.func.Some? then [SignatureOf(f)] else []
  }

  /** The signature line of a frame: the name as displayed and the summaries
      of its arguments. */
  function SignatureOf(f: Frame): string {
    SignatureLine(f.cls, f.callType, DisplayName(f.cls, f.func), Summaries(ArgList(f)))
  }

  /** The signature line of a frame:
      its class, its call type, its function name (exactly `{closure}` for a
      closure called from a class), then '(' and one summary per argument,
      in order, joined by ", ". */
  lemma SignatureLayout(f: Frame)
    ensures var r, c, t, shown := SignatureOf(f), f.cls.GetOr(""), f.callType.GetOr(""), DisplayName(f.cls, f.func).GetOr("");
      var params := Summaries(ArgList(f));
      var list := Join(params, ", ");
      && shown == ShownName(f)
      && |r| == 7 + |c| + |t| + |shown| + |list|
      && r[..4] == "    "
      && r[4..4 + |c|] == c
      && r[4 + |c|..4 + |c| + |t|] == t
      && r[4 + |c| + |t|..4 + |c| + |t| + |shown|] == shown
      && r[4 + |c| + |t| + |shown|] == '('
      && r[5 + |c| + |t| + |shown|..5 + |c| + |t| + |shown| + |list|] == list
      && r[5 + |c| + |t| + |shown| + |list|..] == ")\n"
      && |params| == |ArgList(f)|
      && forall i :: 0 <= i < |params| ==> params[i] == Summary(ArgList(f)[i])
  {
    var shownName := DisplayName(f.cls, f.func);
    DisplayedAsShown(f);
    SignatureLineLayout(f.cls, f.callType, shownName, Summaries(ArgList(f)));
    ThreeWithin(SignatureOf(f), 4, f.cls.GetOr(""), f.callType.GetOr(""), shownName.GetOr(""));
  }

  /** The function name a frame's signature line shows: exactly `{closure}`
      for a closure called from a class, the function as it is otherwise
      (empty when null). */
  function ShownName(f: Frame): string {
    if f.cls.Some? && f.func.Some? && Contains(f.func.value, "{closure}") then "{closure}" else f.func.GetOr("")
  }

  lemma DisplayedAsShown(f: Frame)
    ensures DisplayName(f.cls, f.func).GetOr("") == ShownName(f)
  {
  }

  /** Everything printed for a backtrace, frame by frame in trace order, each
      frame tagged with its index. */
  function TraceLines(frames: seq<Frame>): seq<string>
    decreases |frames|
  {
    if frames == [] then []
    else TraceLines(frames[..|frames| - 1]) + StationLines(|frames| - 1, frames[|frames| - 1])
  }

  /** What is printed for one element of the chain: its header and its trace. */
  function Block(e: Fault, intro: string): seq<string> {
    [Header(intro, e.cls, e.message)] + TraceLines(e.trace)
  }

  /** The whole report for `e`: its block, then, if it has a predecessor, an
      empty line and the predecessor's report with the intro "Previous: ". */
  function Render(e: Fault, intro: string): seq<string>
    decreases e
  {
    Block(e, intro) + if e.previous.Some? then ["\n"] + Render(e.previous.value, PREVIOUS_INTRO) else []
  }

  /** The blocks of the predecessors, each after an empty line. */
  function Continuations(fs: seq<Fault>): seq<string>
    decreases |fs|
  {
    if fs == [] then [] else ["\n"] + Block(fs[0], PREVIOUS_INTRO) + Continuations(fs[1..])
  }

  /** A report is one block per element of the causal chain, outermost first:
      the fault's own under its intro, then each predecessor's under
      "Previous: ", separated by empty lines. */
  lemma {:induction false} RenderIsChainOfBlocks(e: Fault, intro: string)
    ensures Render(e, intro) == Block(e, intro) + Continuations(Chain(e)[1..])
    ensures Render(e, intro)[0] == Header(intro, e.cls, e.message)
    decreases e
  {
    if e.previous.Some? {
      var p := e.previous.value;
      RenderIsChainOfBlocks(p, PREVIOUS_INTRO);
      assert Chain(e)[1..] == Chain(p);
      assert Continuations(Chain(p)) == ["\n"] + Block(p, PREVIOUS_INTRO) + Continuations(Chain(p)[1..]);
    } else {
      assert Chain(e)[1..] == [];
    }
  }

  /** The station lines among printed lines: those that begin with '#'. */
  function Stations(lines: seq<string>): seq<string>
    decreases |lines|
  {
    if lines == [] then []
    else Stations(lines[..|lines| - 1])
         + if |lines[|lines| - 1]| > 0 && lines[|lines| - 1][0] == '#' then [lines[|lines| - 1]] else []
  }

  lemma {:induction false} StationsOfConcat(a: seq<string>, b: seq<string>)
    ensures Stations(a + b) == Stations(a) + Stations(b)
    decreases |b|
  {
    if b == [] {
      assert a + b == a;
    } else {
      var b' := b[..|b| - 1];
      assert (a + b)[..|a + b| - 1] == a + b';
      StationsOfConcat(a, b');
    }
  }

  lemma StationsOfFrame(idx: nat, f: Frame)
    ensures Stations(StationLines(idx, f)) == [StationLine(idx, f)]
  {
    var lines := StationLines(idx, f);
    var station := StationLine(idx, f);
    assert Stations([station]) == [station] by {
      assert [station][..0] == [];
    }
    if |lines| == 2 {
      assert lines[..1] == [station];
      assert lines[1][0] == ' ';
      assert Stations(lines) == Stations(lines[..1]);
    } else {
      assert lines == [station];
    }
  }

  lemma StationsOfLastFrame(frames: seq<Frame>)
    requires frames != []
    ensures Stations(TraceLines(frames))
         == Stations(TraceLines(frames[..|frames| - 1])) + [StationLine(|frames| - 1, frames[|frames| - 1])]
  {
    var n := |frames| - 1;
    assert TraceLines(frames) == TraceLines(frames[..n]) + StationLines(n, frames[n]);
    StationsOfConcat(TraceLines(frames[..n]), StationLines(n, frames[n]));
    StationsOfFrame(n, frames[n]);
  }

  /** `line(k, frames[k])` for every index k, in order. */
  function Indexed(frames: seq<Frame>, line: (nat, Frame) -> string): (r: seq<string>)
    ensures |r| == |frames|
    decreases |frames|
  {
    if frames == [] then []
    else Indexed(frames[..|frames| - 1], line) + [line(|frames| - 1, frames[|frames| - 1])]
  }

  lemma {:induction false} IndexedAt(frames: seq<Frame>, line: (nat, Frame) -> string, k: nat)
    requires k < |frames|
    ensures Indexed(frames, line)[k] == line(k, frames[k])
    decreases |frames|
  {
    var n := |frames| - 1;
    if k < n {
      IndexedAt(frames[..n], line, k);
      assert frames[..n][k] == frames[k];
    }
  }

  /** Exactly one station line is printed per frame, in trace order, and the
      k-th one is the station line of frame k tagged with index k. */
  lemma {:induction false} StationsInTraceOrder(frames: seq<Frame>)
    ensures Stations(TraceLines(frames)) == Indexed(frames, StationLine)
    ensures forall k :: 0 <= k < |frames| ==> Stations(TraceLines(frames))[k] == StationLine(k, frames[k])
    decreases |frames|
  {
    if frames != [] {
      StationsInTraceOrder(frames[..|frames| - 1]);
      StationsOfLastFrame(frames);
    }
    forall k | 0 <= k < |frames|
      ensures Indexed(frames, StationLine)[k] == StationLine(k, frames[k])
    {
      IndexedAt(frames, StationLine, k);
    }
  }

  lemma TraceLinesSnoc(frames: seq<Frame>, i: nat)
    requires i < |frames|
    ensures TraceLines(frames[..i + 1]) == TraceLines(frames[..i]) + StationLines(i, frames[i])
  {
    assert frames[..i + 1][..i] == frames[..i];
  }

  /** The process's diagnostic stream (php://stderr): every write appends. */
  class DiagnosticStream {
    var writes: seq<string>

    constructor ()
      ensures writes == []
    {
      writes := [];
    }

    method Write(text: string)
      modifies this
      ensures writes == old(writes) + [text]
    {
      writes := writes + [text];
    }
  }

  /** Summarise the arguments of a frame, one entry per argument, in order. */
  method SummarizeArgs(args: seq<Arg>) returns (params: seq<string>)
    ensures |params| == |args|
    ensures forall i :: 0 <= i < |args| ==> params[i] == Summary(args[i])
  {
    params := [];
    for i := 0 to |args|
      invariant |params| == i
      invariant forall j :: 0 <= j < i ==> params[j] == Summary(args[j])
    {
      match args[i]
      case ArrArg(n) => params := params + ["array" + NatToString(n)];
      case ObjArg(c) => params := params + [c];
      case Prim(t) => params := params + [t];
    }
  }

  /** Print one frame: its station line, and its signature line when it names
      a class or a function. */
  method FormatStation(out: DiagnosticStream, idx: nat, station: Frame)
    modifies out
    ensures out.writes == old(out.writes) + StationLines(idx, station)
  {
    out.Write(StationLine(idx, station));
    if station.cls.Some? || station.func.Some? {
      var args := if station.args.Some? then station.args.value else [];
      var params := SummarizeArgs(args);
      assert params == Summaries(ArgList(station));
      var func := station.func;
      if func.Some? && Contains(func.value, "{closure}") && station.cls.Some? {
        func := Some("{closure}");
      }
      out.Write(SignatureLine(station.cls, station.callType, func, params));
    }
  }

  /** Print every frame of a backtrace, each tagged with its index. */
  method PrintTrace(out: DiagnosticStream, frames: seq<Frame>)
    modifies out
    ensures out.writes == old(out.writes) + TraceLines(frames)
  {
    for i := 0 to |frames|
      invariant out.writes == old(out.writes) + TraceLines(frames[..i])
    {
      TraceLinesSnoc(frames, i);
      FormatStation(out, i, frames[i]);
      AppendAssoc(old(out.writes), TraceLines(frames[..i]), StationLines(i, frames[i]));
    }
    assert frames[..|frames|] == frames;
  }

  /** Print a throwable: its header, its frames, then its predecessor's report. */
  method PrintException(out: DiagnosticStream, e: Fault, intro: string)
    modifies out
    ensures out.writes == old(out.writes) + Render(e, intro)
    decreases e
  {
    ghost var before := out.writes;
    out.Write(Header(intro, e.cls, e.message));
    PrintTrace(out, e.trace);
    AppendAssoc(before, [Header(intro, e.cls, e.message)], TraceLines(e.trace));
    assert out.writes == before + Block(e, intro);
    if e.previous.Some? {
      out.Write("\n");
      PrintException(out, e.previous.value, PREVIOUS_INTRO);
      AppendAssoc(before + Block(e, intro), ["\n"], Render(e.previous.value, PREVIOUS_INTRO));
      AppendAssoc(before, Block(e, intro), ["\n"] + Render(e.previous.value, PREVIOUS_INTRO));
    } else {
      assert Render(e, intro) == Block(e, intro) + [];
    }
  }
}
