/** A job's child output: cut into lines chunk by chunk, logged, and searched for the structured result. */
module StreamCapture {
  import opened Wrappers
  import Text

  // ----- lines -----

  const MAX_LOG: nat := 2000

  /** `line.replace(/\r$/, '')` */
  function WithoutCr(line: string): string {
    if line != [] && line[|line| - 1] == '\r' then line[..|line| - 1] else line
  }

  function WithoutCrs(lines: seq<string>): seq<string> {
    seq(|lines|, i requires 0 <= i < |lines| => WithoutCr(lines[i]))
  }

  /** The lines of `text` that a newline ends. */
  function Completed(text: string): seq<string> {
    var parts := Text.Split(text, '\n');
    WithoutCrs(parts[..|parts| - 1])
  }

  /** What follows the last newline. */
  function Partial(text: string): string {
    var parts := Text.Split(text, '\n');
    parts[|parts| - 1]
  }

  function LastLine(partial: string): seq<string> { if partial == "" then [] else [WithoutCr(partial)] }

  /** The newline-split of a whole output, one trailing CR removed per line, without an empty last piece. */
  function LinesOf(text: string): seq<string> { Completed(text) + LastLine(Partial(text)) }

  lemma NoNewline(text: string)
    requires '\n' !in text
    ensures Completed(text) == [] && Partial(text) == text
  {
    Text.SplitSingle(text, '\n');
  }

  lemma Regroup(a: seq<string>, b: seq<string>, c: seq<string>)
    ensures a + (b + c) == (a + b) + c
  {}

  /** Taking off the first line. */
  lemma FirstLine(text: string, nl: nat)
    requires nl < |text| && text[nl] == '\n' && '\n' !in text[..nl]
    ensures Completed(text) == [WithoutCr(text[..nl])] + Completed(text[nl + 1..])
    ensures Partial(text) == Partial(text[nl + 1..])
  {
    var first, after := text[..nl], text[nl + 1..];
    assert text == first + ['\n'] + after;
    Text.SplitAfterFirst(first, after, '\n');
    var rest := Text.Split(after, '\n');
    assert ([first] + rest)[..|rest|] == [first] + rest[..|rest| - 1];
  }

  /** Where a text is cut does not matter: the lines of the two halves, the partial line carried over. */
  lemma {:induction false} CutAnywhere(a: string, b: string)
    ensures Completed(a + b) == Completed(a) + Completed(Partial(a) + b)
    ensures Partial(a + b) == Partial(Partial(a) + b)
    decreases |a|
  {
    var nl := Text.IndexOf(a, '\n');
    if nl == |a| {
      NoNewline(a);
    } else {
      hide Completed, Partial;
      var after := a[nl + 1..];
      FirstLine(a, nl);
      assert (a + b)[..nl] == a[..nl] && (a + b)[nl + 1..] == after + b;
      FirstLine(a + b, nl);
      CutAnywhere(after, b);
      Regroup([WithoutCr(a[..nl])], Completed(after), Completed(Partial(after) + b));
    }
  }

  /** What a child writes that ends each of these lines, some with a carriage return before the newline. */
  function Written(lines: seq<(string, bool)>): string {
    if lines == [] then ""
    else lines[0].0 + (if lines[0].1 then "\r" else "") + ['\n'] + Written(lines[1..])
  }

  predicate OneLine(line: string) { '\n' !in line && (line != [] ==> line[|line| - 1] != '\r') }

  /** `text` is cut into these lines and this unfinished rest. */
  predicate CutInto(text: string, lines: seq<(string, bool)>, last: string) {
    && Partial(text) == last && |Completed(text)| == |lines|
    && forall i :: 0 <= i < |lines| ==> Completed(text)[i] == lines[i].0
  }

  lemma CutFirst(first: string, cr: bool, rest: string, lines: seq<(string, bool)>, last: string)
    requires OneLine(first) && CutInto(rest, lines, last)
    ensures CutInto(first + (if cr then "\r" else "") + ['\n'] + rest, [(first, cr)] + lines, last)
  {
    var whole := first + (if cr then "\r" else "");
    var text := whole + ['\n'] + rest;
    assert text[..|whole|] == whole && text[|whole| + 1..] == rest;
    FirstLine(text, |whole|);
    assert WithoutCr(whole) == first;
    hide Completed, Partial, WithoutCr;
  }

  /** Whatever lines are written come back, and a last one without its newline too. */
  lemma {:induction false} WrittenLinesComeBack(lines: seq<(string, bool)>, last: string)
    requires OneLine(last) && forall i :: 0 <= i < |lines| ==> OneLine(lines[i].0)
    ensures CutInto(Written(lines) + last, lines, last)
    ensures LinesOf(Written(lines) + last) == Completed(Written(lines) + last) + (if last == "" then [] else [last])
  {
    if lines == [] {
      assert Written(lines) + last == last;
      NoNewline(last);
    } else {
      WrittenLinesComeBack(lines[1..], last);
      WrittenFirst(lines, last);
      hide *;
      CutFirst(lines[0].0, lines[0].1, Written(lines[1..]) + last, lines[1..], last);
      LastIsWhole(Written(lines) + last, lines, last);
    }
  }

  lemma WrittenFirst(lines: seq<(string, bool)>, last: string)
    requires lines != []
    ensures Written(lines) + last == lines[0].0 + (if lines[0].1 then "\r" else "") + ['\n'] + (Written(lines[1..]) + last)
    ensures lines == [(lines[0].0, lines[0].1)] + lines[1..]
  {}

  lemma LastIsWhole(text: string, lines: seq<(string, bool)>, last: string)
    requires CutInto(text, lines, last) && OneLine(last)
    ensures LinesOf(text) == Completed(text) + (if last == "" then [] else [last])
  {
    hide Completed, Partial;
  }

  // ----- what a line does to the job -----

  datatype Parsed<V> = Malformed | NotObject | Object(value: V)

  const SENTINEL := "AQA_JOB_RESULT="
  const MALFORMED := "malformed structured job result"

  /** The host operations used on a line: redaction, the JSON parser, and the run-id pattern. */
  datatype Host<!V> = Host(redact: string -> string, parse: string -> Parsed<V>, runId: string -> Option<string>)

  datatype Job<V> = Job(
    log: seq<string>,
    result: Option<V>,
    sentinelSeen: bool,
    error: Option<string>,
    runId: Option<string>)

  predicate IsSentinel(line: string) { Text.StartsWith(Text.Trim(line), SENTINEL) }

  function Payload(line: string): string
    requires IsSentinel(line)
  {
    Text.Trim(line)[|SENTINEL|..]
  }

  predicate LooksLoose(line: string) {
    && !IsSentinel(line) && Text.StartsWith(Text.Trim(line), "{") && Text.Includes(Text.Trim(line), "\"results\"")
  }

  /** The object an explicit result line carries. */
  function SentinelValue<V>(host: Host<V>, line: string): Option<V> {
    if IsSentinel(line) && Payload(line) != "" && host.parse(Payload(line)).Object?
    then Some(host.parse(Payload(line)).value) else None
  }

  /** The object a line that merely mentions results carries. */
  function LooseValue<V>(host: Host<V>, line: string): Option<V> {
    if LooksLoose(line) && host.parse(Text.Trim(line)).Object? then Some(host.parse(Text.Trim(line)).value) else None
  }

  predicate BadSentinel<V>(host: Host<V>, line: string) {
    IsSentinel(line) && Payload(line) != "" && host.parse(Payload(line)).Malformed?
  }

  /** A line that is the sentinel and a payload carries what the payload parses to, or is malformed. */
  lemma SentinelIsRead<V>(host: Host<V>, payload: string)
    requires payload != "" && !Text.IsSpace(payload[|payload| - 1])
    ensures var line, parsed := "AQA_JOB_RESULT=" + payload, host.parse(payload);
            && SentinelValue(host, line) == (if parsed.Object? then Some(parsed.value) else None)
            && (BadSentinel(host, line) <==> parsed.Malformed?) && LooseValue(host, line) == None
  {
    var line := "AQA_JOB_RESULT=" + payload;
    assert line[0] == 'A' && line[|line| - 1] == payload[|payload| - 1];
    Text.TrimmedIsFixed(line);
    assert line[|SENTINEL|..] == payload;
    hide Text.Trim;
  }

  function LastN<T>(s: seq<T>, n: nat): seq<T> { if |s| <= n then s else s[|s| - n..] }

  function Capture<V>(host: Host<V>, isRun: bool, job: Job<V>, line: string): Job<V> {
    Job(
      LastN(job.log + [host.redact(line)], MAX_LOG),
      if SentinelValue(host, line).Some? then SentinelValue(host, line)
      else if !job.sentinelSeen && LooseValue(host, line).Some? then LooseValue(host, line)
      else job.result,
      job.sentinelSeen || SentinelValue(host, line).Some?,
      if BadSentinel(host, line) && (job.error.None? || job.error.value == "") then Some(MALFORMED) else job.error,
      if isRun && (job.runId.None? || job.runId.value == "") && host.runId(line).Some? then host.runId(line) else job.runId)
  }

  /** The job after these lines, from a fresh one. */
  function Captured<V>(host: Host<V>, isRun: bool, lines: seq<string>): Job<V> {
    if lines == [] then Job([], None, false, None, None)
    else Capture(host, isRun, Captured(host, isRun, lines[..|lines| - 1]), lines[|lines| - 1])
  }

  class JobCapture<V> {
    const host: Host<V>
    const isRun: bool
    var log: seq<string>
    var result: Option<V>
    var sentinelSeen: bool
    var error: Option<string>
    var runId: Option<string>
    ghost var pushed: seq<string>

    function Model(): Job<V>
      reads this
    {
      Job(log, result, sentinelSeen, error, runId)
    }

    ghost predicate Valid()
      reads this
    {
      Model() == Captured(host, isRun, pushed)
    }

    constructor (host: Host<V>, isRun: bool)
      ensures Valid() && pushed == [] && this.host == host && this.isRun == isRun
    {
      this.host, this.isRun := host, isRun;
      log, result, sentinelSeen, error, runId, pushed := [], None, false, None, None, [];
    }

    method CaptureStructuredResult(line: string)
      modifies `result, `sentinelSeen, `error
      ensures var after := Capture(host, isRun, old(Model()), line);
              result == after.result && sentinelSeen == after.sentinelSeen && error == after.error
    {
      var t := Text.Trim(line);
      var raw, sentinel := "", false;
      if Text.StartsWith(t, SENTINEL) {
        raw, sentinel := t[|SENTINEL|..], true;
      } else if !sentinelSeen && Text.StartsWith(t, "{") && Text.Includes(t, "\"results\"") {
        raw := t;
      }
      if raw == "" { return; }
      match host.parse(raw)
      case Object(v) =>
        result := Some(v);
        if sentinel { sentinelSeen := true; }
      case NotObject =>
      case Malformed =>
        if sentinel && (error.None? || error.value == "") { error := Some(MALFORMED); }
    }

    method PushLine(line: string)
      requires Valid()
      modifies this
      ensures Valid() && pushed == old(pushed) + [line]
      ensures Model() == Capture(host, isRun, old(Model()), line)
    {
      CaptureStructuredResult(line);
      log := log + [host.redact(line)];
      if |log| > MAX_LOG { log := log[|log| - MAX_LOG..]; }
      if isRun && (runId.None? || runId.value == "") {
        var m := host.runId(line);
        if m.Some? { runId := m; }
      }
      pushed := pushed + [line];
      assert pushed[..|pushed| - 1] == old(pushed);
    }
  }

  /** One of the child's streams, feeding a job it may share with the other stream. */
  class LineSplitter<V> {
    const job: JobCapture<V>
    var buf: string

    constructor (job: JobCapture<V>)
      ensures buf == "" && this.job == job
    {
      this.job, buf := job, "";
    }

    method Data(chunk: string)
      requires job.Valid()
      modifies this, job
      ensures job.Valid() && job.pushed == old(job.pushed) + Completed(old(buf) + chunk)
      ensures buf == Partial(old(buf) + chunk)
    {
      hide Completed, Partial, WithoutCr, Text.IndexOf;
      buf := buf + chunk;
      ghost var whole, before := buf, job.pushed;
      var nl := Text.IndexOf(buf, '\n');
      while nl < |buf|
        invariant nl == Text.IndexOf(buf, '\n') && job.Valid()
        invariant job.pushed + Completed(buf) == before + Completed(whole)
        invariant Partial(buf) == Partial(whole)
        decreases |buf|
      {
        FirstLine(buf, nl);
        var line := WithoutCr(buf[..nl]);
        Regroup(job.pushed, [line], Completed(buf[nl + 1..]));
        job.PushLine(line);
        buf := buf[nl + 1..];
        nl := Text.IndexOf(buf, '\n');
      }
      NoNewline(buf);
    }

    method End()
      requires job.Valid()
      modifies this, job
      ensures job.Valid() && job.pushed == old(job.pushed) + LastLine(old(buf)) && buf == ""
    {
      if buf != "" { job.PushLine(WithoutCr(buf)); }
      buf := "";
    }
  }

  // ----- every chunking, every interleaving of two streams -----

  /** What the child's two streams do: `fromErr` tells standard error from standard output. */
  datatype Event = Chunk(fromErr: bool, text: string) | End(fromErr: bool)

  datatype Pushed = Pushed(fromErr: bool, line: string)

  datatype Streams = Streams(outBuf: string, errBuf: string, pushed: seq<Pushed>)

  function Buf(st: Streams, fromErr: bool): string { if fromErr then st.errBuf else st.outBuf }

  function Tagged(fromErr: bool, lines: seq<string>): seq<Pushed> {
    seq(|lines|, i requires 0 <= i < |lines| => Pushed(fromErr, lines[i]))
  }

  /** One callback: `Data` or `End` of the stream the event is for. */
  function Step(st: Streams, e: Event): Streams {
    var buf := Buf(st, e.fromErr);
    var lines := if e.Chunk? then Completed(buf + e.text) else LastLine(buf);
    var rest := if e.Chunk? then Partial(buf + e.text) else "";
    Streams(if e.fromErr then st.outBuf else rest, if e.fromErr then rest else st.errBuf,
            st.pushed + Tagged(e.fromErr, lines))
  }

  function Run(events: seq<Event>): Streams {
    if events == [] then Streams("", "", []) else Step(Run(events[..|events| - 1]), events[|events| - 1])
  }

  /** Everything one stream wrote. */
  function Output(events: seq<Event>, fromErr: bool): string {
    if events == [] then ""
    else
      var e := events[|events| - 1];
      Output(events[..|events| - 1], fromErr) + (if e.Chunk? && e.fromErr == fromErr then e.text else "")
  }

  predicate Ended(events: seq<Event>, fromErr: bool) { End(fromErr) in events }

  /** A stream is silent after its end. */
  predicate Orderly(events: seq<Event>) {
    forall i, j :: 0 <= i < j < |events| && events[i].End? ==> events[j].fromErr != events[i].fromErr
  }

  /** The lines one stream pushed. */
  function From(pushed: seq<Pushed>, fromErr: bool): seq<string> {
    if pushed == [] then []
    else
      var p := pushed[|pushed| - 1];
      From(pushed[..|pushed| - 1], fromErr) + (if p.fromErr == fromErr then [p.line] else [])
  }

  lemma {:induction false} FromTagged(pushed: seq<Pushed>, lines: seq<string>, tag: bool, fromErr: bool)
    ensures From(pushed + Tagged(tag, lines), fromErr) == From(pushed, fromErr) + (if tag == fromErr then lines else [])
    decreases |lines|
  {
    if lines == [] {
      assert pushed + Tagged(tag, lines) == pushed;
    } else {
      var last := |lines| - 1;
      var all := pushed + Tagged(tag, lines);
      FromTagged(pushed, lines[..last], tag, fromErr);
      assert all[..|all| - 1] == pushed + Tagged(tag, lines[..last]);
      assert lines[..last] + [lines[last]] == lines;
    }
  }

  /**
  However the child's output is cut into chunks and however its two streams interleave, each stream has pushed,
  in order, the newline-split of everything it wrote, and at its end the last unfinished line too.
  */
  lemma {:induction false} ChunkingDoesNotMatter(events: seq<Event>, fromErr: bool)
    requires Orderly(events)
    ensures var st, text := Run(events), Output(events, fromErr);
            && From(st.pushed, fromErr) == (if Ended(events, fromErr) then LinesOf(text) else Completed(text))
            && Buf(st, fromErr) == (if Ended(events, fromErr) then "" else Partial(text))
  {
    if events == [] {
      NoNewline("");
    } else {
      var last := |events| - 1;
      var e, before := events[last], events[..last];
      ChunkingDoesNotMatter(before, fromErr);
      var st, text := Run(before), Output(before, fromErr);
      var buf := Buf(st, e.fromErr);
      var lines := if e.Chunk? then Completed(buf + e.text) else LastLine(buf);
      FromTagged(st.pushed, lines, e.fromErr, fromErr);
      SameEnd(events, fromErr);
      if e.fromErr == fromErr {
        NotEndedBefore(events);
        if e.Chunk? { CutAnywhere(text, e.text); } else { assert text + "" == text; }
      } else {
        assert text + "" == text;
        assert From(st.pushed, fromErr) + [] == From(st.pushed, fromErr);
      }
    }
  }

  lemma SameEnd(events: seq<Event>, fromErr: bool)
    requires events != []
    ensures var last := |events| - 1;
            Ended(events, fromErr) <==> (Ended(events[..last], fromErr) || events[last] == End(fromErr))
  {
    var last := |events| - 1;
    assert events == events[..last] + [events[last]];
  }

  lemma NotEndedBefore(events: seq<Event>)
    requires events != [] && Orderly(events)
    ensures !Ended(events[..|events| - 1], events[|events| - 1].fromErr)
  {
    var last := |events| - 1;
    forall i | 0 <= i < last ensures events[..last][i] != End(events[last].fromErr) {
      assert events[..last][i] == events[i];
    }
  }

  // ----- what the job holds in the end -----

  /** The object of the last valid sentinel line. */
  function LastSentinel<V>(host: Host<V>, lines: seq<string>): Option<V> {
    if lines == [] then None
    else
      var last := |lines| - 1;
      if SentinelValue(host, lines[last]).Some? then SentinelValue(host, lines[last])
      else LastSentinel(host, lines[..last])
  }

  function LastLoose<V>(host: Host<V>, lines: seq<string>): Option<V> {
    if lines == [] then None
    else
      var last := |lines| - 1;
      if LooseValue(host, lines[last]).Some? then LooseValue(host, lines[last]) else LastLoose(host, lines[..last])
  }

  function Redacted<V>(host: Host<V>, lines: seq<string>): seq<string> {
    seq(|lines|, i requires 0 <= i < |lines| => host.redact(lines[i]))
  }

  /** The log is the redaction of the last 2000 lines. */
  lemma {:induction false} LogIsTheTail<V>(host: Host<V>, isRun: bool, lines: seq<string>)
    ensures Captured(host, isRun, lines).log == LastN(Redacted(host, lines), MAX_LOG)
  {
    if lines != [] {
      var last := |lines| - 1;
      LogIsTheTail(host, isRun, lines[..last]);
      assert Redacted(host, lines) == Redacted(host, lines[..last]) + [host.redact(lines[last])];
    }
  }

  /**
  The result is the object of the last valid sentinel line if there was one, whatever loose lines surround it, and
  otherwise of the last valid loose line.
  */
  lemma {:induction false} ResultIsTheLast<V>(host: Host<V>, isRun: bool, lines: seq<string>)
    ensures var job, sentinel := Captured(host, isRun, lines), LastSentinel(host, lines);
            && job.sentinelSeen == sentinel.Some?
            && job.result == if sentinel.Some? then sentinel else LastLoose(host, lines)
  {
    if lines != [] {
      hide SentinelValue, LooseValue, BadSentinel;
      ResultIsTheLast(host, isRun, lines[..|lines| - 1]);
    }
  }

  predicate SomeMalformed<V>(host: Host<V>, lines: seq<string>) {
    exists i :: 0 <= i < |lines| && BadSentinel(host, lines[i])
  }

  lemma SomeMalformedStep<V>(host: Host<V>, lines: seq<string>)
    requires lines != []
    ensures var last := |lines| - 1;
            SomeMalformed(host, lines) <==> SomeMalformed(host, lines[..last]) || BadSentinel(host, lines[last])
  {
    hide BadSentinel;
    var front := lines[..|lines| - 1];
    assert forall i :: 0 <= i < |front| ==> lines[i] == front[i];
  }

  /** The job carries the malformed-result error exactly when some sentinel line did not parse. */
  lemma {:induction false} ErrorIffMalformed<V>(host: Host<V>, isRun: bool, lines: seq<string>)
    ensures Captured(host, isRun, lines).error == if SomeMalformed(host, lines) then Some(MALFORMED) else None
  {
    if lines != [] {
      hide SentinelValue, LooseValue, BadSentinel, SomeMalformed, LastN;
      ErrorIffMalformed(host, isRun, lines[..|lines| - 1]);
      SomeMalformedStep(host, lines);
    }
  }

  /** For a run job, the run id is the one of the first line that shows one. */
  lemma {:induction false} RunIdIsTheFirst<V>(host: Host<V>, lines: seq<string>, n: nat)
    requires n < |lines| && host.runId(lines[n]).Some? && host.runId(lines[n]).value != ""
    requires forall i :: 0 <= i < n ==> host.runId(lines[i]).None?
    ensures Captured(host, true, lines).runId == host.runId(lines[n])
    decreases |lines|
  {
    hide SentinelValue, LooseValue, BadSentinel;
    var last := |lines| - 1;
    if n < last {
      RunIdIsTheFirst(host, lines[..last], n);
    } else {
      NoRunId(host, lines[..last]);
    }
  }

  /** Only a run job takes a run id. */
  lemma {:induction false} OnlyRunsTakeRunIds<V>(host: Host<V>, lines: seq<string>)
    ensures Captured(host, false, lines).runId == None
  {
    if lines != [] {
      hide SentinelValue, LooseValue, BadSentinel, LastN;
      OnlyRunsTakeRunIds(host, lines[..|lines| - 1]);
    }
  }

  lemma {:induction false} NoRunId<V>(host: Host<V>, lines: seq<string>)
    requires forall i :: 0 <= i < |lines| ==> host.runId(lines[i]).None?
    ensures Captured(host, true, lines).runId == None
  {
    if lines != [] {
      hide SentinelValue, LooseValue, BadSentinel;
      NoRunId(host, lines[..|lines| - 1]);
    }
  }

  // ----- from the two outputs to the job -----

  function EventLines(st: Streams, e: Event): seq<string> {
    if e.Chunk? then Completed(Buf(st, e.fromErr) + e.text) else LastLine(Buf(st, e.fromErr))
  }

  function CaptureAll<V>(host: Host<V>, isRun: bool, job: Job<V>, lines: seq<string>): Job<V> {
    if lines == [] then job
    else Capture(host, isRun, CaptureAll(host, isRun, job, lines[..|lines| - 1]), lines[|lines| - 1])
  }

  /** The job after the child's events: each callback pushes its lines. */
  function JobAfter<V>(host: Host<V>, isRun: bool, events: seq<Event>): Job<V> {
    if events == [] then Captured(host, isRun, [])
    else
      var front, e := events[..|events| - 1], events[|events| - 1];
      CaptureAll(host, isRun, JobAfter(host, isRun, front), EventLines(Run(front), e))
  }

  /** All pushed lines, of both streams, in the order they were pushed. */
  function InOrder(pushed: seq<Pushed>): seq<string> {
    seq(|pushed|, i requires 0 <= i < |pushed| => pushed[i].line)
  }

  lemma {:induction false} CapturedConcat<V>(host: Host<V>, isRun: bool, a: seq<string>, b: seq<string>)
    ensures Captured(host, isRun, a + b) == CaptureAll(host, isRun, Captured(host, isRun, a), b)
    decreases |b|
  {
    hide Capture;
    if b == [] {
      assert a + b == a;
    } else {
      CapturedConcat(host, isRun, a, b[..|b| - 1]);
      assert (a + b)[..|a + b| - 1] == a + b[..|b| - 1];
    }
  }

  /** The job is what capturing all pushed lines, in push order, makes of a fresh one. */
  lemma {:induction false} JobIsCaptured<V>(host: Host<V>, isRun: bool, events: seq<Event>)
    ensures JobAfter(host, isRun, events) == Captured(host, isRun, InOrder(Run(events).pushed))
  {
    if events == [] {
      assert InOrder([]) == [];
    } else {
      hide Captured, CaptureAll, Completed, Partial;
      var front, e := events[..|events| - 1], events[|events| - 1];
      JobIsCaptured(host, isRun, front);
      var before, lines := Run(front).pushed, EventLines(Run(front), e);
      assert InOrder(before + Tagged(e.fromErr, lines)) == InOrder(before) + lines;
      CapturedConcat(host, isRun, InOrder(before), lines);
    }
  }

  /** If the other stream shows no valid sentinel, the last valid one is that of this stream's lines. */
  lemma {:induction false} SentinelsOfOneStream<V>(host: Host<V>, pushed: seq<Pushed>, fromErr: bool)
    requires forall line :: line in From(pushed, !fromErr) ==> SentinelValue(host, line).None?
    ensures LastSentinel(host, InOrder(pushed)) == LastSentinel(host, From(pushed, fromErr))
  {
    if pushed == [] {
      assert InOrder(pushed) == [];
    } else {
      hide SentinelValue;
      var last := |pushed| - 1;
      var front := pushed[..last];
      assert InOrder(pushed)[..last] == InOrder(front);
      FromLast(pushed, fromErr);
      FromLast(pushed, !fromErr);
      SentinelsOfOneStream(host, front, fromErr);
    }
  }

  lemma FromLast(pushed: seq<Pushed>, fromErr: bool)
    requires pushed != []
    ensures var last := |pushed| - 1; var front := From(pushed[..last], fromErr);
            if pushed[last].fromErr == fromErr
            then From(pushed, fromErr) == front + [pushed[last].line]
                 && (front + [pushed[last].line])[..|front|] == front && pushed[last].line in From(pushed, fromErr)
                 && forall line :: line in front ==> line in From(pushed, fromErr)
            else From(pushed, fromErr) == front
  {}

  lemma QuietStream<V>(host: Host<V>, events: seq<Event>, fromErr: bool)
    requires Orderly(events)
    requires forall line :: line in LinesOf(Output(events, fromErr)) ==> SentinelValue(host, line).None?
    ensures forall line :: line in From(Run(events).pushed, fromErr) ==> SentinelValue(host, line).None?
  {
    ChunkingDoesNotMatter(events, fromErr);
    var lines, text := From(Run(events).pushed, fromErr), Output(events, fromErr);
    hide SentinelValue, Completed, Partial, From, Run, Output;
    forall line | line in lines ensures SentinelValue(host, line).None? { assert line in LinesOf(text); }
  }

  /**
  From the child's two outputs to the job, for every chunking and interleaving: the log is the redaction of the last
  2000 pushed lines; and where all valid sentinels are on one stream, the result is the last one among that output's
  lines, wherever the chunks were cut and whatever the other stream pushed in between.
  */
  lemma OutputsDecideTheJob<V>(host: Host<V>, isRun: bool, events: seq<Event>, fromErr: bool)
    requires Orderly(events)
    requires forall line :: line in LinesOf(Output(events, !fromErr)) ==> SentinelValue(host, line).None?
    ensures var job, pushed := JobAfter(host, isRun, events), InOrder(Run(events).pushed);
            var text := Output(events, fromErr);
            var sentinel := LastSentinel(host, if Ended(events, fromErr) then LinesOf(text) else Completed(text));
            && job.log == LastN(Redacted(host, pushed), MAX_LOG)
            && job.sentinelSeen == sentinel.Some?
            && job.result == if sentinel.Some? then sentinel else LastLoose(host, pushed)
  {
    var pushed := Run(events).pushed;
    ChunkingDoesNotMatter(events, fromErr);
    QuietStream(host, events, !fromErr);
    hide Completed, Partial, SentinelValue, LooseValue, LastSentinel, LastLoose, Captured, JobAfter, Run, From, Output, Ended, LastN;
    SentinelsOfOneStream(host, pushed, fromErr);
    JobIsCaptured(host, isRun, events);
    LogIsTheTail(host, isRun, InOrder(pushed));
    ResultIsTheLast(host, isRun, InOrder(pushed));
  }
}
