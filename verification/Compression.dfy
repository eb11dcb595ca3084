/**
 * The compression pipeline and its gate, after `src/compression/compression-pipeline.ts`,
 * `src/compression/sensitivity-gate.ts`, `src/compression/request-text.ts` and `cachePrefixLength` in
 * `src/models/model-gateway.ts`. Engines, the finder of protected values and the token counter are parameters:
 * what is proved holds for engines that are wrong.
 */
module Compression {
  import opened Basics

  /** A part's text, or the JSON of a tool call's input. */
  datatype Part = Part(text: string)

  datatype Message = Message(role: string, content: seq<Part>)

  /** `carried` is everything compression does not look at. */
  datatype Request = Request(system: Option<string>, tools: Option<string>, messages: seq<Message>, stableMessages: Option<real>, carried: string)

  datatype Engine = Engine(name: string, lossy: bool, compress: Request -> Request)

  datatype Setup = Setup(engines: seq<Engine>, protectedTokens: string -> seq<string>, count: string -> nat)

  datatype Verdict = Applied | NoReduction | GateRefused

  datatype Report = Report(engine: string, verdict: Verdict, before: nat, after: nat, beforeTokens: nat, afterTokens: nat)

  // ---------------------------------------------------------------------------------------------
  // The text of a request

  function Texts(parts: seq<Part>): seq<string> {
    if parts == [] then [] else [parts[0].text] + Texts(parts[1..])
  }

  function MessageTexts(messages: seq<Message>): seq<string> {
    if messages == [] then [] else Texts(messages[0].content) + MessageTexts(messages[1..])
  }

  function JoinLines(parts: seq<string>): string {
    if parts == [] then "" else if |parts| == 1 then parts[0] else parts[0] + "\n" + JoinLines(parts[1..])
  }

  function Render(r: Request): string {
    JoinLines((if r.system.Some? && r.system.value != "" then [r.system.value] else []) + MessageTexts(r.messages))
  }

  // ---------------------------------------------------------------------------------------------
  // The gate

  method Counts(tokens: seq<string>) returns (counts: map<string, nat>)
    ensures forall t :: t in counts <==> t in tokens
    ensures forall t :: t in counts ==> counts[t] == multiset(tokens)[t]
  {
    counts := map[];
    for i := 0 to |tokens|
      invariant forall t :: t in counts <==> t in tokens[..i]
      invariant forall t :: t in counts ==> counts[t] == multiset(tokens[..i])[t]
    {
      assert tokens[..i + 1] == tokens[..i] + [tokens[i]];
      counts := counts[tokens[i] := (if tokens[i] in counts then counts[tokens[i]] else 0) + 1];
    }
    assert tokens[..|tokens|] == tokens;
  }

  /** Whether every token of the first occurs as often in the second. */
  method Covered(wanted: seq<string>, have: seq<string>) returns (ok: bool)
    ensures ok <==> multiset(wanted) <= multiset(have)
  {
    var needs := Counts(wanted);
    var counts := Counts(have);
    var rest := needs.Keys;
    while rest != {}
      invariant rest <= needs.Keys
      invariant forall t :: t in needs && t !in rest ==> multiset(wanted)[t] <= multiset(have)[t]
      decreases |rest|
    {
      var token :| token in rest;
      if (if token in counts then counts[token] else 0) < needs[token] {
        return false;
      }
      rest := rest - {token};
    }
    assert forall t :: multiset(wanted)[t] <= multiset(have)[t] by {
      assert forall t :: t !in needs ==> t !in multiset(wanted);
    }
    return true;
  }

  function Protected(s: Setup, text: string): multiset<string> { multiset(s.protectedTokens(text)) }

  /** A lossless engine may drop no protected value, a lossy one may bring none in. */
  ghost predicate Safe(s: Setup, lossy: bool, before: string, after: string) {
    if lossy then Protected(s, after) <= Protected(s, before) else Protected(s, before) <= Protected(s, after)
  }

  // ---------------------------------------------------------------------------------------------
  // The pipeline

  ghost function StepVerdict(s: Setup, e: Engine, current: Request): Verdict {
    var before, after := Render(current), Render(e.compress(current));
    if |after| >= |before| then NoReduction else if Safe(s, e.lossy, before, after) then Applied else GateRefused
  }

  /** One engine: its output when it is smaller and safe, otherwise nothing changes. */
  ghost function Step(s: Setup, e: Engine, current: Request): (Request, Report) {
    var verdict := StepVerdict(s, e, current);
    var next := if verdict == Applied then e.compress(current) else current;
    var before, after := Render(current), Render(next);
    (next, Report(e.name, verdict, |before|, |after|, s.count(before), s.count(after)))
  }

  ghost function RunAll(s: Setup, engines: seq<Engine>, current: Request): (Request, seq<Report>) {
    if engines == [] then (current, [])
    else
      var (next, report) := Step(s, engines[0], current);
      var (last, reports) := RunAll(s, engines[1..], next);
      (last, [report] + reports)
  }

  function Trunc(x: real): int { if x >= 0.0 then x.Floor else -((-x).Floor) }

  /** How many leading messages the declared prefix covers; none declared is not the same as zero. */
  function CachePrefixLength(r: Request): Option<nat> {
    if r.stableMessages.None? then None else Some(Min(Max(Trunc(r.stableMessages.value), 0), |r.messages|))
  }

  function CompressibleRegion(r: Request, prefix: nat): Request
    requires prefix <= |r.messages|
  {
    Request(None, None, r.messages[prefix..], None, r.carried)
  }

  ghost function Compressed(s: Setup, r: Request): (Request, seq<Report>) {
    match CachePrefixLength(r)
    case None => RunAll(s, s.engines, r)
    case Some(k) =>
      var (region, reports) := RunAll(s, s.engines, CompressibleRegion(r, k));
      (r.(messages := r.messages[..k] + region.messages), reports)
  }

  class CompressionPipeline {
    const setup: Setup

    constructor (setup: Setup)
      ensures this.setup == setup
    {
      this.setup := setup;
    }

    /** One engine tried on the current request, with the text and the token count already known. */
    method Try(engine: Engine, current: Request, currentText: string, beforeTokens: nat)
      returns (next: Request, nextText: string, afterTokens: nat, report: Report)
      requires currentText == Render(current) && beforeTokens == setup.count(currentText)
      ensures (next, report) == Step(setup, engine, current)
      ensures nextText == Render(next) && afterTokens == setup.count(nextText)
    {
      hide Render;
      var before := |currentText|;
      next, nextText, afterTokens := current, currentText, beforeTokens;
      var candidate := engine.compress(current);
      var candidateText := Render(candidate);
      if |candidateText| >= before {
        report := Report(engine.name, NoReduction, before, before, beforeTokens, beforeTokens);
        return;
      }
      var had, got := setup.protectedTokens(currentText), setup.protectedTokens(candidateText);
      var safe;
      if engine.lossy {
        safe := Covered(got, had);
      } else {
        safe := Covered(had, got);
      }
      if !safe {
        report := Report(engine.name, GateRefused, before, before, beforeTokens, beforeTokens);
        return;
      }
      next, nextText, afterTokens := candidate, candidateText, setup.count(candidateText);
      report := Report(engine.name, Applied, before, |candidateText|, beforeTokens, afterTokens);
    }

    method Run(request: Request) returns (current: Request, reports: seq<Report>)
      ensures (current, reports) == RunAll(setup, setup.engines, request)
    {
      hide Render, Step;
      var text := Render(request);
      var tokens := setup.count(text);
      current, reports := request, [];
      for i := 0 to |setup.engines|
        invariant text == Render(current) && tokens == setup.count(text)
        invariant var whole, rest := RunAll(setup, setup.engines, request), RunAll(setup, setup.engines[i..], current);
          whole.0 == rest.0 && whole.1 == reports + rest.1
      {
        assert setup.engines[i..][0] == setup.engines[i] && setup.engines[i..][1..] == setup.engines[i + 1..];
        var report;
        current, text, tokens, report := Try(setup.engines[i], current, text, tokens);
        reports := reports + [report];
      }
      assert setup.engines[|setup.engines|..] == [] && reports + [] == reports;
    }

    method Compress(request: Request) returns (sent: Request, reports: seq<Report>)
      ensures (sent, reports) == Compressed(setup, request)
    {
      var prefix := CachePrefixLength(request);
      if prefix.None? {
        sent, reports := Run(request);
        return;
      }
      var head := request.messages[..prefix.value];
      var region;
      region, reports := Run(CompressibleRegion(request, prefix.value));
      sent := request.(messages := head + region.messages);
    }
  }

  // ---------------------------------------------------------------------------------------------
  // What a pass guarantees, whatever the engines do

  /**
   * What one engine comes to, in the gate's own terms: it is applied exactly when its text is shorter and, if it may lose
   * something, its protected values are among those before, if it may not, those before are among its own; it is refused
   * when only the gate speaks against it. Nothing else changes the request.
   */
  ghost predicate Judged(s: Setup, e: Engine, before: Request, after: Request, report: Report) {
    var was, now := Render(before), Render(e.compress(before));
    var shorter := |now| < |was|;
    var kept := if e.lossy then multiset(s.protectedTokens(now)) <= multiset(s.protectedTokens(was))
                else multiset(s.protectedTokens(was)) <= multiset(s.protectedTokens(now));
    && (report.verdict == Applied <==> shorter && kept)
    && (report.verdict == GateRefused <==> shorter && !kept)
    && (report.verdict == NoReduction <==> !shorter)
    && after == (if shorter && kept then e.compress(before) else before)
    && report.engine == e.name
    && report.before == |was| && report.after == |Render(after)|
    && report.beforeTokens == s.count(was) && report.afterTokens == s.count(Render(after))
  }

  lemma StepIsJudged(s: Setup, e: Engine, r: Request)
    ensures Judged(s, e, r, Step(s, e, r).0, Step(s, e, r).1)
  {
    hide Render;
  }

  /** Every engine of a pass in turn, each on what the one before left. */
  lemma {:induction false} PassIsJudged(s: Setup, engines: seq<Engine>, r: Request) returns (states: seq<Request>)
    ensures var (last, reports) := RunAll(s, engines, r);
      && |states| == |engines| + 1 && |reports| == |engines| && states[0] == r && states[|engines|] == last
      && forall i :: 0 <= i < |engines| ==> Judged(s, engines[i], states[i], states[i + 1], reports[i])
  {
    hide Judged, Step;
    if engines == [] {
      states := [r];
    } else {
      var (next, report) := Step(s, engines[0], r);
      StepIsJudged(s, engines[0], r);
      var rest := PassIsJudged(s, engines[1..], next);
      states := [r] + rest;
      var reports := RunAll(s, engines, r).1;
      forall i | 0 <= i < |engines| ensures Judged(s, engines[i], states[i], states[i + 1], reports[i]) {
        if i > 0 {
          assert states[i] == rest[i - 1] && states[i + 1] == rest[i] && reports[i] == RunAll(s, engines[1..], next).1[i - 1];
        }
      }
    }
  }

  /**
   * A compression is such a pass: over the whole request where no prefix is declared; otherwise over what follows the
   * prefix, alone, and its messages are put back behind the prefix.
   */
  lemma CompressionIsJudged(s: Setup, r: Request) returns (states: seq<Request>)
    ensures var (sent, reports) := Compressed(s, r);
      && |states| == |s.engines| + 1 && |reports| == |s.engines|
      && (forall i :: 0 <= i < |s.engines| ==> Judged(s, s.engines[i], states[i], states[i + 1], reports[i]))
      && (r.stableMessages.None? ==> states[0] == r && sent == states[|s.engines|])
      && (r.stableMessages.Some? ==>
            && CachePrefixLength(r).Some? && CachePrefixLength(r).value <= |r.messages|
            && var k := CachePrefixLength(r).value;
            && states[0] == Request(None, None, r.messages[k..], None, r.carried)
            && sent == r.(messages := r.messages[..k] + states[|s.engines|].messages))
  {
    hide Judged, RunAll;
    states := PassIsJudged(s, s.engines, if r.stableMessages.None? then r else CompressibleRegion(r, CachePrefixLength(r).value));
  }

  /** What the text of a request is: its system prompt, then the text of every part of every message, in order. */
  lemma RenderIs(r: Request)
    ensures r.system == None || r.system == Some("") ==> Render(r) == JoinLines(MessageTexts(r.messages))
    ensures r.system.Some? && r.system.value != "" ==> Render(r) == JoinLines([r.system.value] + MessageTexts(r.messages))
    ensures JoinLines([]) == "" && (forall line :: JoinLines([line]) == line)
    ensures forall line, lines :: lines != [] ==> JoinLines([line] + lines) == line + "\n" + JoinLines(lines)
  {
    assert [] + MessageTexts(r.messages) == MessageTexts(r.messages);
    forall line, lines: seq<string> | lines != [] ensures JoinLines([line] + lines) == line + "\n" + JoinLines(lines) {
      assert ([line] + lines)[1..] == lines;
    }
  }

  /** Messages are read one after another, and each part by part. */
  lemma {:induction false} TextsJoin(a: seq<Message>, b: seq<Message>)
    ensures MessageTexts(a + b) == MessageTexts(a) + MessageTexts(b)
    decreases |a|
  {
    hide Texts;
    if a == [] {
      assert a + b == b;
    } else {
      assert (a + b)[0] == a[0] && (a + b)[1..] == a[1..] + b;
      TextsJoin(a[1..], b);
    }
  }

  lemma TextsOfOne(m: Message)
    ensures |MessageTexts([m])| == |m.content| && forall i :: 0 <= i < |m.content| ==> MessageTexts([m])[i] == m.content[i].text
  {
    hide Texts;
    PartsAre(m.content);
    assert [m][1..] == [] && MessageTexts([m][1..]) == [];
    assert MessageTexts([m]) == Texts(m.content) + [] == Texts(m.content);
  }

  lemma {:induction false} PartsAre(parts: seq<Part>)
    ensures |Texts(parts)| == |parts| && forall i :: 0 <= i < |parts| ==> Texts(parts)[i] == parts[i].text
  {
    if parts != [] { PartsAre(parts[1..]); }
  }

  /** Lossless engines only: no protected value is lost, counted with multiplicity. */
  lemma {:induction false} LosslessKeeps(s: Setup, engines: seq<Engine>, r: Request)
    requires forall e :: e in engines ==> !e.lossy
    ensures Protected(s, Render(r)) <= Protected(s, Render(RunAll(s, engines, r).0))
  {
    hide Render, Protected;
    if engines != [] {
      assert engines[0] in engines;
      LosslessKeeps(s, engines[1..], Step(s, engines[0], r).0);
    }
  }

  /** Lossy engines only: no protected value comes in. */
  lemma {:induction false} LossyAddsNone(s: Setup, engines: seq<Engine>, r: Request)
    requires forall e :: e in engines ==> e.lossy
    ensures Protected(s, Render(RunAll(s, engines, r).0)) <= Protected(s, Render(r))
  {
    hide Render, Protected;
    if engines != [] {
      assert engines[0] in engines;
      LossyAddsNone(s, engines[1..], Step(s, engines[0], r).0);
    }
  }

  /** A report starts where the one before it ended; the first starts at the request, the last ends at the result. */
  ghost predicate Telescopes(s: Setup, from: string, reports: seq<Report>, to: string) {
    && (reports == [] ==> from == to)
    && (reports != [] ==>
          && reports[0].before == |from| && reports[0].beforeTokens == s.count(from)
          && reports[|reports| - 1].after == |to| && reports[|reports| - 1].afterTokens == s.count(to))
    && (forall i :: 0 <= i < |reports| - 1 ==> reports[i].after == reports[i + 1].before && reports[i].afterTokens == reports[i + 1].beforeTokens)
    && (forall i :: 0 <= i < |reports| ==>
          && (reports[i].verdict == Applied <==> reports[i].after < reports[i].before)
          && (reports[i].verdict != Applied ==> reports[i].after == reports[i].before && reports[i].afterTokens == reports[i].beforeTokens))
  }

  lemma {:induction false} ReportsTelescope(s: Setup, engines: seq<Engine>, r: Request)
    ensures var (last, reports) := RunAll(s, engines, r);
      && |reports| == |engines|
      && Telescopes(s, Render(r), reports, Render(last))
      && |Render(last)| <= |Render(r)|
      && (last != r ==> |Render(last)| < |Render(r)|)
  {
    hide Render, Safe;
    if engines != [] {
      var (next, report) := Step(s, engines[0], r);
      ReportsTelescope(s, engines[1..], next);
      var (last, rest) := RunAll(s, engines[1..], next);
      var reports := [report] + rest;
      assert forall i :: 1 <= i < |reports| ==> reports[i] == rest[i - 1];
    }
  }

  // ---------------------------------------------------------------------------------------------
  // With a declared prefix

  /** The prefix covers as many messages as declared, clamped to those there are. */
  lemma PrefixIsClamped(r: Request)
    requires r.stableMessages.Some?
    ensures var k, declared := CachePrefixLength(r).value, r.stableMessages.value;
      && k <= |r.messages|
      && (k as real <= declared || k == 0)
      && (declared < (k + 1) as real || k == |r.messages|)
  {}

  /** What a provider caches on goes out exactly as it came in. */
  lemma PrefixIsUntouched(s: Setup, r: Request)
    requires CachePrefixLength(r).Some?
    ensures var k, sent := CachePrefixLength(r).value, Compressed(s, r).0;
      && k <= |sent.messages| && sent.messages[..k] == r.messages[..k]
      && sent.system == r.system && sent.tools == r.tools && sent.stableMessages == r.stableMessages && sent.carried == r.carried
  {}

  predicate NoSystem(r: Request) { r.system.None? || r.system.value == "" }

  /** An engine that, where it shrinks a request without a system prompt, adds none. */
  ghost predicate AddsNoSystem(e: Engine) {
    forall r: Request :: NoSystem(r) && |Render(e.compress(r))| < |Render(r)| ==> NoSystem(e.compress(r))
  }

  lemma {:induction false} NoSystemAppears(s: Setup, engines: seq<Engine>, r: Request)
    requires (forall e :: e in engines ==> AddsNoSystem(e)) && NoSystem(r)
    ensures NoSystem(RunAll(s, engines, r).0)
  {
    hide Render, NoSystem;
    if engines != [] {
      assert AddsNoSystem(engines[0]);
      NoSystemAppears(s, engines[1..], Step(s, engines[0], r).0);
    }
  }

  lemma SameText(a: Request, b: Request)
    requires a.messages == b.messages && NoSystem(a) && NoSystem(b)
    ensures Render(a) == Render(b)
  {}

  /** No protected value of what follows the prefix is lost, and its text does not grow. */
  ghost predicate KeepsTheRest(s: Setup, r: Request)
    requires CachePrefixLength(r).Some?
  {
    var k, sent := CachePrefixLength(r).value, Compressed(s, r).0;
    && Protected(s, Render(CompressibleRegion(r, k))) <= Protected(s, Render(CompressibleRegion(sent, k)))
    && |Render(CompressibleRegion(sent, k))| <= |Render(CompressibleRegion(r, k))|
  }

  lemma {:induction false} BareKeepsTheRest(s: Setup, r: Request)
    requires CachePrefixLength(r).Some? && forall e :: e in s.engines ==> !e.lossy
    requires NoSystem(RunAll(s, s.engines, CompressibleRegion(r, CachePrefixLength(r).value)).0)
    ensures KeepsTheRest(s, r)
  {
    hide Render, Protected, RunAll;
    var k, sent := CachePrefixLength(r).value, Compressed(s, r).0;
    var region := CompressibleRegion(r, k);
    var last := RunAll(s, s.engines, region).0;
    LosslessKeeps(s, s.engines, region);
    ReportsTelescope(s, s.engines, region);
    assert CompressibleRegion(sent, k).messages == last.messages;
    SameText(CompressibleRegion(sent, k), last);
  }

  /** With a prefix, lossless engines that add no system prompt lose no protected value of what follows it. */
  lemma LosslessKeepsTheRest(s: Setup, r: Request)
    requires CachePrefixLength(r).Some? && forall e :: e in s.engines ==> !e.lossy && AddsNoSystem(e)
    ensures KeepsTheRest(s, r)
  {
    hide Render, Protected, RunAll, AddsNoSystem, KeepsTheRest;
    NoSystemAppears(s, s.engines, CompressibleRegion(r, CachePrefixLength(r).value));
    BareKeepsTheRest(s, r);
  }

  lemma SystemIsLonger(r: Request)
    requires !NoSystem(r)
    ensures |Render(r)| > |JoinLines(MessageTexts(r.messages))|
  {
    var texts := MessageTexts(r.messages);
    assert ([r.system.value] + texts)[1..] == texts;
  }

  /** An engine that adds no system prompt to the only requests it is given behind a prefix, where it shrinks them. */
  ghost predicate LeavesRegionsBare(e: Engine) {
    forall messages, carried :: BareAt(e, messages, carried)
  }

  ghost predicate BareAt(e: Engine, messages: seq<Message>, carried: string) {
    var region := Request(None, None, messages, None, carried);
    |Render(e.compress(region))| < |Render(region)| ==> NoSystem(e.compress(region))
  }

  /** With one lossless engine nothing protected is ever lost behind a prefix exactly when it adds no system prompt there. */
  lemma OneEngineKeepsTheRestIff(e: Engine)
    requires !e.lossy
    ensures LeavesRegionsBare(e) <==>
      forall s: Setup, r: Request :: s.engines == [e] && CachePrefixLength(r).Some? ==> KeepsTheRest(s, r)
  {
    hide Render, Protected, RunAll, KeepsTheRest, BareAt;
    if LeavesRegionsBare(e) {
      forall s: Setup, r: Request | s.engines == [e] && CachePrefixLength(r).Some? ensures KeepsTheRest(s, r) {
        var region := CompressibleRegion(r, CachePrefixLength(r).value);
        assert BareAt(e, region.messages, r.carried);
        OneEngineStaysBare(s, e, region);
        BareKeepsTheRest(s, r);
      }
    } else {
      var messages, carried :| !BareAt(e, messages, carried);
      NotBare(e, messages, carried);
      var s, r := AnAddedSystemLoses(e, messages, carried);
      assert !KeepsTheRest(s, r);
    }
  }

  lemma NotBare(e: Engine, messages: seq<Message>, carried: string)
    requires !BareAt(e, messages, carried)
    ensures var region := Request(None, None, messages, None, carried);
      |Render(e.compress(region))| < |Render(region)| && !NoSystem(e.compress(region))
  {}

  lemma OneEngineStaysBare(s: Setup, e: Engine, region: Request)
    requires s.engines == [e] && region == Request(None, None, region.messages, None, region.carried)
    requires BareAt(e, region.messages, region.carried)
    ensures NoSystem(RunAll(s, s.engines, region).0)
  {
    hide Render, Safe;
    assert s.engines[1..] == [];
    assert RunAll(s, s.engines, region).0 == Step(s, e, region).0;
  }

  /** Wherever an engine adds a system prompt, some protected value is lost behind the gate. */
  lemma AnAddedSystemLoses(e: Engine, messages: seq<Message>, carried: string) returns (s: Setup, r: Request)
    requires var region := Request(None, None, messages, None, carried);
      !e.lossy && |Render(e.compress(region))| < |Render(region)| && !NoSystem(e.compress(region))
    ensures s.engines == [e] && CachePrefixLength(r) == Some(0) && CompressibleRegion(r, 0) == Request(None, None, messages, None, carried)
    ensures !KeepsTheRest(s, r)
  {
    hide Render, MessageTexts;
    var region := Request(None, None, messages, None, carried);
    var after := e.compress(region);
    var lost := JoinLines(MessageTexts(after.messages));
    s := Setup([e], (text: string) => if text == lost then [] else ["x"], (text: string) => |text|);
    r := region.(stableMessages := Some(0.0));
    assert r.messages[0..] == messages && r.messages[..0] == [];
    SystemIsLonger(after);
    assert StepVerdict(s, e, region) == Applied;
    assert s.engines[1..] == [];
    assert RunAll(s, s.engines, region).0 == after;
    var sent := Compressed(s, r).0;
    assert sent.messages == after.messages;
    assert sent.messages[0..] == sent.messages;
    assert Render(CompressibleRegion(sent, 0)) == lost by { NoSystemText(CompressibleRegion(sent, 0)); }
    assert "x" in Protected(s, Render(region));
  }

  lemma NoSystemText(r: Request)
    requires NoSystem(r)
    ensures Render(r) == JoinLines(MessageTexts(r.messages))
  {
    assert [] + MessageTexts(r.messages) == MessageTexts(r.messages);
  }

  /** There are such engines. */
  function Hider(): Engine {
    Engine("hider", false, (r: Request) => Request(Some("7"), None, [], None, r.carried))
  }

  function SevenIsProtected(text: string): seq<string> { if '7' in text then ["7"] else [] }

  lemma AHiddenValueIsLost()
    ensures var s := Setup([Hider()], SevenIsProtected, (text: string) => |text|);
      var r := Request(None, None, [Message("user", [Part("7 of them")])], Some(0.0), "");
      && CachePrefixLength(r) == Some(0) && !Hider().lossy
      && Protected(s, Render(CompressibleRegion(r, 0))) == multiset{"7"}
      && Protected(s, Render(CompressibleRegion(Compressed(s, r).0, 0))) == multiset{}
  {
    var s := Setup([Hider()], SevenIsProtected, (text: string) => |text|);
    var r := Request(None, None, [Message("user", [Part("7 of them")])], Some(0.0), "");
    var region := CompressibleRegion(r, 0);
    assert region.messages == r.messages;
    OneText(r.messages[0]);
    assert MessageTexts(r.messages) == ["7 of them"];
    assert [] + ["7 of them"] == ["7 of them"];
    assert Render(region) == "7 of them";
    assert "7 of them"[0] == '7';
    var hidden := Hider().compress(region);
    assert Render(hidden) == "7" by { assert ["7"] + [] == ["7"]; }
    assert "7"[0] == '7';
    assert StepVerdict(s, Hider(), region) == Applied;
    assert Step(s, Hider(), region).0 == hidden;
    assert s.engines[1..] == [];
    assert RunAll(s, s.engines, region).0 == hidden;
    var sent := Compressed(s, r).0;
    assert sent.messages == [];
    assert Render(CompressibleRegion(sent, 0)) == "";
  }

  lemma OneText(m: Message)
    requires |m.content| == 1
    ensures MessageTexts([m]) == [m.content[0].text]
  {
    assert m.content[1..] == [] && [m][1..] == [];
    assert Texts(m.content) == [m.content[0].text] + Texts([]);
    assert MessageTexts([m]) == Texts(m.content) + MessageTexts([]);
  }
}
