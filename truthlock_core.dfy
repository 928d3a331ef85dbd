/**
 * The text-governance evaluator of truthlock/core.py: scan text for
 * fabrication pressure, risk domains and unsourced FACT lines, collect one
 * signal per finding, and reduce the signals to ALLOW, FLAG or HALT.
 */
module TruthlockCore {
  import opened TextMatch

  datatype Code = FabricationPressure | RiskDomain | UnsourcedFact

  datatype Severity = High | Med

  /** The third key of a signal: the pattern matched, the risk domain, or the 1-based line. */
  datatype Detail = PatternText(pattern: string) | DomainTag(domain: string) | LineNumber(line: nat)

  datatype Signal = Signal(code: Code, severity: Severity, detail: Detail)

  datatype Outcome = Allow | Flag | Halt

  datatype Decision = Decision(
    schema: string,
    tool: string,
    version: string,
    createdUtc: int,
    decision: Outcome,
    reason: string,
    signals: seq<Signal>)

  const DecisionSchema := "truthlock.decision.v1"

  const HaltReason := "Fabrication pressure detected."
  const FlagReason := "Governance signals detected."
  const AllowReason := "No blocking signals detected."

  /** FABRICATION_PATTERNS, each with the phrases its `\b...\b` expression accepts. */
  const FabricationPatterns: seq<Pattern> := [
    Pattern("\\bmake up\\b", ["make up"]),
    Pattern("\\bpretend\\b", ["pretend"]),
    Pattern("\\bfake sources?\\b", ["fake source", "fake sources"]),
    Pattern("\\bfabricate\\b", ["fabricate"]),
    Pattern("\\binvent\\b", ["invent"]),
    Pattern("\\bmake it look real\\b", ["make it look real"])
  ]

  datatype RiskPattern = RiskPattern(pattern: Pattern, domain: string)

  /** RISK_PATTERNS: one expression per domain. */
  const RiskPatterns: seq<RiskPattern> := [
    RiskPattern(Pattern("\\bmedical\\b|\\bdiagnos(e|is)\\b|\\btreatment\\b",
                        ["medical", "diagnose", "diagnosis", "treatment"]), "MEDICAL"),
    RiskPattern(Pattern("\\blegal\\b|\\blawsuit\\b|\\bsue\\b|\\bcontract\\b",
                        ["legal", "lawsuit", "sue", "contract"]), "LEGAL"),
    RiskPattern(Pattern("\\binvestment\\b|\\bstocks?\\b|\\bcrypto\\b|\\bfinancial advice\\b",
                        ["investment", "stock", "stocks", "crypto", "financial advice"]), "FINANCE")
  ]

  function FabricationSignal(p: Pattern): Signal {
    Signal(FabricationPressure, High, PatternText(p.regex))
  }

  function RiskSignal(rp: RiskPattern): Signal {
    Signal(RiskDomain, Med, DomainTag(rp.domain))
  }

  function UnsourcedSignal(n: nat): Signal {
    Signal(UnsourcedFact, High, LineNumber(n))
  }

  /** The first loop of evaluate_text: one signal per matching pattern, in table order. */
  function FabricationSignals(pats: seq<Pattern>, text: string): (r: seq<Signal>)
    ensures |r| <= |pats|
    ensures forall s :: s in r ==> exists k :: 0 <= k < |pats| && Matches(pats[k], text) && s == FabricationSignal(pats[k])
    ensures forall k :: 0 <= k < |pats| && Matches(pats[k], text) ==> FabricationSignal(pats[k]) in r
  {
    if pats == [] then []
    else
      var init := pats[..|pats| - 1];
      var last := pats[|pats| - 1];
      assert forall k :: 0 <= k < |init| ==> init[k] == pats[k];
      FabricationSignals(init, text) + (if Matches(last, text) then [FabricationSignal(last)] else [])
  }

  /** The second loop: one signal per matching risk domain, in table order. */
  function RiskSignals(rps: seq<RiskPattern>, text: string): (r: seq<Signal>)
    ensures |r| <= |rps|
    ensures forall s :: s in r ==> exists k :: 0 <= k < |rps| && Matches(rps[k].pattern, text) && s == RiskSignal(rps[k])
    ensures forall k :: 0 <= k < |rps| && Matches(rps[k].pattern, text) ==> RiskSignal(rps[k]) in r
  {
    if rps == [] then []
    else
      var init := rps[..|rps| - 1];
      var last := rps[|rps| - 1];
      assert forall k :: 0 <= k < |init| ==> init[k] == rps[k];
      RiskSignals(init, text) + (if Matches(last.pattern, text) then [RiskSignal(last)] else [])
  }

  /** The per-line rule: a FACT line without a source tag. */
  predicate Unsourced(line: string) {
    IsFactLine(line) && !SourceTag(line)
  }

  /** The third loop: one signal per unsourced FACT line, numbered from 1, in line order. */
  function UnsourcedSignals(lines: seq<string>): (r: seq<Signal>)
    ensures |r| <= |lines|
    ensures forall s :: s in r ==> exists n :: 1 <= n <= |lines| && Unsourced(lines[n - 1]) && s == UnsourcedSignal(n)
    ensures forall n :: 1 <= n <= |lines| && Unsourced(lines[n - 1]) ==> UnsourcedSignal(n) in r
  {
    if lines == [] then []
    else
      var init := lines[..|lines| - 1];
      var n := |lines|;
      assert forall k :: 0 <= k < |init| ==> init[k] == lines[k];
      UnsourcedSignals(init) + (if Unsourced(lines[n - 1]) then [UnsourcedSignal(n)] else [])
  }

  /** All signals of `text`: fabrication, then risk, then unsourced facts. */
  function Signals(text: string): seq<Signal> {
    FabricationSignals(FabricationPatterns, text)
    + RiskSignals(RiskPatterns, text)
    + UnsourcedSignals(Lines(text))
  }

  predicate HasCode(signals: seq<Signal>, c: Code) {
    exists i :: 0 <= i < |signals| && signals[i].code == c
  }

  /** The fixed-priority reduction: fabrication halts, other signals flag, none allows. */
  function Reduce(signals: seq<Signal>): Outcome {
    if HasCode(signals, FabricationPressure) then Halt
    else if HasCode(signals, UnsourcedFact) || HasCode(signals, RiskDomain) then Flag
    else Allow
  }

  function ReasonFor(o: Outcome): string {
    match o
    case Halt => HaltReason
    case Flag => FlagReason
    case Allow => AllowReason
  }

  /** evaluate_text as a value; `now` stands for `int(time.time())`. */
  function Evaluate(text: string, tool: string, version: string, now: int): (d: Decision)
    ensures d.schema == "truthlock.decision.v1" && d.tool == tool && d.version == version && d.createdUtc == now
  {
    var signals := Signals(text);
    var o := Reduce(signals);
    Decision(DecisionSchema, tool, version, now, o, ReasonFor(o), signals)
  }

  /** The first loop of evaluate_text, over the fabrication table `pats`. */
  method ScanFabrication(pats: seq<Pattern>, text: string) returns (signals: seq<Signal>)
    ensures signals == FabricationSignals(pats, text)
  {
    signals := [];
    for k := 0 to |pats|
      invariant signals == FabricationSignals(pats[..k], text)
    {
      assert pats[..k + 1][..k] == pats[..k];
      if Matches(pats[k], text) {
        signals := signals + [FabricationSignal(pats[k])];
      }
    }
    assert pats[..|pats|] == pats;
  }

  /** The second loop, over the risk table `rps`. */
  method ScanRisk(rps: seq<RiskPattern>, text: string) returns (signals: seq<Signal>)
    ensures signals == RiskSignals(rps, text)
  {
    signals := [];
    for k := 0 to |rps|
      invariant signals == RiskSignals(rps[..k], text)
    {
      assert rps[..k + 1][..k] == rps[..k];
      if Matches(rps[k].pattern, text) {
        signals := signals + [RiskSignal(rps[k])];
      }
    }
    assert rps[..|rps|] == rps;
  }

  /** The third loop, over the lines numbered from 1. */
  method ScanLines(lines: seq<string>) returns (signals: seq<Signal>)
    ensures signals == UnsourcedSignals(lines)
  {
    signals := [];
    for i := 0 to |lines|
      invariant signals == UnsourcedSignals(lines[..i])
    {
      assert lines[..i + 1][..i] == lines[..i];
      if IsFactLine(lines[i]) && !SourceTag(lines[i]) {
        signals := signals + [UnsourcedSignal(i + 1)];
      }
    }
    assert lines[..|lines|] == lines;
  }

  /** evaluate_text: the three scans append to one signal list, then the outcome is reduced from it. */
  method EvaluateText(text: string, tool: string, version: string, now: int) returns (d: Decision)
    ensures d == Evaluate(text, tool, version, now)
  {
    var lines := Lines(text);
    var signals := ScanFabrication(FabricationPatterns, text);
    var risk := ScanRisk(RiskPatterns, text);
    signals := signals + risk;
    var unsourced := ScanLines(lines);
    signals := signals + unsourced;
    var o := Reduce(signals);
    d := Decision(DecisionSchema, tool, version, now, o, ReasonFor(o), signals);
  }

  // ---------------------------------------------------------------------------
  // Properties of the evaluator

  predicate FabricationFound(text: string) {
    exists k :: 0 <= k < |FabricationPatterns| && Matches(FabricationPatterns[k], text)
  }

  predicate RiskFound(text: string) {
    exists k :: 0 <= k < |RiskPatterns| && Matches(RiskPatterns[k].pattern, text)
  }

  predicate UnsourcedFound(text: string) {
    var lines := Lines(text);
    exists i :: 0 <= i < |lines| && Unsourced(lines[i])
  }

  /** `any` over two lists joined. */
  lemma HasCodeConcat(a: seq<Signal>, b: seq<Signal>, c: Code)
    ensures HasCode(a + b, c) <==> HasCode(a, c) || HasCode(b, c)
  {
    if HasCode(a, c) {
      var i :| 0 <= i < |a| && a[i].code == c;
      assert (a + b)[i] == a[i];
    }
    if HasCode(b, c) {
      var i :| 0 <= i < |b| && b[i].code == c;
      assert (a + b)[|a| + i] == b[i];
    }
    if HasCode(a + b, c) {
      var i :| 0 <= i < |a + b| && (a + b)[i].code == c;
      if i < |a| {
        assert a[i] == (a + b)[i];
      } else {
        assert b[i - |a|] == (a + b)[i];
      }
    }
  }

  /** A list whose signals all carry code c has c exactly when it is non-empty, and no other code. */
  lemma HasCodeUniform(s: seq<Signal>, c: Code, other: Code)
    requires forall x :: x in s ==> x.code == c
    requires other != c
    ensures HasCode(s, c) <==> s != []
    ensures !HasCode(s, other)
  {
    if s != [] {
      assert s[0] in s;
    }
  }

  /** The fabrication group holds only FABRICATION_PRESSURE and is empty exactly when no pattern matches. */
  lemma FabricationGroup(pats: seq<Pattern>, text: string)
    ensures var f := FabricationSignals(pats, text);
      && (f == [] <==> !exists k :: 0 <= k < |pats| && Matches(pats[k], text))
      && (HasCode(f, FabricationPressure) <==> f != [])
      && !HasCode(f, RiskDomain) && !HasCode(f, UnsourcedFact)
  {
    var f := FabricationSignals(pats, text);
    HasCodeUniform(f, FabricationPressure, RiskDomain);
    HasCodeUniform(f, FabricationPressure, UnsourcedFact);
    if f != [] { assert f[0] in f; }
  }

  /** The risk group holds only RISK_DOMAIN and is empty exactly when no domain matches. */
  lemma RiskGroup(rps: seq<RiskPattern>, text: string)
    ensures var r := RiskSignals(rps, text);
      && (r == [] <==> !exists k :: 0 <= k < |rps| && Matches(rps[k].pattern, text))
      && (HasCode(r, RiskDomain) <==> r != [])
      && !HasCode(r, FabricationPressure) && !HasCode(r, UnsourcedFact)
  {
    var r := RiskSignals(rps, text);
    HasCodeUniform(r, RiskDomain, FabricationPressure);
    HasCodeUniform(r, RiskDomain, UnsourcedFact);
    if r != [] { assert r[0] in r; }
  }

  /** The line group holds only UNSOURCED_FACT and is empty exactly when no line is an unsourced FACT line. */
  lemma UnsourcedGroup(lines: seq<string>)
    ensures var u := UnsourcedSignals(lines);
      && (u == [] <==> !exists i :: 0 <= i < |lines| && Unsourced(lines[i]))
      && (HasCode(u, UnsourcedFact) <==> u != [])
      && !HasCode(u, FabricationPressure) && !HasCode(u, RiskDomain)
  {
    var u := UnsourcedSignals(lines);
    HasCodeUniform(u, UnsourcedFact, FabricationPressure);
    HasCodeUniform(u, UnsourcedFact, RiskDomain);
    if u != [] { assert u[0] in u; }
    if i :| 0 <= i < |lines| && Unsourced(lines[i]) {
      assert UnsourcedSignal(i + 1) in u;
    }
  }

  /** Each code is present in the signals exactly when its rule fired. */
  lemma SignalCodes(text: string)
    ensures HasCode(Signals(text), FabricationPressure) <==> FabricationFound(text)
    ensures HasCode(Signals(text), RiskDomain) <==> RiskFound(text)
    ensures HasCode(Signals(text), UnsourcedFact) <==> UnsourcedFound(text)
  {
    var f := FabricationSignals(FabricationPatterns, text);
    var r := RiskSignals(RiskPatterns, text);
    var u := UnsourcedSignals(Lines(text));
    FabricationGroup(FabricationPatterns, text);
    RiskGroup(RiskPatterns, text);
    UnsourcedGroup(Lines(text));
    forall c ensures HasCode(Signals(text), c) <==> HasCode(f, c) || HasCode(r, c) || HasCode(u, c) {
      HasCodeConcat(f, r, c);
      HasCodeConcat(f + r, u, c);
    }
  }

  /** Fabrication pressure halts, whatever else was found. */
  lemma EvaluateHalts(text: string, tool: string, version: string, now: int)
    ensures Evaluate(text, tool, version, now).decision == Halt <==> FabricationFound(text)
    ensures FabricationFound(text) ==> Evaluate(text, tool, version, now).reason == "Fabrication pressure detected."
  {
    SignalCodes(text);
  }

  /** Without fabrication pressure, a risk domain or an unsourced FACT line flags. */
  lemma EvaluateFlags(text: string, tool: string, version: string, now: int)
    ensures Evaluate(text, tool, version, now).decision == Flag
            <==> !FabricationFound(text) && (RiskFound(text) || UnsourcedFound(text))
    ensures Evaluate(text, tool, version, now).decision == Flag
            ==> Evaluate(text, tool, version, now).reason == "Governance signals detected."
  {
    SignalCodes(text);
  }

  /** ALLOW is exactly the outcome of an empty signal list: every signal blocks. */
  lemma {:induction false} ReduceAllowsOnlyEmpty(signals: seq<Signal>)
    ensures Reduce(signals) == Allow <==> signals == []
  {
    if signals != [] {
      assert HasCode(signals, signals[0].code);
    }
  }

  /** Text that triggers no rule is allowed with no signals, and nothing else is allowed. */
  lemma EvaluateAllows(text: string, tool: string, version: string, now: int)
    ensures Evaluate(text, tool, version, now).decision == Allow
            <==> Evaluate(text, tool, version, now).signals == []
    ensures Evaluate(text, tool, version, now).decision == Allow
            <==> !FabricationFound(text) && !RiskFound(text) && !UnsourcedFound(text)
    ensures Evaluate(text, tool, version, now).decision == Allow
            ==> Evaluate(text, tool, version, now).reason == "No blocking signals detected."
  {
    SignalCodes(text);
    ReduceAllowsOnlyEmpty(Signals(text));
  }

  lemma HasCodeOfMultiset(s1: seq<Signal>, s2: seq<Signal>, c: Code)
    requires multiset(s1) <= multiset(s2)
    requires HasCode(s1, c)
    ensures HasCode(s2, c)
  {
    var i :| 0 <= i < |s1| && s1[i].code == c;
    assert s1[i] in multiset(s1);
    assert s1[i] in s2;
    var j :| 0 <= j < |s2| && s2[j] == s1[i];
  }

  /** The outcome depends only on which signals there are, not on their order. */
  lemma ReduceOrderIndependent(s1: seq<Signal>, s2: seq<Signal>)
    requires multiset(s1) == multiset(s2)
    ensures Reduce(s1) == Reduce(s2)
  {
    forall c ensures HasCode(s1, c) <==> HasCode(s2, c) {
      if HasCode(s1, c) { HasCodeOfMultiset(s1, s2, c); }
      if HasCode(s2, c) { HasCodeOfMultiset(s2, s1, c); }
    }
  }

  function Count(signals: seq<Signal>, c: Code): nat {
    if signals == [] then 0
    else Count(signals[..|signals| - 1], c) + (if signals[|signals| - 1].code == c then 1 else 0)
  }

  lemma {:induction false} CountConcat(a: seq<Signal>, b: seq<Signal>, c: Code)
    ensures Count(a + b, c) == Count(a, c) + Count(b, c)
    decreases |b|
  {
    if b != [] {
      assert (a + b)[..|a + b| - 1] == a + b[..|b| - 1];
      CountConcat(a, b[..|b| - 1], c);
    } else {
      assert a + b == a;
    }
  }

  lemma {:induction false} CountBound(s: seq<Signal>, c: Code)
    ensures Count(s, c) <= |s|
    ensures (forall x :: x in s ==> x.code != c) ==> Count(s, c) == 0
  {
    if s != [] {
      CountBound(s[..|s| - 1], c);
      assert forall x :: x in s[..|s| - 1] ==> x in s;
      assert s[|s| - 1] in s;
    }
  }

  /** One signal per pattern and per domain at most: no more than 6 fabrication and 3 risk signals. */
  lemma SignalCounts(text: string)
    ensures Count(Signals(text), FabricationPressure) <= 6
    ensures Count(Signals(text), RiskDomain) <= 3
    ensures Count(Signals(text), UnsourcedFact) <= |Lines(text)|
  {
    var f := FabricationSignals(FabricationPatterns, text);
    var r := RiskSignals(RiskPatterns, text);
    var u := UnsourcedSignals(Lines(text));
    forall c ensures Count(Signals(text), c) == Count(f, c) + Count(r, c) + Count(u, c) {
      CountConcat(f, r, c);
      CountConcat(f + r, u, c);
    }
    CountBound(f, FabricationPressure);
    CountBound(r, FabricationPressure);
    CountBound(u, FabricationPressure);
    CountBound(f, RiskDomain);
    CountBound(r, RiskDomain);
    CountBound(u, RiskDomain);
    CountBound(f, UnsourcedFact);
    CountBound(r, UnsourcedFact);
    CountBound(u, UnsourcedFact);
  }

  function Rank(c: Code): nat {
    match c
    case FabricationPressure => 0
    case RiskDomain => 1
    case UnsourcedFact => 2
  }

  function SeverityOf(c: Code): Severity {
    if c == RiskDomain then Med else High
  }

  /**
   * The signal list is grouped (fabrication, then risk, then unsourced facts)
   * and each signal's severity is the one fixed for its code.
   */
  lemma SignalsLayout(text: string)
    ensures forall i, j :: 0 <= i <= j < |Signals(text)| ==> Rank(Signals(text)[i].code) <= Rank(Signals(text)[j].code)
    ensures forall s :: s in Signals(text) ==> s.severity == SeverityOf(s.code)
  {
    var f := FabricationSignals(FabricationPatterns, text);
    var r := RiskSignals(RiskPatterns, text);
    var u := UnsourcedSignals(Lines(text));
    var all := Signals(text);
    forall i | 0 <= i < |all|
      ensures Rank(all[i].code) == (if i < |f| then 0 else if i < |f| + |r| then 1 else 2)
      ensures all[i].severity == SeverityOf(all[i].code)
    {
      if i < |f| {
        assert all[i] == f[i] && f[i] in f;
      } else if i < |f| + |r| {
        assert all[i] == r[i - |f|] && r[i - |f|] in r;
      } else {
        assert all[i] == u[i - |f| - |r|] && u[i - |f| - |r|] in u;
      }
    }
  }

  /** Signals that all name lines, in strictly increasing line order. */
  predicate LineOrdered(r: seq<Signal>) {
    forall i, j :: 0 <= i < j < |r| ==>
      r[i].detail.LineNumber? && r[j].detail.LineNumber? && r[i].detail.line < r[j].detail.line
  }

  /** Unsourced-fact signals come in strictly increasing line order. */
  lemma {:induction false} UnsourcedOrdered(lines: seq<string>)
    ensures LineOrdered(UnsourcedSignals(lines))
  {
    if lines != [] {
      var init := lines[..|lines| - 1];
      var n := |lines|;
      UnsourcedOrdered(init);
      var r0 := UnsourcedSignals(init);
      if Unsourced(lines[n - 1]) {
        var r := r0 + [UnsourcedSignal(n)];
        assert UnsourcedSignals(lines) == r;
        forall i, j | 0 <= i < j < |r|
          ensures r[i].detail.LineNumber? && r[j].detail.LineNumber? && r[i].detail.line < r[j].detail.line
        {
          assert r[i] == r0[i] && r0[i] in r0;
          if j < |r0| {
            assert r[j] == r0[j];
          }
        }
      } else {
        assert UnsourcedSignals(lines) == r0;
      }
    }
  }

  /** No signal appears twice. */
  predicate NoDuplicates(r: seq<Signal>) {
    forall i, j :: 0 <= i < j < |r| ==> r[i] != r[j]
  }

  /** Appending a signal not yet present keeps a list free of duplicates. */
  lemma AppendFresh(r: seq<Signal>, s: Signal)
    requires NoDuplicates(r) && s !in r
    ensures NoDuplicates(r + [s])
  {
    var r' := r + [s];
    forall i, j | 0 <= i < j < |r'|
      ensures r'[i] != r'[j]
    {
      assert r'[i] == r[i] && r[i] in r;
      if j < |r| {
        assert r'[j] == r[j];
      }
    }
  }

  /** One `re.search` per pattern: with distinct expressions, a pattern's signal appears at most once. */
  lemma {:induction false} FabricationSignalsDistinct(pats: seq<Pattern>, text: string)
    requires forall i, j :: 0 <= i < j < |pats| ==> pats[i].regex != pats[j].regex
    ensures NoDuplicates(FabricationSignals(pats, text))
  {
    if pats != [] {
      var init := pats[..|pats| - 1];
      var last := pats[|pats| - 1];
      FabricationSignalsDistinct(init, text);
      var r0 := FabricationSignals(init, text);
      if Matches(last, text) {
        forall k | 0 <= k < |init|
          ensures FabricationSignal(init[k]) != FabricationSignal(last)
        {
          assert init[k] == pats[k];
        }
        AppendFresh(r0, FabricationSignal(last));
        assert FabricationSignals(pats, text) == r0 + [FabricationSignal(last)];
      } else {
        assert FabricationSignals(pats, text) == r0;
      }
    }
  }

  /** One `re.search` per domain: with distinct domains, a domain's signal appears at most once. */
  lemma {:induction false} RiskSignalsDistinct(rps: seq<RiskPattern>, text: string)
    requires forall i, j :: 0 <= i < j < |rps| ==> rps[i].domain != rps[j].domain
    ensures NoDuplicates(RiskSignals(rps, text))
  {
    if rps != [] {
      var init := rps[..|rps| - 1];
      var last := rps[|rps| - 1];
      RiskSignalsDistinct(init, text);
      var r0 := RiskSignals(init, text);
      if Matches(last.pattern, text) {
        forall k | 0 <= k < |init|
          ensures RiskSignal(init[k]) != RiskSignal(last)
        {
          assert init[k] == rps[k];
        }
        AppendFresh(r0, RiskSignal(last));
        assert RiskSignals(rps, text) == r0 + [RiskSignal(last)];
      } else {
        assert RiskSignals(rps, text) == r0;
      }
    }
  }

  /** The two tables name each expression and each domain once, so no fabrication or risk signal repeats. */
  lemma TableSignalsDistinct(text: string)
    ensures NoDuplicates(FabricationSignals(FabricationPatterns, text))
    ensures NoDuplicates(RiskSignals(RiskPatterns, text))
  {
    FabricationSignalsDistinct(FabricationPatterns, text);
    RiskSignalsDistinct(RiskPatterns, text);
  }

  /** Line n carries an UNSOURCED_FACT signal exactly when it is a FACT line without a source tag. */
  lemma UnsourcedSignalFor(text: string, n: nat)
    ensures UnsourcedSignal(n) in Signals(text)
            <==> 1 <= n <= |Lines(text)| && Unsourced(Lines(text)[n - 1])
  {
    var f := FabricationSignals(FabricationPatterns, text);
    var r := RiskSignals(RiskPatterns, text);
    var u := UnsourcedSignals(Lines(text));
    assert UnsourcedSignal(n) !in f;
    assert UnsourcedSignal(n) !in r;
  }

  /** Empty text raises no signal and is allowed. */
  lemma EvaluateEmpty(tool: string, version: string, now: int)
    ensures Evaluate("", tool, version, now).signals == []
    ensures Evaluate("", tool, version, now).decision == Allow
  {
    forall k | 0 <= k < |FabricationPatterns| ensures !Matches(FabricationPatterns[k], "") {
      NoMatchInEmpty(FabricationPatterns[k]);
    }
    forall k | 0 <= k < |RiskPatterns| ensures !Matches(RiskPatterns[k].pattern, "") {
      NoMatchInEmpty(RiskPatterns[k].pattern);
    }
    FabricationGroup(FabricationPatterns, "");
    RiskGroup(RiskPatterns, "");
  }

  /** An instruction to make something up halts the gate. */
  lemma HaltExample(tool: string, version: string, now: int)
    ensures Evaluate("please make up a source", tool, version, now).decision == Halt
  {
    var text := "please make up a source";
    var phrase := FabricationPatterns[0].phrases[0];
    assert phrase == "make up";
    assert text[7..14] == phrase;
    assert LowerStr(phrase) == phrase;
    assert PhraseAt(phrase, text, 7);
    assert Occurs(phrase, text, 0);
    assert Matches(FabricationPatterns[0], text);
    EvaluateHalts(text, tool, version, now);
  }

  const SkyFact := "FACT: the sky is blue\n"

  predicate Lacks(text: string, c: char) {
    forall i :: 0 <= i < |text| ==> Lower(text[i]) != c
  }

  /** Text without the letters m, p, o, n and r, in either case, holds none of the fabrication phrases. */
  lemma PhrasesAbsent(text: string)
    requires Lacks(text, 'm') && Lacks(text, 'p') && Lacks(text, 'o') && Lacks(text, 'n') && Lacks(text, 'r')
    ensures !Occurs("make up", text, 0) && !Occurs("pretend", text, 0)
    ensures !Occurs("fake source", text, 0) && !Occurs("fake sources", text, 0)
    ensures !Occurs("fabricate", text, 0) && !Occurs("invent", text, 0)
    ensures !Occurs("make it look real", text, 0)
  {
    AbsentLetter("make up", text, 0, 'm');
    AbsentLetter("pretend", text, 0, 'p');
    AbsentLetter("fake source", text, 6, 'o');
    AbsentLetter("fake sources", text, 6, 'o');
    AbsentLetter("fabricate", text, 3, 'r');
    AbsentLetter("invent", text, 1, 'n');
    AbsentLetter("make it look real", text, 0, 'm');
  }

  lemma SkyFactLacks(c: char)
    requires c == 'm' || c == 'p' || c == 'o' || c == 'n' || c == 'r'
    ensures Lacks(SkyFact, c)
  {
  }

  /** Text without the letters m, p, o, n and r matches no fabrication pattern. */
  lemma NoFabricationWithoutLetters(text: string)
    requires Lacks(text, 'm') && Lacks(text, 'p') && Lacks(text, 'o') && Lacks(text, 'n') && Lacks(text, 'r')
    ensures !FabricationFound(text)
  {
    PhrasesAbsent(text);
    forall k | 0 <= k < |FabricationPatterns| ensures !Matches(FabricationPatterns[k], text) {
      var phrases := FabricationPatterns[k].phrases;
      if k == 0 {
        assert phrases == ["make up"];
      } else if k == 1 {
        assert phrases == ["pretend"];
      } else if k == 2 {
        assert phrases == ["fake source", "fake sources"];
      } else if k == 3 {
        assert phrases == ["fabricate"];
      } else if k == 4 {
        assert phrases == ["invent"];
      } else {
        assert phrases == ["make it look real"];
      }
    }
  }

  /** A line that starts with "FACT:" is a FACT line. */
  lemma FactColonPrefix(line: string)
    requires |line| >= 5 && line[..5] == "FACT:"
    ensures IsFactLine(line)
  {
    assert !IsSpace(line[0]);
    assert SkipSpace(line, 0) == 0;
    assert line[0..4] == "FACT";
    assert LowerStr("FACT") == "fact";
    assert !IsSpace(line[4]);
    assert SkipSpace(line, 4) == 4;
  }

  lemma SkyFactUnsourced()
    ensures Unsourced("FACT: the sky is blue")
  {
    var line := "FACT: the sky is blue";
    assert line[..5] == "FACT:";
    FactColonPrefix(line);
    SourceTagNeedsBracket(line);
  }

  /** A FACT line without a source tag, and nothing else, flags the gate. */
  lemma FlagExample(tool: string, version: string, now: int)
    ensures Evaluate("FACT: the sky is blue\n", tool, version, now).decision == Flag
  {
    var line := "FACT: the sky is blue";
    var text := line + "\n";
    assert text == "FACT: the sky is blue\n";
    assert NoBreak(line);
    LinesOfTerminatedLine(line);
    SkyFactLacks('m');
    SkyFactLacks('p');
    SkyFactLacks('o');
    SkyFactLacks('n');
    SkyFactLacks('r');
    NoFabricationWithoutLetters(SkyFact);
    SkyFactUnsourced();
    assert Unsourced(Lines(text)[0]);
    EvaluateFlags(text, tool, version, now);
  }
}
