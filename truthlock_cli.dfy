/**
 * The three subcommands of truthlock/cli.py: `gate` evaluates a text file and
 * writes the decision (and optionally a proof of the input), `seal` writes a
 * proof of any file, and `run` gates, then copies the input or runs a command
 * on it, then seals the output, keeping its artifacts in one directory.
 */
module TruthlockCli {
  import opened Wrappers
  import opened Platform
  import opened TruthlockCore
  import opened IntegrityCore

  const ExitAllow := 0
  const ExitFlag := 3
  const ExitHalt := 4
  const ExitError := 1

  /** The word printed for a decision, as stored under "decision". */
  function OutcomeName(o: Outcome): string {
    match o
    case Allow => "ALLOW"
    case Flag => "FLAG"
    case Halt => "HALT"
  }

  /** The exit status `gate` returns for a decision. */
  function GateExit(o: Outcome): int {
    match o
    case Allow => ExitAllow
    case Flag => ExitFlag
    case Halt => ExitHalt
  }

  /** The decision `evaluate_text` reaches on the input file's text. */
  function Verdict(fs: map<Path, seq<byte>>, infile: Path, env: Env): Decision
    requires infile in fs
  {
    Evaluate(env.decodeText(fs[infile]), "truthlock", env.tlVersion, env.now)
  }

  /** What `subprocess.run` reports for a command that was started. */
  datatype Process = Process(returncode: int, stdout: seq<byte>, stderr: string)

  /** `--proof-out` is used only when it was given and is not empty. */
  predicate Given(p: Option<Path>) {
    p.Some? && p.value != ""
  }

  // ---------------------------------------------------------------------------
  // gate

  /** What gate writes and prints once the input's decision `d` is known. */
  function Decided(fs: map<Path, seq<byte>>, infile: Path, out: Path, proofOut: Option<Path>, d: Decision,
                   dumpDecision: Decision -> seq<byte>, env: Env): Effect
    requires infile in fs
  {
    var fs1 := fs[out := dumpDecision(d)];
    if Given(proofOut) then
      Effect(fs1[proofOut.value := ProofFile(fs1, infile, env)], [out, proofOut.value],
             [OutcomeName(d.decision)], [], GateExit(d.decision))
    else
      Effect(fs1, [out], [OutcomeName(d.decision)], [], GateExit(d.decision))
  }

  /** cmd_gate as a value. */
  function Gate(fs: map<Path, seq<byte>>, infile: Path, out: Path, proofOut: Option<Path>,
                dumpDecision: Decision -> seq<byte>, env: Env): Effect
  {
    if infile !in fs then
      Effect(fs, [], [], ["ERROR: input not found: " + infile], ExitError)
    else
      Decided(fs, infile, out, proofOut, Verdict(fs, infile, env), dumpDecision, env)
  }

  /** The writing half of cmd_gate: the decision, then the optional proof, then the decision word. */
  method WriteDecision(h: Host, infile: Path, out: Path, proofOut: Option<Path>, decision: Decision,
                       dumpDecision: Decision -> seq<byte>, env: Env) returns (exit: int)
    requires h.Valid() && infile in h.files
    modifies h
    ensures h.Valid()
    ensures var e := Decided(old(h.files), infile, out, proofOut, decision, dumpDecision, env);
      h.Reflects(e, old(h.written), old(h.stdout), old(h.stderr)) && exit == e.exit
  {
    h.WriteFile(out, dumpDecision(decision));
    if Given(proofOut) {
      var proof := MakeProof(h.files, infile, Tool, env.wsVersion, env);
      h.WriteFile(proofOut.value, env.dumpJson(proof.value.ToDict()));
    }
    h.Print(OutcomeName(decision.decision));
    exit := GateExit(decision.decision);
  }

  method CmdGate(h: Host, infile: Path, out: Path, proofOut: Option<Path>,
                 dumpDecision: Decision -> seq<byte>, env: Env) returns (exit: int)
    requires h.Valid()
    modifies h
    ensures h.Valid()
    ensures var e := Gate(old(h.files), infile, out, proofOut, dumpDecision, env);
      h.Reflects(e, old(h.written), old(h.stdout), old(h.stderr)) && exit == e.exit
  {
    if infile !in h.files {
      h.PrintErr("ERROR: input not found: " + infile);
      return ExitError;
    }
    var text := env.decodeText(h.files[infile]);
    var decision := EvaluateText(text, "truthlock", env.tlVersion, env.now);
    exit := WriteDecision(h, infile, out, proofOut, decision, dumpDecision, env);
  }

  // ---------------------------------------------------------------------------
  // seal

  /** cmd_seal as a value. */
  function Seal(fs: map<Path, seq<byte>>, file: Path, out: Path, env: Env): Effect {
    if file !in fs then
      Effect(fs, [], [], ["ERROR: file not found: " + file], ExitError)
    else
      Effect(fs[out := ProofFile(fs, file, env)], [out], ["SEALED"], [], 0)
  }

  method CmdSeal(h: Host, file: Path, out: Path, env: Env) returns (exit: int)
    requires h.Valid()
    modifies h
    ensures h.Valid()
    ensures var e := Seal(old(h.files), file, out, env);
      h.Reflects(e, old(h.written), old(h.stdout), old(h.stderr)) && exit == e.exit
  {
    if file !in h.files {
      h.PrintErr("ERROR: file not found: " + file);
      return ExitError;
    }
    var proof := MakeProof(h.files, file, Tool, env.wsVersion, env);
    h.WriteFile(out, env.dumpJson(proof.value.ToDict()));
    h.Print("SEALED");
    return 0;
  }

  // ---------------------------------------------------------------------------
  // run

  function DecisionPath(artifacts: Path): Path { Join(artifacts, "decision.json") }
  function InputProofPath(artifacts: Path): Path { Join(artifacts, "input.proof.json") }
  function OutputProofPath(artifacts: Path): Path { Join(artifacts, "output.proof.json") }

  /**
   * The file system once `run` has gated the input: the decision and the
   * input's proof are written, in that order, into the artifacts directory.
   */
  function Gated(fs: map<Path, seq<byte>>, infile: Path, artifacts: Path,
                 dumpDecision: Decision -> seq<byte>, env: Env): (fs2: map<Path, seq<byte>>)
    requires infile in fs
    ensures infile in fs2
  {
    var fs1 := fs[DecisionPath(artifacts) := dumpDecision(Verdict(fs, infile, env))];
    fs1[InputProofPath(artifacts) := ProofFile(fs1, infile, env)]
  }

  /** The end of a run that produced its output: seal the output and report the decision. */
  function Finish(fs: map<Path, seq<byte>>, outfile: Path, artifacts: Path, o: Outcome, env: Env): Effect
    requires outfile in fs
  {
    Effect(fs[OutputProofPath(artifacts) := ProofFile(fs, outfile, env)], [outfile, OutputProofPath(artifacts)],
           [OutcomeName(o)], [], if o == Allow then ExitAllow else ExitFlag)
  }

  /**
   * The part of a run after a gate that did not halt: produce the output by
   * copying the input or by running `cmd` on it, then seal the output.
   * `exec(cmd, stdin)` is what running the command on the given standard
   * input yields, `None` when it cannot be started. The output file is
   * opened for writing after the input is opened and before either is read,
   * so when both name the same file the input reads as empty.
   */
  function Produce(fs: map<Path, seq<byte>>, infile: Path, outfile: Path, artifacts: Path, o: Outcome,
                   cmd: seq<string>, exec: (seq<string>, seq<byte>) -> Option<Process>, env: Env): Effect
    requires infile in fs
  {
    var stdin := if outfile == infile then [] else fs[infile];
    if cmd == [] then
      Finish(fs[outfile := stdin], outfile, artifacts, o, env)
    else
      match exec(cmd, stdin)
      case None =>
        Effect(fs[outfile := []], [outfile], [], [Traceback], ExitError)
      case Some(proc) =>
        if proc.returncode != 0 then
          Effect(fs[outfile := proc.stdout], [outfile], [], [proc.stderr], ExitError)
        else
          Finish(fs[outfile := proc.stdout], outfile, artifacts, o, env)
  }

  /** cmd_run as a value. */
  function Run(fs: map<Path, seq<byte>>, infile: Path, outfile: Path, artifacts: Path, cmd: seq<string>,
               exec: (seq<string>, seq<byte>) -> Option<Process>,
               dumpDecision: Decision -> seq<byte>, env: Env): Effect
  {
    if infile !in fs then
      Effect(fs, [], [], ["ERROR: input not found: " + infile], ExitError)
    else
      var o := Verdict(fs, infile, env).decision;
      var fs2 := Gated(fs, infile, artifacts, dumpDecision, env);
      var gatedLog := [DecisionPath(artifacts), InputProofPath(artifacts)];
      if o == Halt then
        Effect(fs2, gatedLog, ["HALT"], [], ExitHalt)
      else
        var t := Produce(fs2, infile, outfile, artifacts, o, cmd, exec, env);
        Effect(t.files, gatedLog + t.written, t.stdout, t.stderr, t.exit)
  }

  /** The gating half of cmd_run: evaluate the input, write the decision, then seal the input. */
  method GateInput(h: Host, infile: Path, artifacts: Path, dumpDecision: Decision -> seq<byte>, env: Env)
    returns (decision: Decision)
    requires h.Valid() && infile in h.files
    modifies h
    ensures h.Valid()
    ensures decision == Verdict(old(h.files), infile, env)
    ensures h.files == Gated(old(h.files), infile, artifacts, dumpDecision, env)
    ensures h.written == old(h.written) + [DecisionPath(artifacts), InputProofPath(artifacts)]
    ensures h.stdout == old(h.stdout) && h.stderr == old(h.stderr)
  {
    var text := env.decodeText(h.files[infile]);
    decision := EvaluateText(text, "truthlock", env.tlVersion, env.now);
    h.WriteFile(DecisionPath(artifacts), dumpDecision(decision));
    var proof := MakeProof(h.files, infile, Tool, env.wsVersion, env);
    h.WriteFile(InputProofPath(artifacts), env.dumpJson(proof.value.ToDict()));
  }

  /** The producing half of cmd_run, once the gate did not halt. */
  method ProduceOutput(h: Host, infile: Path, outfile: Path, artifacts: Path, o: Outcome, cmd: seq<string>,
                       exec: (seq<string>, seq<byte>) -> Option<Process>, env: Env) returns (exit: int)
    requires h.Valid() && infile in h.files
    modifies h
    ensures h.Valid()
    ensures var e := Produce(old(h.files), infile, outfile, artifacts, o, cmd, exec, env);
      h.Reflects(e, old(h.written), old(h.stdout), old(h.stderr)) && exit == e.exit
  {
    if cmd != [] {
      var stdin := if outfile == infile then [] else h.files[infile];
      var started := exec(cmd, stdin);
      if started.None? {
        h.WriteFile(outfile, []);
        h.PrintErr(Traceback);
        return ExitError;
      }
      var proc := started.value;
      h.WriteFile(outfile, proc.stdout);
      if proc.returncode != 0 {
        h.PrintErr(proc.stderr);
        return ExitError;
      }
    } else {
      h.CopyFile(infile, outfile);
    }
    var sealed := MakeProof(h.files, outfile, Tool, env.wsVersion, env);
    h.WriteFile(OutputProofPath(artifacts), env.dumpJson(sealed.value.ToDict()));
    h.Print(OutcomeName(o));
    exit := if o == Allow then ExitAllow else ExitFlag;
  }

  method CmdRun(h: Host, infile: Path, outfile: Path, artifacts: Path, cmd: seq<string>,
                exec: (seq<string>, seq<byte>) -> Option<Process>,
                dumpDecision: Decision -> seq<byte>, env: Env) returns (exit: int)
    requires h.Valid()
    modifies h
    ensures h.Valid()
    ensures var e := Run(old(h.files), infile, outfile, artifacts, cmd, exec, dumpDecision, env);
      h.Reflects(e, old(h.written), old(h.stdout), old(h.stderr)) && exit == e.exit
  {
    if infile !in h.files {
      h.PrintErr("ERROR: input not found: " + infile);
      return ExitError;
    }
    var decision := GateInput(h, infile, artifacts, dumpDecision, env);
    if decision.decision == Halt {
      h.Print("HALT");
      return ExitHalt;
    }
    exit := ProduceOutput(h, infile, outfile, artifacts, decision.decision, cmd, exec, env);
  }

  // ---------------------------------------------------------------------------
  // Properties of the three subcommands

  /** The three artifact names give three different paths in any directory. */
  lemma ArtifactsDistinct(artifacts: Path)
    ensures DecisionPath(artifacts) != InputProofPath(artifacts)
    ensures DecisionPath(artifacts) != OutputProofPath(artifacts)
    ensures InputProofPath(artifacts) != OutputProofPath(artifacts)
  {
    JoinInjective(artifacts, "decision.json", "input.proof.json");
    JoinInjective(artifacts, "decision.json", "output.proof.json");
    JoinInjective(artifacts, "input.proof.json", "output.proof.json");
  }

  /**
   * gate exits 1 exactly when the input is missing; otherwise it prints the
   * decision and exits 4 on fabrication pressure, 3 on other signals and 0 on none.
   */
  lemma GateStatus(fs: map<Path, seq<byte>>, infile: Path, out: Path, proofOut: Option<Path>,
                   dumpDecision: Decision -> seq<byte>, env: Env)
    ensures var e := Gate(fs, infile, out, proofOut, dumpDecision, env);
      && (e.exit == ExitError <==> infile !in fs)
      && (infile !in fs ==> e.files == fs && e.written == [] && e.stdout == [])
      && (infile in fs ==>
            var text := env.decodeText(fs[infile]);
            && (e.exit == ExitHalt <==> FabricationFound(text))
            && (e.exit == ExitFlag <==> !FabricationFound(text) && (RiskFound(text) || UnsourcedFound(text)))
            && (e.exit == ExitAllow <==> !FabricationFound(text) && !RiskFound(text) && !UnsourcedFound(text))
            && e.stdout == [OutcomeName(Verdict(fs, infile, env).decision)] && e.stderr == [])
  {
    if infile in fs {
      var text := env.decodeText(fs[infile]);
      EvaluateHalts(text, "truthlock", env.tlVersion, env.now);
      EvaluateFlags(text, "truthlock", env.tlVersion, env.now);
      EvaluateAllows(text, "truthlock", env.tlVersion, env.now);
    }
  }

  /**
   * gate writes the decision to `out` and, when `--proof-out` is given, a
   * proof of the input to it; no other file changes.
   */
  lemma GateWrites(fs: map<Path, seq<byte>>, infile: Path, out: Path, proofOut: Option<Path>,
                   dumpDecision: Decision -> seq<byte>, env: Env)
    requires infile in fs
    ensures var e := Gate(fs, infile, out, proofOut, dumpDecision, env);
      && Frames(fs, e)
      && e.written == (if Given(proofOut) then [out, proofOut.value] else [out])
      && (!Given(proofOut) || proofOut.value != out ==> e.files[out] == dumpDecision(Verdict(fs, infile, env)))
  {
  }

  /** The proof gate writes seals the input as it was read, unless the decision was written over the input. */
  lemma GateSealsInput(fs: map<Path, seq<byte>>, infile: Path, out: Path, proofOut: Option<Path>,
                       dumpDecision: Decision -> seq<byte>, env: Env)
    requires infile in fs && Given(proofOut) && out != infile
    ensures Gate(fs, infile, out, proofOut, dumpDecision, env).files[proofOut.value] == ProofFile(fs, infile, env)
  {
  }

  /** seal writes a proof of an existing file and exits 0; a missing file exits 1 and writes nothing. */
  lemma SealWrites(fs: map<Path, seq<byte>>, file: Path, out: Path, env: Env)
    ensures var e := Seal(fs, file, out, env);
      && Frames(fs, e)
      && (e.exit == 0 <==> file in fs)
      && (file in fs ==> e.written == [out] && e.files[out] == ProofFile(fs, file, env) && e.stdout == ["SEALED"])
      && (file !in fs ==> e.exit == ExitError && e.written == [] && e.stdout == [])
  {
  }

  /** Producing the output writes the output file and possibly its proof, nothing else. */
  lemma ProduceFrames(fs: map<Path, seq<byte>>, infile: Path, outfile: Path, artifacts: Path, o: Outcome,
                      cmd: seq<string>, exec: (seq<string>, seq<byte>) -> Option<Process>, env: Env)
    requires infile in fs
    ensures var t := Produce(fs, infile, outfile, artifacts, o, cmd, exec, env);
      && Frames(fs, t)
      && (t.written == [outfile] || t.written == [outfile, OutputProofPath(artifacts)])
  {
  }

  /**
   * Producing the output either fails with status 1, or reports the decision
   * with its status and leaves a proof that seals the output as it is.
   */
  lemma ProduceReports(fs: map<Path, seq<byte>>, infile: Path, outfile: Path, artifacts: Path, o: Outcome,
                       cmd: seq<string>, exec: (seq<string>, seq<byte>) -> Option<Process>, env: Env)
    requires infile in fs
    ensures var t := Produce(fs, infile, outfile, artifacts, o, cmd, exec, env);
      t.exit != ExitError ==>
        && t.exit == (if o == Allow then ExitAllow else ExitFlag) && t.stdout == [OutcomeName(o)]
        && t.written == [outfile, OutputProofPath(artifacts)] && outfile in t.files
        && (outfile != OutputProofPath(artifacts) ==> t.files[OutputProofPath(artifacts)] == ProofFile(t.files, outfile, env))
  {
  }

  /** No file outside what a run wrote changes, and every path it wrote exists. */
  lemma RunFrames(fs: map<Path, seq<byte>>, infile: Path, outfile: Path, artifacts: Path, cmd: seq<string>,
                  exec: (seq<string>, seq<byte>) -> Option<Process>,
                  dumpDecision: Decision -> seq<byte>, env: Env)
    ensures Frames(fs, Run(fs, infile, outfile, artifacts, cmd, exec, dumpDecision, env))
  {
    if infile in fs {
      var o := Verdict(fs, infile, env).decision;
      var fs2 := Gated(fs, infile, artifacts, dumpDecision, env);
      if o != Halt {
        ProduceFrames(fs2, infile, outfile, artifacts, o, cmd, exec, env);
      }
    }
  }

  /**
   * A run writes nothing but its three artifacts and the output file, and
   * once the input is found it always starts with the decision and the input's proof.
   */
  lemma RunWrittenPaths(fs: map<Path, seq<byte>>, infile: Path, outfile: Path, artifacts: Path, cmd: seq<string>,
                        exec: (seq<string>, seq<byte>) -> Option<Process>,
                        dumpDecision: Decision -> seq<byte>, env: Env)
    ensures var e := Run(fs, infile, outfile, artifacts, cmd, exec, dumpDecision, env);
      && (forall p :: p in e.written ==>
            p == DecisionPath(artifacts) || p == InputProofPath(artifacts) || p == outfile || p == OutputProofPath(artifacts))
      && (infile in fs ==> |e.written| >= 2 && e.written[..2] == [DecisionPath(artifacts), InputProofPath(artifacts)])
  {
    if infile in fs {
      var o := Verdict(fs, infile, env).decision;
      var fs2 := Gated(fs, infile, artifacts, dumpDecision, env);
      if o != Halt {
        ProduceFrames(fs2, infile, outfile, artifacts, o, cmd, exec, env);
      }
    }
  }

  /**
   * A run exits 4 exactly when the input holds fabrication pressure, and then
   * it has written only the decision and the input's proof and printed HALT.
   * Exit 0 and 3 come only from ALLOW and FLAG decisions.
   */
  lemma RunStatus(fs: map<Path, seq<byte>>, infile: Path, outfile: Path, artifacts: Path, cmd: seq<string>,
                  exec: (seq<string>, seq<byte>) -> Option<Process>,
                  dumpDecision: Decision -> seq<byte>, env: Env)
    ensures var e := Run(fs, infile, outfile, artifacts, cmd, exec, dumpDecision, env);
      && e.exit in {ExitAllow, ExitFlag, ExitHalt, ExitError}
      && (infile !in fs ==> e.exit == ExitError && e.files == fs && e.written == [])
      && (infile in fs ==>
            var text := env.decodeText(fs[infile]);
            && (e.exit == ExitHalt <==> FabricationFound(text))
            && (e.exit == ExitHalt ==> e.written == [DecisionPath(artifacts), InputProofPath(artifacts)] && e.stdout == ["HALT"])
            && (e.exit == ExitAllow ==> Verdict(fs, infile, env).decision == Allow)
            && (e.exit == ExitFlag ==> Verdict(fs, infile, env).decision == Flag))
  {
    if infile in fs {
      EvaluateHalts(env.decodeText(fs[infile]), "truthlock", env.tlVersion, env.now);
    }
  }

  /** A run stores the same decision document gate would, and on success reports the same word and status. */
  lemma RunGatesLikeGate(fs: map<Path, seq<byte>>, infile: Path, outfile: Path, artifacts: Path, cmd: seq<string>,
                         exec: (seq<string>, seq<byte>) -> Option<Process>,
                         dumpDecision: Decision -> seq<byte>, env: Env)
    requires infile in fs && outfile != DecisionPath(artifacts)
    ensures var e := Run(fs, infile, outfile, artifacts, cmd, exec, dumpDecision, env);
      var g := Gate(fs, infile, DecisionPath(artifacts), None, dumpDecision, env);
      && e.files[DecisionPath(artifacts)] == g.files[DecisionPath(artifacts)]
      && (e.exit != ExitError ==> e.exit == g.exit && e.stdout == g.stdout)
  {
    ArtifactsDistinct(artifacts);
    var o := Verdict(fs, infile, env).decision;
    var fs2 := Gated(fs, infile, artifacts, dumpDecision, env);
    if o != Halt {
      ProduceFrames(fs2, infile, outfile, artifacts, o, cmd, exec, env);
      ProduceReports(fs2, infile, outfile, artifacts, o, cmd, exec, env);
    }
  }

  /** The input proof of a run seals the input as it was before the run. */
  lemma RunSealsInput(fs: map<Path, seq<byte>>, infile: Path, outfile: Path, artifacts: Path, cmd: seq<string>,
                      exec: (seq<string>, seq<byte>) -> Option<Process>,
                      dumpDecision: Decision -> seq<byte>, env: Env)
    requires infile in fs && infile != DecisionPath(artifacts) && outfile != InputProofPath(artifacts)
    ensures Run(fs, infile, outfile, artifacts, cmd, exec, dumpDecision, env).files[InputProofPath(artifacts)]
            == ProofFile(fs, infile, env)
  {
    ArtifactsDistinct(artifacts);
    var o := Verdict(fs, infile, env).decision;
    var fs2 := Gated(fs, infile, artifacts, dumpDecision, env);
    assert fs2[InputProofPath(artifacts)] == ProofFile(fs, infile, env);
    if o != Halt {
      ProduceFrames(fs2, infile, outfile, artifacts, o, cmd, exec, env);
    }
  }

  /** A run that succeeds leaves an output proof that seals the output file as it finally is. */
  lemma RunSealsOutput(fs: map<Path, seq<byte>>, infile: Path, outfile: Path, artifacts: Path, cmd: seq<string>,
                       exec: (seq<string>, seq<byte>) -> Option<Process>,
                       dumpDecision: Decision -> seq<byte>, env: Env)
    requires outfile != OutputProofPath(artifacts)
    ensures var e := Run(fs, infile, outfile, artifacts, cmd, exec, dumpDecision, env);
      e.exit in {ExitAllow, ExitFlag} ==>
        && outfile in e.files && OutputProofPath(artifacts) in e.files
        && e.files[OutputProofPath(artifacts)] == ProofFile(e.files, outfile, env)
  {
    if infile in fs {
      var o := Verdict(fs, infile, env).decision;
      var fs2 := Gated(fs, infile, artifacts, dumpDecision, env);
      if o != Halt {
        ProduceReports(fs2, infile, outfile, artifacts, o, cmd, exec, env);
      }
    }
  }

  /**
   * Without a command, a run that is not halted copies the input to the
   * output byte for byte, so both proofs record the same digest.
   */
  lemma RunCopies(fs: map<Path, seq<byte>>, infile: Path, outfile: Path, artifacts: Path,
                  exec: (seq<string>, seq<byte>) -> Option<Process>,
                  dumpDecision: Decision -> seq<byte>, env: Env)
    requires infile in fs && Verdict(fs, infile, env).decision != Halt
    requires outfile != infile && outfile != OutputProofPath(artifacts)
    requires infile != DecisionPath(artifacts) && infile != InputProofPath(artifacts)
    ensures var e := Run(fs, infile, outfile, artifacts, [], exec, dumpDecision, env);
      && outfile in e.files && e.files[outfile] == fs[infile]
      && e.exit == GateExit(Verdict(fs, infile, env).decision)
      && Snapshot(e.files, outfile, Tool, env.wsVersion, env).sha256 == Snapshot(fs, infile, Tool, env.wsVersion, env).sha256
  {
  }

  /**
   * When the command fails, the run exits 1 with the command's stderr, the
   * output file keeps what the command printed, and no output proof is written.
   */
  lemma RunCommandFails(fs: map<Path, seq<byte>>, infile: Path, outfile: Path, artifacts: Path, cmd: seq<string>,
                        exec: (seq<string>, seq<byte>) -> Option<Process>,
                        dumpDecision: Decision -> seq<byte>, env: Env, proc: Process)
    requires infile in fs && Verdict(fs, infile, env).decision != Halt && cmd != []
    requires exec(cmd, if outfile == infile then [] else Gated(fs, infile, artifacts, dumpDecision, env)[infile]) == Some(proc)
    requires proc.returncode != 0
    ensures var e := Run(fs, infile, outfile, artifacts, cmd, exec, dumpDecision, env);
      && e.exit == ExitError && e.stderr == [proc.stderr] && e.stdout == []
      && e.files[outfile] == proc.stdout
      && e.written == [DecisionPath(artifacts), InputProofPath(artifacts), outfile]
  {
  }

  /** Running the output through the same file as the input empties it before it is read. */
  lemma RunOntoItself(fs: map<Path, seq<byte>>, infile: Path, artifacts: Path,
                      exec: (seq<string>, seq<byte>) -> Option<Process>,
                      dumpDecision: Decision -> seq<byte>, env: Env)
    requires infile in fs && Verdict(fs, infile, env).decision != Halt
    requires infile != OutputProofPath(artifacts)
    ensures Run(fs, infile, infile, artifacts, [], exec, dumpDecision, env).files[infile] == []
  {
  }

  /** A halted run never starts the command: its effect is the same whatever the command and its result. */
  lemma RunHaltRunsNothing(fs: map<Path, seq<byte>>, infile: Path, outfile: Path, artifacts: Path,
                           cmd: seq<string>, exec: (seq<string>, seq<byte>) -> Option<Process>,
                           cmd': seq<string>, exec': (seq<string>, seq<byte>) -> Option<Process>,
                           dumpDecision: Decision -> seq<byte>, env: Env)
    requires infile in fs && FabricationFound(env.decodeText(fs[infile]))
    ensures Run(fs, infile, outfile, artifacts, cmd, exec, dumpDecision, env)
            == Run(fs, infile, outfile, artifacts, cmd', exec', dumpDecision, env)
  {
    EvaluateHalts(env.decodeText(fs[infile]), "truthlock", env.tlVersion, env.now);
  }
}
