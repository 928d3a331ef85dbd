/**
 * How the two programs fit together: a proof truthlock writes is one that
 * `winstack verify` accepts for the file it seals, as long as that file has
 * not changed since, the proof was not written over it, and the JSON round
 * trip `ProofCodec` holds.
 */
module Pipeline {
  import opened Wrappers
  import opened Platform
  import opened TruthlockCore
  import opened IntegrityCore
  import opened TruthlockCli
  import opened IntegrityCli

  /** A proof written by `truthlock seal` verifies the file it sealed. */
  lemma SealThenVerify(fs: map<Path, seq<byte>>, file: Path, out: Path, env: Env)
    requires ProofCodec(env) && file in fs && out != file
    ensures Verify(Seal(fs, file, out, env).files, file, out, env).exit == ExitVerified
  {
    var p := Snapshot(fs, file, Tool, env.wsVersion, env);
    assert env.loadJson(env.dumpJson(p.ToDict())) == Some(p.ToDict());
  }

  /** The proof `truthlock gate --proof-out` writes verifies the input, which gate leaves untouched. */
  lemma GateProofVerifies(fs: map<Path, seq<byte>>, infile: Path, out: Path, proofOut: Option<Path>,
                          dumpDecision: Decision -> seq<byte>, env: Env)
    requires ProofCodec(env) && infile in fs && Given(proofOut)
    requires out != infile && proofOut.value != infile
    ensures Verify(Gate(fs, infile, out, proofOut, dumpDecision, env).files, infile, proofOut.value, env).exit
            == ExitVerified
  {
    GateSealsInput(fs, infile, out, proofOut, dumpDecision, env);
    var p := Snapshot(fs, infile, Tool, env.wsVersion, env);
    assert env.loadJson(env.dumpJson(p.ToDict())) == Some(p.ToDict());
  }

  /** After a successful `truthlock run`, output.proof.json verifies the output file. */
  lemma RunOutputVerifies(fs: map<Path, seq<byte>>, infile: Path, outfile: Path, artifacts: Path, cmd: seq<string>,
                          exec: (seq<string>, seq<byte>) -> Option<Process>,
                          dumpDecision: Decision -> seq<byte>, env: Env)
    requires ProofCodec(env) && outfile != OutputProofPath(artifacts)
    ensures var e := Run(fs, infile, outfile, artifacts, cmd, exec, dumpDecision, env);
      e.exit in {ExitAllow, ExitFlag} ==> Verify(e.files, outfile, OutputProofPath(artifacts), env).exit == ExitVerified
  {
    var e := Run(fs, infile, outfile, artifacts, cmd, exec, dumpDecision, env);
    RunSealsOutput(fs, infile, outfile, artifacts, cmd, exec, dumpDecision, env);
    if e.exit in {ExitAllow, ExitFlag} {
      var p := Snapshot(e.files, outfile, Tool, env.wsVersion, env);
      assert env.loadJson(env.dumpJson(p.ToDict())) == Some(p.ToDict());
    }
  }

  /**
   * After any `truthlock run` that found its input, input.proof.json verifies
   * the input, provided the run did not write over the input.
   */
  lemma RunInputVerifies(fs: map<Path, seq<byte>>, infile: Path, outfile: Path, artifacts: Path, cmd: seq<string>,
                         exec: (seq<string>, seq<byte>) -> Option<Process>,
                         dumpDecision: Decision -> seq<byte>, env: Env)
    requires ProofCodec(env) && infile in fs && infile != outfile && outfile != InputProofPath(artifacts)
    requires infile != DecisionPath(artifacts) && infile != InputProofPath(artifacts) && infile != OutputProofPath(artifacts)
    ensures Verify(Run(fs, infile, outfile, artifacts, cmd, exec, dumpDecision, env).files,
                   infile, InputProofPath(artifacts), env).exit == ExitVerified
  {
    var e := Run(fs, infile, outfile, artifacts, cmd, exec, dumpDecision, env);
    RunFrames(fs, infile, outfile, artifacts, cmd, exec, dumpDecision, env);
    RunSealsInput(fs, infile, outfile, artifacts, cmd, exec, dumpDecision, env);
    RunWrittenPaths(fs, infile, outfile, artifacts, cmd, exec, dumpDecision, env);
    assert e.files[infile] == fs[infile];
    var p := Snapshot(fs, infile, Tool, env.wsVersion, env);
    assert env.loadJson(env.dumpJson(p.ToDict())) == Some(p.ToDict());
  }
}
