/**
 * The two subcommands of winstack_integrity/cli.py: `prove` writes a proof
 * document for a file, and `verify` re-hashes a file and reports whether it
 * still matches the digest a proof document expects.
 */
module IntegrityCli {
  import opened Wrappers
  import opened Platform
  import opened IntegrityCore

  const ExitVerified := 0
  const ExitTampered := 2
  const ExitError := 1

  /** The number a string of decimal digits denotes, most significant first. */
  function DigitsValue(s: string): int {
    if s == [] then 0 else 10 * DigitsValue(s[..|s| - 1]) + (s[|s| - 1] as int - '0' as int)
  }

  /** The decimal digits of n, most significant first. */
  function Decimal(n: nat): (r: string)
    ensures r != [] && forall i :: 0 <= i < |r| ==> '0' <= r[i] <= '9'
    ensures DigitsValue(r) == n
  {
    var last := ['0' + (n % 10) as char];
    if n < 10 then last
    else
      var r := Decimal(n / 10) + last;
      assert r[..|r| - 1] == Decimal(n / 10);
      r
  }

  /** `str(v)` for a value read from a proof document, as `print` shows it. */
  function Show(v: Value): string {
    match v
    case Str(s) => s
    case Int(i) => if i < 0 then "-" + Decimal(-i) else Decimal(i)
    case Other(shown) => shown
  }

  // ---------------------------------------------------------------------------
  // prove

  /** The prove branch as a value. */
  function Prove(fs: map<Path, seq<byte>>, file: Path, out: Path, env: Env): Effect {
    if file !in fs then
      Effect(fs, [], [], ["ERROR: file not found: " + file], ExitError)
    else
      Effect(fs[out := ProofFile(fs, file, env)], [out], ["OK: PROOF CREATED"], [], 0)
  }

  method CmdProve(h: Host, file: Path, out: Path, env: Env) returns (exit: int)
    requires h.Valid()
    modifies h
    ensures h.Valid()
    ensures var e := Prove(old(h.files), file, out, env);
      h.Reflects(e, old(h.written), old(h.stdout), old(h.stderr)) && exit == e.exit
  {
    if file !in h.files {
      h.PrintErr("ERROR: file not found: " + file);
      return ExitError;
    }
    var proof := MakeProof(h.files, file, Tool, env.wsVersion, env);
    h.WriteFile(out, env.dumpJson(proof.value.ToDict()));
    h.Print("OK: PROOF CREATED");
    return 0;
  }

  // ---------------------------------------------------------------------------
  // verify

  /**
   * The verify branch as a value: the file is checked before the proof, a
   * proof that does not load as a JSON object or lacks "sha256" ends in an
   * uncaught exception, and the comparison decides between VERIFIED and TAMPERED.
   */
  function Verify(fs: map<Path, seq<byte>>, file: Path, proofPath: Path, env: Env): Effect {
    if file !in fs then
      Effect(fs, [], [], ["ERROR: file not found: " + file], ExitError)
    else if proofPath !in fs then
      Effect(fs, [], [], ["ERROR: proof not found: " + proofPath], ExitError)
    else
      match env.loadJson(fs[proofPath])
      case None => Effect(fs, [], [], [Traceback], ExitError)
      case Some(doc) =>
        match CompareOutcome(fs, file, doc, env)
        case Err(_) => Effect(fs, [], [], [Traceback], ExitError)
        case Ok(c) =>
          if c.matches then Effect(fs, [], ["VERIFIED"], [], ExitVerified)
          else Effect(fs, [], ["TAMPERED", "expected: " + Show(c.expected), "observed: " + c.observed], [], ExitTampered)
  }

  method CmdVerify(h: Host, file: Path, proofPath: Path, env: Env) returns (exit: int)
    requires h.Valid()
    modifies h
    ensures h.Valid()
    ensures var e := Verify(old(h.files), file, proofPath, env);
      h.Reflects(e, old(h.written), old(h.stdout), old(h.stderr)) && exit == e.exit
  {
    if file !in h.files {
      h.PrintErr("ERROR: file not found: " + file);
      return ExitError;
    }
    if proofPath !in h.files {
      h.PrintErr("ERROR: proof not found: " + proofPath);
      return ExitError;
    }
    var loaded := env.loadJson(h.files[proofPath]);
    if loaded.None? {
      h.PrintErr(Traceback);
      return ExitError;
    }
    var r := Compare(h.files, file, loaded.value, env);
    if r.Err? {
      h.PrintErr(Traceback);
      return ExitError;
    }
    if r.value.matches {
      h.Print("VERIFIED");
      return ExitVerified;
    }
    h.Print("TAMPERED");
    h.Print("expected: " + Show(r.value.expected));
    h.Print("observed: " + r.value.observed);
    return ExitTampered;
  }

  // ---------------------------------------------------------------------------
  // Properties of prove and verify

  /** `json.load` gives back exactly the document `json.dump` wrote for any proof. */
  ghost predicate ProofCodec(env: Env) {
    forall p: Proof {:trigger p.ToDict()} :: env.loadJson(env.dumpJson(p.ToDict())) == Some(p.ToDict())
  }

  /** prove writes a proof of an existing file to `out` and changes nothing else; a missing file writes nothing. */
  lemma ProveWrites(fs: map<Path, seq<byte>>, file: Path, out: Path, env: Env)
    ensures var e := Prove(fs, file, out, env);
      && Frames(fs, e)
      && (e.exit == 0 <==> file in fs)
      && (file in fs ==> e.written == [out] && e.files[out] == ProofFile(fs, file, env) && e.stdout == ["OK: PROOF CREATED"])
      && (file !in fs ==> e.exit == ExitError && e.written == [] && e.stdout == [])
  {
  }

  /**
   * verify never writes a file. A missing file is reported before a missing
   * proof, both with status 1. It exits 0 exactly when the proof loads, has a
   * "sha256" entry, and that entry is the file's current digest; it exits 2
   * exactly when the entry is there but differs; otherwise it exits 1.
   */
  lemma VerifyStatus(fs: map<Path, seq<byte>>, file: Path, proofPath: Path, env: Env)
    ensures var e := Verify(fs, file, proofPath, env);
      && e.files == fs && e.written == []
      && e.exit in {ExitVerified, ExitTampered, ExitError}
      && (file !in fs ==> e.exit == ExitError && e.stderr == ["ERROR: file not found: " + file])
      && (file in fs && proofPath !in fs ==> e.exit == ExitError && e.stderr == ["ERROR: proof not found: " + proofPath])
      && (e.exit == ExitVerified <==>
            file in fs && proofPath in fs && env.loadJson(fs[proofPath]).Some?
            && "sha256" in env.loadJson(fs[proofPath]).value
            && env.loadJson(fs[proofPath]).value["sha256"] == Str(env.hash(fs[file])))
      && (e.exit == ExitTampered <==>
            file in fs && proofPath in fs && env.loadJson(fs[proofPath]).Some?
            && "sha256" in env.loadJson(fs[proofPath]).value
            && env.loadJson(fs[proofPath]).value["sha256"] != Str(env.hash(fs[file])))
  {
  }

  /** A file verifies against the proof just made of it. */
  lemma ProveThenVerify(fs: map<Path, seq<byte>>, file: Path, out: Path, env: Env)
    requires ProofCodec(env) && file in fs && out != file
    ensures var fs' := Prove(fs, file, out, env).files;
      Verify(fs', file, out, env) == Effect(fs', [], ["VERIFIED"], [], ExitVerified)
  {
    var p := Snapshot(fs, file, Tool, env.wsVersion, env);
    assert env.loadJson(env.dumpJson(p.ToDict())) == Some(p.ToDict());
  }

  /**
   * Once the file's bytes change to ones with a different digest, verify
   * against the earlier proof reports TAMPERED with both digests.
   */
  lemma ProveThenTamper(fs: map<Path, seq<byte>>, file: Path, out: Path, env: Env, tampered: seq<byte>)
    requires ProofCodec(env) && file in fs && out != file
    requires env.hash(tampered) != env.hash(fs[file])
    ensures var fs' := Prove(fs, file, out, env).files[file := tampered];
      Verify(fs', file, out, env)
        == Effect(fs', [], ["TAMPERED", "expected: " + env.hash(fs[file]), "observed: " + env.hash(tampered)], [], ExitTampered)
  {
    var p := Snapshot(fs, file, Tool, env.wsVersion, env);
    assert env.loadJson(env.dumpJson(p.ToDict())) == Some(p.ToDict());
  }
}
