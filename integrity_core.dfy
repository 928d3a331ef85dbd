/**
 * The integrity-proof engine of winstack_integrity/core.py: hash a file in
 * fixed-size chunks, snapshot it as a proof record, and compare a file's
 * current hash with the one a stored proof expects.
 */
module IntegrityCore {
  import opened Wrappers
  import opened Platform

  /** Bytes read per call while hashing: 1 MiB. */
  const Chunk: nat := 1024 * 1024

  const ProofSchema := "winstack.proof.v1"

  /** The incremental hasher `hashlib.sha256()`, seen as the bytes absorbed so far. */
  class Hasher {
    var absorbed: seq<byte>

    constructor ()
      ensures absorbed == []
    {
      absorbed := [];
    }

    /** `h.update(b)`. */
    method Update(b: seq<byte>)
      modifies this
      ensures absorbed == old(absorbed) + b
    {
      absorbed := absorbed + b;
    }

    /** `h.hexdigest()`: the digest of everything absorbed. */
    function HexDigest(hash: seq<byte> -> Digest): Digest
      reads this
    {
      hash(absorbed)
    }
  }

  /** A file opened with `open(path, "rb")`: its bytes and the current position. */
  class Reader {
    const data: seq<byte>
    var pos: nat

    ghost predicate Valid()
      reads this
    {
      pos <= |data|
    }

    constructor (data: seq<byte>)
      ensures Valid() && this.data == data && pos == 0
    {
      this.data := data;
      pos := 0;
    }

    /** `f.read(n)`: the next n bytes, fewer only at the end of the file. */
    method Read(n: nat) returns (chunk: seq<byte>)
      requires Valid()
      modifies this
      ensures Valid()
      ensures pos == old(pos) + |chunk|
      ensures chunk == data[old(pos)..pos]
      ensures |chunk| == if old(pos) + n <= |data| then n else |data| - old(pos)
    {
      var end := if pos + n <= |data| then pos + n else |data|;
      chunk := data[pos..end];
      pos := end;
    }
  }

  /** The chunks joined back together. */
  function Flatten(chunks: seq<seq<byte>>): seq<byte> {
    if chunks == [] then [] else Flatten(chunks[..|chunks| - 1]) + chunks[|chunks| - 1]
  }

  /**
   * sha256_file: read `Chunk` bytes at a time until the first empty read,
   * feeding each chunk to the hasher. `chunks` records what was fed.
   */
  method Sha256File(data: seq<byte>, hash: seq<byte> -> Digest) returns (digest: Digest, ghost chunks: seq<seq<byte>>)
    ensures digest == hash(data)
    ensures Flatten(chunks) == data
    ensures forall i :: 0 <= i < |chunks| ==> 0 < |chunks[i]| <= Chunk
    ensures forall i :: 0 <= i < |chunks| - 1 ==> |chunks[i]| == Chunk
  {
    var h := new Hasher();
    var f := new Reader(data);
    chunks := [];
    while true
      invariant f.Valid() && f.data == data
      invariant h.absorbed == Flatten(chunks) == data[..f.pos]
      invariant forall i :: 0 <= i < |chunks| ==> 0 < |chunks[i]| <= Chunk
      invariant forall i :: 0 <= i < |chunks| - 1 ==> |chunks[i]| == Chunk
      invariant chunks != [] && |chunks[|chunks| - 1]| < Chunk ==> f.pos == |data|
      decreases |data| - f.pos
    {
      ghost var start := f.pos;
      ghost var before := chunks;
      var b := f.Read(Chunk);
      if b == [] {
        break;
      }
      h.Update(b);
      assert data[..f.pos] == data[..start] + b;
      chunks := chunks + [b];
      assert chunks[..|chunks| - 1] == before;
    }
    assert data[..f.pos] == data;
    digest := h.HexDigest(hash);
  }

  datatype Proof = Proof(
    schema: string,
    tool: string,
    version: string,
    createdUtc: int,
    filePath: Path,
    fileSize: nat,
    fileMtimeNs: int,
    sha256: Digest)
  {
    /** `to_dict()`: the JSON object the proof is written as. */
    function ToDict(): (d: Document)
      ensures "sha256" in d && d["sha256"] == Str(sha256)
      ensures d.Keys == {"schema", "tool", "version", "created_utc", "file_path", "file_size", "file_mtime_ns", "sha256"}
    {
      map["schema" := Str(schema), "tool" := Str(tool), "version" := Str(version),
          "created_utc" := Int(createdUtc), "file_path" := Str(filePath),
          "file_size" := Int(fileSize), "file_mtime_ns" := Int(fileMtimeNs),
          "sha256" := Str(sha256)]
    }
  }

  /** The proof make_proof builds for an existing file, from the file system as it is now. */
  function Snapshot(fs: map<Path, seq<byte>>, path: Path, tool: string, version: string, env: Env): Proof
    requires path in fs
  {
    Proof(ProofSchema, tool, version, env.now, env.absPath(path), |fs[path]|, env.mtimeNs(path), env.hash(fs[path]))
  }

  /** The tool name both command-line programs put in the proofs they write. */
  const Tool := "winstack"

  /** The bytes `_write_json(out, make_proof(path, tool="winstack", version=...).to_dict())` writes. */
  function ProofFile(fs: map<Path, seq<byte>>, path: Path, env: Env): seq<byte>
    requires path in fs
  {
    env.dumpJson(Snapshot(fs, path, Tool, env.wsVersion, env).ToDict())
  }

  /** make_proof: `os.stat` fails on a missing file; otherwise the proof records the file's size and whole-content hash. */
  method MakeProof(fs: map<Path, seq<byte>>, path: Path, tool: string, version: string, env: Env)
    returns (r: Result<Proof, Failure>)
    ensures path !in fs ==> r == Err(NotFound(path))
    ensures path in fs ==> r.Ok? && r.value == Snapshot(fs, path, tool, version, env)
    ensures r.Ok? ==> r.value.schema == "winstack.proof.v1" && r.value.tool == tool && r.value.version == version
    ensures r.Ok? ==> r.value.sha256 == env.hash(fs[path]) && r.value.fileSize == |fs[path]|
  {
    if path !in fs {
      return Err(NotFound(path));
    }
    var digest, _ := Sha256File(fs[path], env.hash);
    r := Ok(Proof(ProofSchema, tool, version, env.now, env.absPath(path), |fs[path]|, env.mtimeNs(path), digest));
  }

  /** What compare returns: whether the hashes agree, the observed hash, and the expected value. */
  datatype Comparison = Comparison(matches: bool, observed: Digest, expected: Value)

  /**
   * compare as a value: the file is hashed first (missing file: not found),
   * then the proof's "sha256" entry is looked up (absent: KeyError).
   */
  function CompareOutcome(fs: map<Path, seq<byte>>, path: Path, proof: Document, env: Env): Result<Comparison, Failure> {
    if path !in fs then Err(NotFound(path))
    else if "sha256" !in proof then Err(MissingKey("sha256"))
    else
      var observed := env.hash(fs[path]);
      Ok(Comparison(Str(observed) == proof["sha256"], observed, proof["sha256"]))
  }

  /** compare: hash the current file and test it against the proof's expected hash. */
  method Compare(fs: map<Path, seq<byte>>, path: Path, proof: Document, env: Env) returns (r: Result<Comparison, Failure>)
    ensures r == CompareOutcome(fs, path, proof, env)
  {
    if path !in fs {
      return Err(NotFound(path));
    }
    var observed, _ := Sha256File(fs[path], env.hash);
    if "sha256" !in proof {
      return Err(MissingKey("sha256"));
    }
    var expected := proof["sha256"];
    r := Ok(Comparison(Str(observed) == expected, observed, expected));
  }

  // ---------------------------------------------------------------------------
  // Properties of proofs and comparisons

  /** A file compared with a proof made from the same bytes matches, with equal hashes. */
  lemma CompareOwnProof(fs: map<Path, seq<byte>>, fs': map<Path, seq<byte>>, path: Path, tool: string, version: string, env: Env)
    requires path in fs && path in fs' && fs'[path] == fs[path]
    ensures var p := Snapshot(fs, path, tool, version, env).ToDict();
      CompareOutcome(fs', path, p, env) == Ok(Comparison(true, env.hash(fs[path]), Str(env.hash(fs[path]))))
  {
  }

  /** If the file's current bytes hash differently from the sealed ones, compare reports a mismatch. */
  lemma CompareDetectsChange(fs: map<Path, seq<byte>>, fs': map<Path, seq<byte>>, path: Path, tool: string, version: string, env: Env)
    requires path in fs && path in fs' && env.hash(fs'[path]) != env.hash(fs[path])
    ensures var p := Snapshot(fs, path, tool, version, env).ToDict();
      CompareOutcome(fs', path, p, env) == Ok(Comparison(false, env.hash(fs'[path]), Str(env.hash(fs[path]))))
  {
  }

  /** Only the "sha256" entry of the proof matters to compare. */
  lemma CompareReadsOnlyDigest(fs: map<Path, seq<byte>>, path: Path, p1: Document, p2: Document, env: Env)
    requires ("sha256" in p1) == ("sha256" in p2)
    requires "sha256" in p1 ==> p1["sha256"] == p2["sha256"]
    ensures CompareOutcome(fs, path, p1, env) == CompareOutcome(fs, path, p2, env)
  {
  }

  /** The loop reads the file in as many chunks as the ceiling of its size over Chunk. */
  lemma {:induction false} ChunkCount(chunks: seq<seq<byte>>)
    requires forall i :: 0 <= i < |chunks| ==> 0 < |chunks[i]| <= Chunk
    requires forall i :: 0 <= i < |chunks| - 1 ==> |chunks[i]| == Chunk
    ensures |chunks| == (|Flatten(chunks)| + Chunk - 1) / Chunk
  {
    if chunks != [] {
      var init := chunks[..|chunks| - 1];
      ChunkCount(init);
      assert |Flatten(init)| == Chunk * |init| by {
        FullChunks(init);
      }
    }
  }

  lemma {:induction false} FullChunks(chunks: seq<seq<byte>>)
    requires forall i :: 0 <= i < |chunks| ==> |chunks[i]| == Chunk
    ensures |Flatten(chunks)| == Chunk * |chunks|
  {
    if chunks != [] {
      FullChunks(chunks[..|chunks| - 1]);
    }
  }
}
