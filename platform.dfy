/**
 * What the two command-line tools touch outside their own logic: bytes, paths,
 * JSON values, the collaborators whose internals are not modelled (SHA-256,
 * JSON, UTF-8, the clock, `os.path.abspath`, `os.stat`), and a host holding the
 * file system, the log of files written and the two console streams.
 */
module Platform {
  import opened Wrappers

  newtype byte = x: int | 0 <= x < 256

  type Path = string

  /** A hex digest as returned by `hashlib.sha256().hexdigest()`. */
  type Digest = string

  /** A JSON value as `json.load` returns it: a string, an integer, or anything else, kept as its printed form. */
  datatype Value = Str(s: string) | Int(i: int) | Other(shown: string)

  /** The JSON object a proof document holds. */
  type Document = map<string, Value>

  /** Why an operation of the tools raised instead of returning. */
  datatype Failure = NotFound(path: Path) | MissingKey(key: string)

  /**
   * The collaborators the tools call but whose internals are not modelled.
   * `hash` stands for SHA-256 as a hex digest, `dumpJson`/`loadJson` for
   * `json.dump`/`json.load` of proof documents (`loadJson` gives `None` when the
   * bytes do not hold a JSON object), `decodeText` for reading a file as UTF-8 text,
   * `absPath` for `os.path.abspath`, `mtimeNs` for `os.stat(..).st_mtime_ns`,
   * `now` for `int(time.time())`, and the two package versions.
   */
  datatype Env = Env(
    hash: seq<byte> -> Digest,
    dumpJson: Document -> seq<byte>,
    loadJson: seq<byte> -> Option<Document>,
    decodeText: seq<byte> -> string,
    absPath: Path -> Path,
    mtimeNs: Path -> int,
    now: int,
    tlVersion: string,
    wsVersion: string)

  /** `os.path.join(dir, name)` for a relative `name`. */
  function Join(dir: Path, name: string): (p: Path)
    ensures |p| >= |name| && p[|p| - |name|..] == name
  {
    if dir == [] || dir[|dir| - 1] == '/' then dir + name else dir + "/" + name
  }

  /** Joining one directory with different names gives different paths. */
  lemma JoinInjective(dir: Path, a: string, b: string)
    requires a != b
    ensures Join(dir, a) != Join(dir, b)
  {
    var pre := if dir == [] || dir[|dir| - 1] == '/' then dir else dir + "/";
    assert Join(dir, a) == pre + a && Join(dir, b) == pre + b;
    assert (pre + a)[|pre|..] == a;
    assert (pre + b)[|pre|..] == b;
  }

  /**
   * What one command does, as a value: the file system it leaves, the paths
   * it wrote in order, the lines it printed to stdout and stderr, and its exit status.
   */
  datatype Effect = Effect(files: map<Path, seq<byte>>, written: seq<Path>, stdout: seq<string>, stderr: seq<string>, exit: int)

  /** Every path written exists afterwards, and every other file is exactly as it was. */
  ghost predicate Frames(fs: map<Path, seq<byte>>, e: Effect) {
    && (forall p :: p in e.written ==> p in e.files)
    && (forall p :: p !in e.written ==> (p in fs <==> p in e.files))
    && (forall p :: p !in e.written && p in fs ==> e.files[p] == fs[p])
  }

  /** The first line of the report Python writes to stderr for an uncaught exception. */
  const Traceback := "Traceback (most recent call last):"

  /**
   * The process's view of the world: file contents by path, every path written
   * in order, and the lines sent to stdout and stderr.
   */
  class Host {
    var files: map<Path, seq<byte>>
    var written: seq<Path>
    var stdout: seq<string>
    var stderr: seq<string>

    /** Every file written is still there: nothing is ever deleted. */
    ghost predicate Valid()
      reads this
    {
      forall p :: p in written ==> p in files
    }

    /** The host has gone from the logs `written0`, `stdout0` and `stderr0` to the state `e` describes. */
    ghost predicate Reflects(e: Effect, written0: seq<Path>, stdout0: seq<string>, stderr0: seq<string>)
      reads this
    {
      files == e.files && written == written0 + e.written && stdout == stdout0 + e.stdout && stderr == stderr0 + e.stderr
    }

    constructor (files: map<Path, seq<byte>>)
      ensures Valid()
      ensures this.files == files && written == [] && stdout == [] && stderr == []
    {
      this.files := files;
      written := [];
      stdout := [];
      stderr := [];
    }

    /** `open(path, "w"/"wb")` followed by writing `data` and closing. */
    method WriteFile(path: Path, data: seq<byte>)
      requires Valid()
      modifies this
      ensures Valid()
      ensures files == old(files)[path := data] && written == old(written) + [path]
      ensures stdout == old(stdout) && stderr == old(stderr)
    {
      files := files[path := data];
      written := written + [path];
    }

    /**
     * `with open(src, "rb") as fin, open(dst, "wb") as fout: fout.write(fin.read())`:
     * `dst` is truncated before `src` is read, so copying a file onto itself empties it.
     */
    method CopyFile(src: Path, dst: Path)
      requires Valid() && src in files
      modifies this
      ensures Valid()
      ensures files == old(files)[dst := if src == dst then [] else old(files)[src]]
      ensures written == old(written) + [dst]
      ensures stdout == old(stdout) && stderr == old(stderr)
    {
      var data := if src == dst then [] else files[src];
      files := files[dst := data];
      written := written + [dst];
    }

    /** `print(line)`. */
    method Print(line: string)
      modifies this
      ensures stdout == old(stdout) + [line]
      ensures files == old(files) && written == old(written) && stderr == old(stderr)
    {
      stdout := stdout + [line];
    }

    /** `print(line, file=sys.stderr)` and `sys.stderr.write(line)`. */
    method PrintErr(line: string)
      modifies this
      ensures stderr == old(stderr) + [line]
      ensures files == old(files) && written == old(written) && stdout == old(stdout)
    {
      stderr := stderr + [line];
    }
  }
}
