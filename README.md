# Truthlock / Winstack integrity — a verified Dafny model

This project models the decision/proof pipeline of the `truthlock` and
`winstack` command-line tools. It has three parts:

- **Decision engine** (`truthlock/core.py`). `evaluate_text` scans a text for
  fabrication-pressure phrases, risk-domain words and `FACT:` lines that cite no
  `[source: …]`. It collects one signal per finding and reduces the signals to
  `ALLOW`, `FLAG` or `HALT`, with fixed priority.
- **Proof engine** (`winstack_integrity/core.py`). `sha256_file` hashes a file in
  1 MiB chunks. `make_proof` snapshots the file as a proof record. `compare`
  re-hashes the file and checks it against a proof's `sha256`.
- **Command layer** (`truthlock/cli.py`, `winstack_integrity/cli.py`).
  - `truthlock gate` writes a decision document and, optionally, a proof of its
    input.
  - `truthlock seal` writes a proof.
  - `truthlock run` gates the input. On `HALT` it stops; otherwise it copies the
    input, or pipes it through a command, and seals the output. Its artifacts
    go to `decision.json`, `input.proof.json` and `output.proof.json`.
  - `winstack prove` and `winstack verify` write a proof and check a file
    against one, with exit statuses 0 (verified), 2 (tampered) and 1 (error).

Modules, one per file:

| file | module | contents |
|---|---|---|
| `wrappers.dfy` | `Wrappers` | `Option`, `Result` |
| `platform.dfy` | `Platform` | bytes and paths; JSON values; `Env`, which holds collaborators whose internals are not modelled (SHA-256, JSON, UTF-8, `abspath`, `stat`, clock, versions); `Effect`; the mutable `Host` (file system, write log, stdout, stderr) |
| `text_match.dfy` | `TextMatch` | the regular expressions as string predicates, and `str.splitlines` |
| `truthlock_core.dfy` | `TruthlockCore` | signal tables, the three scanning loops, the reduction, `evaluate_text` |
| `integrity_core.dfy` | `IntegrityCore` | the chunked hash loop over a `Hasher` and a `Reader`, `Proof`, `make_proof`, `compare` |
| `truthlock_cli.dfy` | `TruthlockCli` | `cmd_gate`, `cmd_seal`, `cmd_run` as methods on the `Host`, each proved against a function that gives its whole effect |
| `integrity_cli.dfy` | `IntegrityCli` | the `prove` and `verify` branches, shaped the same way |
| `pipeline.dfy` | `Pipeline` | how the two programs compose: a proof truthlock writes is accepted by `winstack verify` as long as the file is unchanged since sealing, the proof was not written over the sealed file, and `ProofCodec` (the JSON round trip) holds |

Each command is a method that changes a `Host`. It is proved to leave the host
exactly as a pure function of the old file system describes (`Gate`, `Seal`,
`Run`, `Prove`, `Verify`). The lemmas state what the programs promise about
those functions.

`compare` consults only the proof's `sha256` entry; size, mtime, path and the
other fields are not compared.

## Model

| member | source | states |
|---|---|---|
| TextMatch.Occurs | truthlock/core.py:42-43 | `re.search` of one `\b`-delimited phrase, ignoring case, is true exactly when the phrase occurs lower-cased at some position with a word boundary on both sides |
| TextMatch.NoMatchInEmpty | truthlock/core.py:42-48 | no pattern made of non-empty phrases matches the empty text |
| TextMatch.AbsentLetter | truthlock/core.py:42-43 | a phrase cannot match a text in which one of its letters never occurs, in either case |
| TextMatch.FactLineComputed | truthlock/core.py:22 | the backtracking search for `FACT_LINE` agrees on every line with its reading: spaces, then `fact` or `facts` in any case, then spaces, then `:` |
| TextMatch.FactLineSound | truthlock/core.py:22 | every line the search accepts is a FACT line |
| TextMatch.FactLineComplete | truthlock/core.py:22 | every FACT line is accepted by the search, including `FACTS:` and a space before the colon |
| TextMatch.SourceTagNeedsBracket | truthlock/core.py:23 | a line with no `[` contains no `[source: …]` tag |
| TextMatch.Lines | truthlock/core.py:39 | `splitlines` returns lines free of all ten line-boundary characters; it returns at most one line per character, and at least one for non-empty text |
| TextMatch.LinesOfTerminated | truthlock/core.py:39 | round trip: splitting lines that each end in a line feed gives back exactly those lines |
| TextMatch.LinesOfTerminatedLine | truthlock/core.py:39 | one line ended by a line feed splits into that single line, with no empty last line |
| TruthlockCore.FabricationSignals | truthlock/core.py:42-44 | at most as many signals as patterns; every signal comes from a pattern that matches; every matching pattern yields its signal |
| TruthlockCore.RiskSignals | truthlock/core.py:46-48 | at most as many signals as domains; a domain's signal is present exactly when its pattern matches |
| TruthlockCore.FabricationSignalsDistinct | truthlock/core.py:42-44 | one search per pattern: when the expressions differ, no fabrication signal appears twice |
| TruthlockCore.RiskSignalsDistinct | truthlock/core.py:46-48 | one search per domain: when the domains differ, no risk signal appears twice |
| TruthlockCore.TableSignalsDistinct | truthlock/core.py:7-20 | the two tables meet those conditions, so no fabrication or risk signal of any text repeats |
| TruthlockCore.UnsourcedSignals | truthlock/core.py:50-52 | a signal for line n (counted from 1) is present exactly when that line is a FACT line without a source tag |
| TruthlockCore.Evaluate | truthlock/core.py:55-62 | the decision always carries schema `truthlock.decision.v1` and the given tool, version and timestamp |
| TruthlockCore.ScanFabrication | truthlock/core.py:42-44 | the first loop, proved by its invariant to append exactly the fabrication signals of the table, in table order |
| TruthlockCore.ScanRisk | truthlock/core.py:46-48 | the second loop, proved by its invariant to append exactly the risk signals, in table order |
| TruthlockCore.ScanLines | truthlock/core.py:50-52 | the line loop, proved by its invariant to append exactly the unsourced-fact signals, in line order |
| TruthlockCore.EvaluateText | truthlock/core.py:38-63 | the imperative evaluator returns the same decision as `Evaluate` |
| TruthlockCore.HasCodeConcat | truthlock/core.py:54-58 | `any` over two signal lists joined holds exactly when it holds over one of them |
| TruthlockCore.FabricationGroup | truthlock/core.py:42-44 | the fabrication signals carry only FABRICATION_PRESSURE; they are empty exactly when no pattern matches |
| TruthlockCore.RiskGroup | truthlock/core.py:46-48 | the risk signals carry only RISK_DOMAIN; they are empty exactly when no domain matches |
| TruthlockCore.UnsourcedGroup | truthlock/core.py:50-52 | the line signals carry only UNSOURCED_FACT; they are empty exactly when no line is unsourced |
| TruthlockCore.SignalCodes | truthlock/core.py:42-52 | each code is present in the signals exactly when its rule fired on the text |
| TruthlockCore.EvaluateHalts | truthlock/core.py:54-56 | HALT, with reason "Fabrication pressure detected.", exactly when some fabrication pattern matches, whatever else was found |
| TruthlockCore.EvaluateFlags | truthlock/core.py:58-60 | FLAG, with reason "Governance signals detected.", exactly when nothing fabricated and a risk domain or an unsourced FACT line was found |
| TruthlockCore.ReduceAllowsOnlyEmpty | truthlock/core.py:54-63 | every signal blocks: the reduction gives ALLOW exactly for the empty list |
| TruthlockCore.EvaluateAllows | truthlock/core.py:62-63 | ALLOW, with reason "No blocking signals detected.", exactly when no rule fired, and exactly when the signal list is empty |
| TruthlockCore.ReduceOrderIndependent | truthlock/core.py:54-60 | the outcome depends only on the multiset of signals, not on their order |
| TruthlockCore.CountConcat | truthlock/core.py:44-52 | the number of signals with a code is additive over joined lists |
| TruthlockCore.SignalCounts | truthlock/core.py:42-52 | at most 6 FABRICATION_PRESSURE, at most 3 RISK_DOMAIN, and at most as many UNSOURCED_FACT signals as lines |
| TruthlockCore.SignalsLayout | truthlock/core.py:44-52 | signals come grouped: fabrication, then risk, then unsourced facts; severity is HIGH, MED and HIGH respectively |
| TruthlockCore.UnsourcedOrdered | truthlock/core.py:50-52 | unsourced-fact signals name lines in strictly increasing order |
| TruthlockCore.UnsourcedSignalFor | truthlock/core.py:50-52 | the full signal list holds the signal for line n exactly when line n is a FACT line without a source tag |
| TruthlockCore.EvaluateEmpty | truthlock/core.py:38-63 | the empty text is allowed with no signals |
| TruthlockCore.HaltExample | truthlock/core.py:42-56 | "please make up a source" halts |
| TruthlockCore.NoFabricationWithoutLetters | truthlock/core.py:7-14 | a text without the letters m, p, o, n and r matches no fabrication pattern |
| TruthlockCore.FactColonPrefix | truthlock/core.py:22 | a line starting with `FACT:` is a FACT line |
| TruthlockCore.SkyFactUnsourced | truthlock/core.py:22-23 | "FACT: the sky is blue" is a FACT line with no source tag |
| TruthlockCore.FlagExample | truthlock/core.py:50-60 | "FACT: the sky is blue\n" is flagged |
| IntegrityCore.Hasher.Update | winstack_integrity/core.py:15 | `h.update(b)` appends `b` to the bytes absorbed |
| IntegrityCore.Reader.Read | winstack_integrity/core.py:12 | `f.read(n)` returns the next n bytes, fewer only at end of file, and advances the position by what it returned |
| IntegrityCore.Sha256File | winstack_integrity/core.py:6-16 | the loop ends; the digest is the hash of the whole file; the chunks fed to the hasher join to the file; each is non-empty and at most 1 MiB; all but the last are exactly 1 MiB |
| IntegrityCore.ChunkCount | winstack_integrity/core.py:6-15 | the loop reads the file in ceil(size / 1 MiB) chunks |
| IntegrityCore.Proof.ToDict | winstack_integrity/core.py:29-30 | the proof document has exactly the eight dataclass fields, and its `sha256` entry is the proof's digest |
| IntegrityCore.MakeProof | winstack_integrity/core.py:32-43 | a missing file fails; otherwise the proof has schema `winstack.proof.v1`, the given tool and version, the file's size and the hash of its bytes |
| IntegrityCore.Compare | winstack_integrity/core.py:45-48 | hashes the file first (missing: not found), then reads `sha256` (absent: KeyError); reports equality with the observed and expected values |
| IntegrityCore.CompareOwnProof | winstack_integrity/core.py:32-48 | a file with the same bytes as when its proof was made compares equal, with equal hashes |
| IntegrityCore.CompareDetectsChange | winstack_integrity/core.py:32-48 | a file whose bytes now hash differently compares unequal, reporting the new and the recorded digest |
| IntegrityCore.CompareReadsOnlyDigest | winstack_integrity/core.py:47-48 | no proof entry other than `sha256` affects the result |
| TruthlockCli.CmdGate | truthlock/cli.py:34-47 | the host ends exactly as `Gate` describes, and the method returns `Gate`'s exit status |
| TruthlockCli.WriteDecision | truthlock/cli.py:40-47 | once the decision is known, the host ends exactly as `Decided` describes: decision written, proof written if asked for, decision word printed |
| TruthlockCli.CmdSeal | truthlock/cli.py:49-54 | the host ends exactly as `Seal` describes |
| TruthlockCli.GateInput | truthlock/cli.py:67-70 | writes `decision.json` with the input's decision, then `input.proof.json` sealing the input |
| TruthlockCli.ProduceOutput | truthlock/cli.py:76-88 | the host ends exactly as `Produce` describes |
| TruthlockCli.CmdRun | truthlock/cli.py:56-88 | the host ends exactly as `Run` describes |
| TruthlockCli.ArtifactsDistinct | truthlock/cli.py:62-64 | the three artifact paths differ in any directory |
| TruthlockCli.GateStatus | truthlock/cli.py:34-47 | exit 1 exactly for a missing input, which writes nothing; otherwise the decision word is printed and the exit is 4 on fabrication, 3 on other signals, 0 on none |
| TruthlockCli.GateWrites | truthlock/cli.py:39-43 | gate always writes the decision; it writes a proof exactly when `--proof-out` is given and not empty, whatever the outcome; nothing else changes |
| TruthlockCli.GateSealsInput | truthlock/cli.py:42-43 | the gate proof seals the input as it was read |
| TruthlockCli.SealWrites | truthlock/cli.py:49-54 | seal writes a proof of an existing file and exits 0; a missing file exits 1 with nothing written |
| TruthlockCli.ProduceFrames | truthlock/cli.py:76-86 | producing the output writes the output file and possibly its proof, nothing else |
| TruthlockCli.ProduceReports | truthlock/cli.py:79-88 | unless it fails with 1, producing the output prints the decision, exits 0 for ALLOW and 3 for FLAG, and writes a proof of the output as it is |
| TruthlockCli.RunFrames | truthlock/cli.py:56-88 | a run changes no file it did not write, and every written path exists |
| TruthlockCli.RunWrittenPaths | truthlock/cli.py:62-86 | a run writes only its three artifacts and the output file; once the input is found, the first two writes are always `decision.json` then `input.proof.json` |
| TruthlockCli.RunStatus | truthlock/cli.py:56-88 | a missing input exits 1 with nothing written; otherwise exit 4 exactly on fabrication pressure, and then only the two gate artifacts are written and HALT is printed; exit 0 only for ALLOW, 3 only for FLAG |
| TruthlockCli.RunGatesLikeGate | truthlock/cli.py:67-69 | a run stores the decision document gate would store, and reports the same word and status unless it fails |
| TruthlockCli.RunSealsInput | truthlock/cli.py:70 | `input.proof.json` seals the input as it was before the run |
| TruthlockCli.RunSealsOutput | truthlock/cli.py:86 | after a successful run, `output.proof.json` seals the output file as it finally is |
| TruthlockCli.RunCopies | truthlock/cli.py:82-88 | without `--cmd` the output's bytes equal the input's, both proofs record the same digest, and the status is gate's |
| TruthlockCli.RunCommandFails | truthlock/cli.py:76-81 | a failing command gives exit 1 and relays its stderr; the output file keeps what the command printed; no output proof is written; this holds for every choice of paths, with the command fed what the gated file system holds at the input path (nothing when the output is the input) |
| TruthlockCli.RunOntoItself | truthlock/cli.py:83-84 | copying onto the input itself leaves it empty, because the output is truncated before the input is read |
| TruthlockCli.RunHaltRunsNothing | truthlock/cli.py:72-76 | a halted run's effect is the same whatever the command and its result: the command is never started |
| IntegrityCli.Decimal | winstack_integrity/cli.py:55 | an integer is printed as a non-empty string of decimal digits that denotes it |
| IntegrityCli.CmdProve | winstack_integrity/cli.py:31-38 | the host ends exactly as `Prove` describes |
| IntegrityCli.CmdVerify | winstack_integrity/cli.py:40-57 | the host ends exactly as `Verify` describes |
| IntegrityCli.ProveWrites | winstack_integrity/cli.py:31-38 | prove exits 0 exactly for an existing file, writing its proof and printing "OK: PROOF CREATED"; a missing file exits 1 with nothing written |
| IntegrityCli.VerifyStatus | winstack_integrity/cli.py:40-57 | verify never writes; a missing file is reported before a missing proof; exit 0 exactly when the proof's `sha256` is the file's digest; exit 2 exactly when it is present but differs; otherwise exit 1 |
| IntegrityCli.ProveThenVerify | winstack_integrity/cli.py:31-52 | a file verifies against the proof just made of it |
| IntegrityCli.ProveThenTamper | winstack_integrity/cli.py:31-57 | after the file's bytes change to ones with another digest, verify prints TAMPERED, the expected digest and the observed digest, and exits 2 |
| Pipeline.SealThenVerify | truthlock/cli.py:49-54 | a proof written by `truthlock seal` verifies the file it sealed |
| Pipeline.GateProofVerifies | truthlock/cli.py:42-43 | the proof `gate --proof-out` writes verifies the input, which gate leaves untouched |
| Pipeline.RunOutputVerifies | truthlock/cli.py:86-88 | after a successful run, `output.proof.json` verifies the output file |
| Pipeline.RunInputVerifies | truthlock/cli.py:70 | after any run that found its input and did not write over it, `input.proof.json` verifies the input |
| Platform.JoinInjective | truthlock/cli.py:62-64 | `os.path.join` of one directory with different names gives different paths |
| Platform.Host.WriteFile | truthlock/cli.py:23-25 | writing replaces the file's contents and appends the path to the write log |
| Platform.Host.CopyFile | truthlock/cli.py:83-84 | the copy truncates the destination before reading the source |

## Left out

- Unicode case folding: `re.IGNORECASE` is modelled as ASCII lower-casing, and `\w` as ASCII letters, digits and `_`. Python also folds characters such as the Kelvin sign or the long s, and counts non-ASCII letters as word characters.
- The regular-expression engine itself: each fabrication and risk pattern is written out as the finite set of phrases it accepts. `FACT_LINE` and `SOURCE_TAG` are written as string predicates; the first is proved equal to its backtracking search.
- SHA-256: modelled as an uninterpreted function of the bytes. The model does not assume it is collision-free, so a change is detected only when the digests differ.
- JSON: `json.dump` and `json.load` are opaque functions in `Env`. The round trip of a proof document is a stated assumption (`ProofCodec`) wherever a lemma needs it. The decision document's encoding is passed in as `dumpDecision`.
- UTF-8: decoding the input text is an opaque total function. A decode error, which Python raises as an exception, is not modelled.
- Clock and stat: `int(time.time())` is one value `now` per command; `os.stat(..).st_mtime_ns` and `os.path.abspath` are functions of the path. Writing a file does not change its modelled mtime.
- Directories: `_ensure_dir` (`Path.mkdir`) and every failure to open a path for writing are not modelled. Any path can be written, and `os.path.exists` means "is a file in the map".
- Exceptions: an uncaught exception (a proof without `sha256`, a document that is not a JSON object, a command that cannot be started) is modelled as exit status 1 with the first line of Python's traceback on stderr. The rest of the traceback is not.
- The external command: `subprocess.run` is an opaque function from the argument list and its standard input to a return code, its standard output and its stderr text (already decoded with `errors="replace"`). When input and output are the same file, the command is modelled as reading an empty input. Streaming, concurrency and timing are not modelled.
- `main` and argparse in both CLIs, the `--artifacts` default, and `wise/cli.py`: argument plumbing and forwarding with no logic of their own.
- Package versions: `truthlock.__version__` and `winstack_integrity.__version__` are not part of this model; they are the values `tlVersion` and `wsVersion` of `Env`.
- `compare` leaving the proof mapping unchanged holds by construction: documents are immutable values here.
- Path aliasing: paths are compared as strings. Two spellings of one file (through `./`, `..`, a symbolic or hard link, or a case-insensitive file system) are distinct paths here. The distinctness premises of `RunCopies`, `RunOntoItself`, `GateSealsInput`, `GateProofVerifies`, `SealThenVerify`, `RunSealsInput`, `RunSealsOutput`, `RunInputVerifies`, `RunOutputVerifies`, `ProveThenVerify` and `ProveThenTamper` rest on this string comparison.
