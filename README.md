# git diff-blob, modelled in Dafny

`git diff-blob` compares two blobs. It takes either two object names on the
command line, or `--stdin` and one pair of names per input line. For each
pair it decides whether there is anything to diff, and then hands the
engine one (old, new) file pair to diff and print. This project models the
decision logic of `builtin/diff-blob.c` and proves what that logic
guarantees:

- `CStrings`: NUL-free C strings (`CString`), in which one character
  stands for one byte of the C string. It models the `strncmp`
  prefix test of the path filter (`HasPrefix`), which is proved to be
  exactly "is a literal prefix of". It also models
  `string_list_split_in_place(list, line, " ", -1)` (`Split`) and proves
  both round trips with `Join`, and that a line splits into two tokens
  exactly when it holds one space.
- `Types`: object ids, where the null id is its own tag (`NullId`) and
  never a hash value. File modes, where the `S_IFINVALID` sentinel is its
  own tag (`Unspecified`) and recorded mode bits (`ModeBits`) can never
  hold the sentinel's value. Also object array entries, filespecs, file
  pairs, the diff options the command reads (`reverse_diff`, `prefix`),
  the fatal errors, and name resolution as an abstract partial function
  (`Resolver`).
- `Engine`: the diff engine as a class whose `emitted` field is the
  sequence of pairs queued and flushed so far.
- `PairNormalizer`: `diff_blobs`, as the pure function `Normalize` with
  lemmas about it, plus the method `DiffBlobs` that appends its result to
  the engine.
- `BatchDriver`: `parse_blob_stdin` and `diff_blob_stdin`. The batch run
  is the function `Batch`, a fold of `Step` over the input lines. The
  method `DiffBlobStdin` is the source's `while` loop, proved to emit
  exactly `Batch`'s pairs. `ParseBlobs` is the loop over one line's
  tokens.
- `Dispatcher`: the `switch` of `cmd_diff_blob`, as the function `Run`
  with lemmas, and the method `CmdDiffBlob` proved against it.

Two points about the code that the model follows:

- Usage errors are detected only after `setup_revisions` has resolved the
  command-line names (builtin/diff-blob.c:141). What a usage error never
  touches is the batch input: no line is read and no line's name is
  resolved, and that is what `UsageBeforeInput` states.
- The exit status (`diff_result_code`, builtin/diff-blob.c:177) is not
  modelled.

## Model

| member | source | states |
|---|---|---|
| `CStrings.StrNEqual` | builtin/diff-blob.c:49-51 | `strncmp(a, b, n) == 0` holds iff both strings are at least `n` long and share their first `n` characters, or one is shorter than `n` and the two are the same string |
| `CStrings.HasPrefix` | builtin/diff-blob.c:49-51 | no contract of its own: the test `!strncmp(path, prefix, prefix_length)` with `prefix_length` the prefix's length; `HasPrefixIsSeqPrefix` states what it decides |
| `CStrings.HasPrefixIsSeqPrefix` | builtin/diff-blob.c:49-51 | `strncmp(path, prefix, prefix_length) == 0` holds exactly when `prefix` is a literal prefix of `path`, with no regard for path components |
| `CStrings.Split` | builtin/diff-blob.c:93 | splitting a line at every space always yields at least one token |
| `CStrings.Join` | builtin/diff-blob.c:93 | no contract of its own: the partner of `Split`, tokens with one space between neighbours; `JoinSplit` and `SplitJoin` relate the two |
| `CStrings.JoinSplit` | builtin/diff-blob.c:93 | splitting loses nothing: the tokens joined by single spaces give the line back |
| `CStrings.SplitJoin` | builtin/diff-blob.c:93 | the other round trip: space-free tokens joined by spaces split back into the same tokens |
| `CStrings.SplitTokensHaveNoSpace` | builtin/diff-blob.c:93 | no token holds a space |
| `CStrings.SplitCount` | builtin/diff-blob.c:93 | the number of tokens is the number of spaces plus one (empty tokens are kept) |
| `CStrings.TwoTokens` | builtin/diff-blob.c:93 | a line gives exactly two tokens iff it holds exactly one space, and then it is token, space, token |
| `PairNormalizer.ResolvedMode` | builtin/diff-blob.c:18-31 | no contract of its own: an entry's recorded mode, or 0100644 for `S_IFINVALID`; `EmittedModesResolved` states it of the emitted pair |
| `PairNormalizer.ResolvedPath` | builtin/diff-blob.c:33-37 | no contract of its own: the recorded path, or else the entry's name; `EmittedPathsDefaulted` states it of the emitted pair |
| `PairNormalizer.Side` | builtin/diff-blob.c:19-37 | no contract of its own: one side's (path, id, mode) once the mode and path are defaulted |
| `PairNormalizer.Unchanged` | builtin/diff-blob.c:39-40 | no contract of its own: both ids are real and equal and the defaulted modes are equal |
| `PairNormalizer.SameContent` | builtin/diff-blob.c:39-40 | no contract of its own: `Unchanged` of the two entries' sides |
| `PairNormalizer.InScope` | builtin/diff-blob.c:49-52 | no contract of its own: without a prefix every pair passes, with one both paths must pass `HasPrefix`; `PrefixFilterConjunctive` states its consequence |
| `PairNormalizer.Normalize` | builtin/diff-blob.c:18-52 | no contract of its own: the decision of diff_blobs; `WhenEmitted`, `EqualContentNotEmitted`, `NullIdNeverSkipped`, `PrefixFilterConjunctive`, the `Emitted*` lemmas and `ReverseIsSwap` state what it returns |
| `PairNormalizer.WhenEmitted` | builtin/diff-blob.c:39-52 | a pair is emitted iff the entries are not content-equal (same non-null id and same defaulted mode) and, with a prefix set, both defaulted paths begin with it |
| `PairNormalizer.EqualContentNotEmitted` | builtin/diff-blob.c:27-41 | entries with the same non-null id and the same mode, once an invalid mode is read as 0100644, emit nothing, whatever their paths, the reversal flag or the prefix |
| `PairNormalizer.NullIdNeverSkipped` | builtin/diff-blob.c:39-41 | a null id on either side never takes the equality short-cut: only the prefix filter can then suppress the pair |
| `PairNormalizer.PrefixFilterConjunctive` | builtin/diff-blob.c:49-52 | if either path lacks the prefix, nothing is emitted; every emitted pair has the prefix on both of its (possibly swapped) paths |
| `PairNormalizer.EmittedModesResolved` | builtin/diff-blob.c:18-31 | an emitted spec's mode, the one passed to `fill_filespec`, is its entry's recorded mode, or the regular-file mode 0100644 when the entry's mode was invalid, and never `S_IFINVALID` |
| `PairNormalizer.EmittedPathsDefaulted` | builtin/diff-blob.c:33-37 | an emitted spec's path is its entry's recorded path, or else the name the entry was given by |
| `PairNormalizer.EmittedIdsSwappedTogether` | builtin/diff-blob.c:43-47 | the old spec's id comes from the first entry and the new spec's from the second, the other way round when reversed |
| `PairNormalizer.ReverseIsSwap` | builtin/diff-blob.c:39-47 | normalising (a, b) reversed gives the same result as normalising (b, a) unreversed |
| `PairNormalizer.ReverseSwapsSpecs` | builtin/diff-blob.c:43-47 | reversing emits exactly when not reversing does, with the old and new specs, each a whole (id, mode, path) triple, exchanged |
| `PairNormalizer.PairsOf` | builtin/diff-blob.c:54-62 | one call contributes at most one pair, none exactly when diff_blobs returned early |
| `PairNormalizer.DiffBlobs` | builtin/diff-blob.c:14-63 | the engine's pairs grow by exactly the normalised pair, or not at all |
| `Engine.DiffEngine.constructor` | builtin/diff-blob.c:60-62 | a fresh engine has emitted nothing |
| `Engine.DiffEngine.QueueAndFlush` | builtin/diff-blob.c:60-62 | queueing and flushing appends the pair to the engine's emitted pairs |
| `BatchDriver.ParseBlob` | builtin/diff-blob.c:73-80 | a name that does not resolve is "invalid object", one that resolves to a non-blob is "not a blob", and a blob gives an entry with that name, object, mode and recorded path |
| `BatchDriver.ResolveAll` | builtin/diff-blob.c:96-98 | the names parse without error iff each one does, into one entry per name in order; otherwise the error is that of the leftmost failing name |
| `BatchDriver.ParseBlobs` | builtin/diff-blob.c:96-98 | the loop over a line's tokens returns exactly `ResolveAll` of them |
| `BatchDriver.ParseLine` | builtin/diff-blob.c:93-98 | a usable line gives exactly two entries |
| `BatchDriver.ParseLineOk` | builtin/diff-blob.c:93-98 | a usable line holds one space and consists of the two blobs' names around it |
| `BatchDriver.MalformedIffSpaces` | builtin/diff-blob.c:93-94 | a line dies with "two blobs not provided" exactly when it does not hold exactly one space |
| `BatchDriver.Step` | builtin/diff-blob.c:89-104 | one line keeps all earlier pairs and adds at most one |
| `BatchDriver.Batch` | builtin/diff-blob.c:89-104 | a batch run emits at most one pair per line |
| `BatchDriver.BatchAppend` | builtin/diff-blob.c:89-104 | on concatenated input, a dead first part ends the run; otherwise the second part's pairs follow the first's and its outcome is the run's |
| `BatchDriver.FirstFatalLineEndsBatch` | builtin/diff-blob.c:89-98 | the first line that fails ends the run with its error, after exactly the pairs of the lines before it; no later line contributes |
| `BatchDriver.MalformedLineAborts` | builtin/diff-blob.c:93-94 | a line without exactly one space aborts the run with "two blobs not provided", keeping only the earlier lines' pairs |
| `BatchDriver.BatchInOrder` | builtin/diff-blob.c:89-104 | appending a usable line appends its pair after all pairs of the earlier lines |
| `BatchDriver.LinePairs` | builtin/diff-blob.c:89-104 | the pairs of usable lines read from the first line on, at most one per line |
| `BatchDriver.AllUsableInOrder` | builtin/diff-blob.c:89-104 | when every line is usable the run finishes without error and emits the lines' pairs in input order, line 1's first |
| `BatchDriver.ThreeTokensScenario` | builtin/diff-blob.c:93-94 | the input "A B C" dies with "two blobs not provided" and emits nothing |
| `BatchDriver.TwoLinesScenario` | builtin/diff-blob.c:89-104 | the input "A B", "C D" of four differing blobs emits A against B, then C against D, and no error |
| `BatchDriver.DiffBlobStdin` | builtin/diff-blob.c:84-107 | the loop appends to the engine exactly the batch run's pairs and returns its error |
| `Dispatcher.ValidInvocation` | builtin/diff-blob.c:146-175 | no contract of its own: 0 pending objects with `--stdin`, or 2 without it |
| `Dispatcher.Run` | builtin/diff-blob.c:146-175 | no contract of its own: the switch; the `Dispatcher` lemmas below state what it returns |
| `Dispatcher.UsageErrorExactly` | builtin/diff-blob.c:146-175 | the command is a usage error iff it is neither 0 pending objects with `--stdin` nor 2 without, and then emits nothing |
| `Dispatcher.UsageBeforeInput` | builtin/diff-blob.c:146-175 | a usage error does not depend on the input lines, the resolver or the diff options |
| `Dispatcher.InputOnlyInBatchMode` | builtin/diff-blob.c:146-175 | outside batch mode, the outcome does not depend on the input lines or the resolver |
| `Dispatcher.BatchModeRunsDriver` | builtin/diff-blob.c:147-156 | in batch mode the command emits the batch run's pairs and dies with its error, if any |
| `Dispatcher.SinglePairDiffedOnce` | builtin/diff-blob.c:157-172 | two pending blobs without `--stdin` finish normally and emit at most one pair, which is the normalised pair |
| `Dispatcher.NonBlobIsFatal` | builtin/diff-blob.c:164-168 | a pending non-blob is fatal ("not a blob", naming the old object when it is one) before anything is emitted |
| `Dispatcher.EmitsOnlyInValidModes` | builtin/diff-blob.c:146-175 | a pair is emitted only in batch mode or for two pending blobs without `--stdin` |
| `Dispatcher.SameBlobScenario` | builtin/diff-blob.c:157-172 | two different names for the same blob with the same mode finish normally with nothing emitted |
| `Dispatcher.CmdDiffBlob` | builtin/diff-blob.c:146-175 | the dispatch appends to the engine exactly `Run`'s pairs and returns its status |

## Left out

- builtin/survey.c: option and configuration plumbing with no decision logic; not part of this model.
- Option parsing, configuration and revision setup (`parse_options`, `repo_config`, `setup_revisions`, output-format defaulting, builtin/diff-blob.c:128-144): the pending objects, the `--stdin` flag and the diff options are inputs of `Run`.
- Object name resolution and parsing (`get_oid_with_context`, `parse_object_or_die`, `add_object_array_with_path`): an abstract `Resolver` partial function from a name to an object, mode and recorded path.
- BatchDriver.ParseBlob: a failure of `parse_object_or_die`, which dies with a message of its own, is folded into the resolver's "does not resolve" and so reported as "invalid object".
- Reading standard input (`strbuf_getline`): the input is a sequence of lines with their line endings already removed; a line holding a NUL byte is not modelled, since every string is a NUL-free C string.
- The diff engine (`alloc_filespec`, `fill_filespec`, `diff_queue`, `diffcore_std`, `diff_flush`): every queued pair is recorded as emitted, in order. Rename detection, pickaxe and the other diffcore transformations, and the rendering, are not modelled.
- `canon_mode` in general: diff_blobs uses only its value for `S_IFREG | 0644`, octal 0100644.
- PairNormalizer.EmittedModesResolved: the modes it states are the ones diff_blobs passes to `fill_filespec`; `fill_filespec` (diff.c, not part of this model) canonicalises them further, and that step is not modelled.
- The mode model: a resolver can report the `S_IFINVALID` value only as `Unspecified`, never as plain bits; diff_blobs treats both the same way, so no behaviour is lost.
- Object ids carry no hash algorithm; a real id is never the null id.
- The exit code (`diff_result_code`, builtin/diff-blob.c:177): the model reports how the command ended (`Finished`, `Died`, `UsageError`), not the number it exits with.
- `die()` and `usage_with_options` end the process; the model returns the error instead, and the engine keeps what was emitted before it.
- Memory and lifetime management (`string_list_clear`, `object_array_clear`, `strbuf_release`, `no_free`, `diff_free`, `release_revisions`).
