/** The `switch` of `cmd_diff_blob` over the number of pending objects and
    the `--stdin` flag. */
module Dispatcher {
  import opened CStrings
  import opened Types
  import opened Engine
  import opened PairNormalizer
  import opened BatchDriver

  /** How the command ends: normally, in `die()` with a fatal error, or in
      `usage_with_options`. */
  datatype Status = Finished | Died(error: Fatal) | UsageError

  /** The pairs handed to the diff engine over the whole command, in order,
      and how the command ended. */
  datatype Outcome = Outcome(pairs: seq<FilePair>, status: Status)

  /** The invocation shapes the command accepts: batch mode with no object
      on the command line, or exactly two objects without `--stdin`. */
  predicate ValidInvocation(pendingCount: nat, readStdin: bool)
  {
    (pendingCount == 0 && readStdin) || (pendingCount == 2 && !readStdin)
  }

  /** The command: 0 pending objects with `--stdin` runs the batch over the
      input lines; 2 pending objects without it checks that both are blobs,
      first the old then the new, and diffs them once; anything else is a
      usage error. */
  function Run(pending: seq<Entry>, readStdin: bool, lines: seq<CString>, resolve: Resolver, opts: DiffOptions): (r: Outcome)
  {
    if |pending| == 0 && readStdin then
      var b := Batch(lines, resolve, opts);
      Outcome(b.pairs, if b.error.Some? then Died(b.error.value) else Finished)
    else if |pending| == 2 && !readStdin then
      if pending[0].item.kind != Blob then Outcome([], Died(NotABlob(pending[0].name)))
      else if pending[1].item.kind != Blob then Outcome([], Died(NotABlob(pending[1].name)))
      else Outcome(PairsOf(Normalize(pending[0], pending[1], opts)), Finished)
    else Outcome([], UsageError)
  }

  /** A usage error happens exactly for the invocations outside the two
      accepted shapes, and then nothing is emitted. */
  lemma UsageErrorExactly(pending: seq<Entry>, readStdin: bool, lines: seq<CString>, resolve: Resolver, opts: DiffOptions)
    ensures var r := Run(pending, readStdin, lines, resolve, opts);
            (r.status == UsageError <==> !ValidInvocation(|pending|, readStdin)) &&
            (r.status == UsageError ==> r.pairs == [])
  {
  }

  /** A usage error is decided before any input line is read or any name is
      resolved: the lines, the resolver and the diff options make no
      difference to it. */
  lemma UsageBeforeInput(pending: seq<Entry>, readStdin: bool,
                         lines1: seq<CString>, resolve1: Resolver, opts1: DiffOptions,
                         lines2: seq<CString>, resolve2: Resolver, opts2: DiffOptions)
    requires !ValidInvocation(|pending|, readStdin)
    ensures Run(pending, readStdin, lines1, resolve1, opts1) == Run(pending, readStdin, lines2, resolve2, opts2)
  {
  }

  /** Only batch mode reads the input: with objects on the command line the
      outcome does not depend on the lines or the resolver. */
  lemma InputOnlyInBatchMode(pending: seq<Entry>, readStdin: bool, opts: DiffOptions,
                             lines1: seq<CString>, resolve1: Resolver,
                             lines2: seq<CString>, resolve2: Resolver)
    requires !(|pending| == 0 && readStdin)
    ensures Run(pending, readStdin, lines1, resolve1, opts) == Run(pending, readStdin, lines2, resolve2, opts)
  {
  }

  /** Batch mode emits what the batch run emits and dies with its error. */
  lemma BatchModeRunsDriver(readStdin: bool, lines: seq<CString>, resolve: Resolver, opts: DiffOptions)
    requires readStdin
    ensures var r, b := Run([], readStdin, lines, resolve, opts), Batch(lines, resolve, opts);
            r.pairs == b.pairs &&
            (b.error.None? ==> r.status == Finished) &&
            (b.error.Some? ==> r.status == Died(b.error.value))
  {
  }

  /** Two blobs without `--stdin` are diffed once: at most one pair, and
      exactly the normalised one. */
  lemma SinglePairDiffedOnce(oldBlob: Entry, newBlob: Entry, lines: seq<CString>, resolve: Resolver, opts: DiffOptions)
    requires oldBlob.item.kind == Blob && newBlob.item.kind == Blob
    ensures var r := Run([oldBlob, newBlob], false, lines, resolve, opts);
            r.status == Finished && |r.pairs| <= 1 &&
            (r.pairs != [] <==> Normalize(oldBlob, newBlob, opts).Some?) &&
            (r.pairs != [] ==> r.pairs[0] == Normalize(oldBlob, newBlob, opts).value)
  {
  }

  /** A pending object that is not a blob is fatal before anything is
      emitted; the old one is checked first. */
  lemma NonBlobIsFatal(oldBlob: Entry, newBlob: Entry, lines: seq<CString>, resolve: Resolver, opts: DiffOptions)
    requires oldBlob.item.kind != Blob || newBlob.item.kind != Blob
    ensures var r := Run([oldBlob, newBlob], false, lines, resolve, opts);
            r.pairs == [] &&
            r.status == Died(NotABlob(if oldBlob.item.kind != Blob then oldBlob.name else newBlob.name))
  {
  }

  /** A pair is emitted only in batch mode or for two pending blobs. */
  lemma EmitsOnlyInValidModes(pending: seq<Entry>, readStdin: bool, lines: seq<CString>, resolve: Resolver, opts: DiffOptions)
    requires Run(pending, readStdin, lines, resolve, opts).pairs != []
    ensures (|pending| == 0 && readStdin) ||
            (|pending| == 2 && !readStdin && pending[0].item.kind == Blob && pending[1].item.kind == Blob)
  {
  }

  /** Two different names for the same blob with the same mode: the
      command finishes and emits nothing. */
  lemma SameBlobScenario(oldBlob: Entry, newBlob: Entry, lines: seq<CString>, resolve: Resolver, opts: DiffOptions)
    requires oldBlob.item == newBlob.item && oldBlob.item.kind == Blob && oldBlob.item.oid.Id?
    requires oldBlob.mode == newBlob.mode && oldBlob.name != newBlob.name
    ensures Run([oldBlob, newBlob], false, lines, resolve, opts) == Outcome([], Finished)
  {
    EqualContentNotEmitted(oldBlob, newBlob, opts);
  }

  /** `cmd_diff_blob` from the point the pending objects are known. */
  method CmdDiffBlob(engine: DiffEngine, pending: seq<Entry>, readStdin: bool,
                     lines: seq<CString>, resolve: Resolver, opts: DiffOptions)
    returns (status: Status)
    modifies engine
    ensures engine.emitted == old(engine.emitted) + Run(pending, readStdin, lines, resolve, opts).pairs
    ensures status == Run(pending, readStdin, lines, resolve, opts).status
  {
    match |pending|
    case 0 =>
      if !readStdin {
        return UsageError;
      }
      var err := DiffBlobStdin(engine, lines, resolve, opts);
      status := if err.Some? then Died(err.value) else Finished;
    case 2 =>
      if readStdin {
        return UsageError;
      }
      var oldBlob, newBlob := pending[0], pending[1];
      if oldBlob.item.kind != Blob {
        return Died(NotABlob(oldBlob.name));
      }
      if newBlob.item.kind != Blob {
        return Died(NotABlob(newBlob.name));
      }
      DiffBlobs(engine, oldBlob, newBlob, opts);
      status := Finished;
    case _ =>
      status := UsageError;
  }
}
