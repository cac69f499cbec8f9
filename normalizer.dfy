/** `diff_blobs`: turns two resolved entries into at most one (old, new)
    pair for the diff engine. */
module PairNormalizer {
  import opened CStrings
  import opened Types
  import opened Engine

  /** `S_IFREG`, octal 0100000. */
  const S_IFREG: bv32 := 0x8000
  /** Permission bits octal 0644. */
  const PERMISSIONS_0644: bv32 := 0x1A4
  /** `canon_mode(S_IFREG | 0644)`, octal 0100644: canon_mode leaves a
      regular file with these permissions as it is. */
  const REGULAR_FILE_MODE: ModeBits := S_IFREG | PERMISSIONS_0644

  /** The mode an entry is diffed with: its own, or the regular-file mode
      when it has none. */
  function ResolvedMode(m: FileMode): (bits: ModeBits)
  {
    if m.Unspecified? then REGULAR_FILE_MODE else m.bits
  }

  /** The path an entry is diffed under: its recorded path, or else the name
      it was given by. */
  function ResolvedPath(e: Entry): (path: CString)
  {
    if e.path.Some? then e.path.value else e.name
  }

  /** The (oid, mode, path) triple of one side once diff_blobs has defaulted
      its mode and path; reversal moves the whole triple. */
  function Side(e: Entry): (side: Spec)
  {
    Spec(ResolvedPath(e), e.item.oid, ResolvedMode(e.mode))
  }

  /** Both sides name the same real object with the same mode: nothing to
      compare, whatever the paths are. */
  predicate Unchanged(x: Spec, y: Spec)
  {
    x.oid.Id? && y.oid.Id? && x.oid == y.oid && x.mode == y.mode
  }

  /** The prefix filter: with a prefix set, both paths must begin with it. */
  predicate InScope(p: FilePair, opts: DiffOptions)
  {
    opts.prefix.None? ||
    (HasPrefix(p.one.path, opts.prefix.value) && HasPrefix(p.two.path, opts.prefix.value))
  }

  /** The decision of `diff_blobs`: default modes and paths, drop an
      unchanged pair (before any reversal), swap the sides when reversed,
      drop a pair outside the prefix, and otherwise emit the pair. */
  function Normalize(a: Entry, b: Entry, opts: DiffOptions): (r: Option<FilePair>)
  {
    var x, y := Side(a), Side(b);
    if Unchanged(x, y) then None
    else
      var p := if opts.reverse then FilePair(y, x) else FilePair(x, y);
      if InScope(p, opts) then Some(p) else None
  }

  /** The pairs one call contributes: the normalised pair, or nothing. */
  function PairsOf(r: Option<FilePair>): (s: seq<FilePair>)
    ensures |s| <= 1
    ensures s == [] <==> r.None?
    ensures r.Some? ==> s[0] == r.value
  {
    if r.Some? then [r.value] else []
  }

  /** Two entries are content-equal: the same non-null object id and the
      same mode once an unspecified mode is read as the regular-file mode. */
  predicate SameContent(a: Entry, b: Entry)
  {
    Unchanged(Side(a), Side(b))
  }

  /** Exactly when a pair is emitted: the entries are not content-equal and,
      with a prefix set, both defaulted paths literally begin with it. */
  lemma WhenEmitted(a: Entry, b: Entry, opts: DiffOptions)
    ensures Normalize(a, b, opts).Some? <==>
      !SameContent(a, b) &&
      (opts.prefix.None? ||
       (opts.prefix.value <= ResolvedPath(a) && opts.prefix.value <= ResolvedPath(b)))
  {
  }

  /** Content-equal entries give nothing, whatever their paths, the
      reversal flag or the prefix. An unspecified mode and an explicit
      0100644 count as the same mode. */
  lemma EqualContentNotEmitted(a: Entry, b: Entry, opts: DiffOptions)
    requires a.item.oid.Id? && a.item.oid == b.item.oid
    requires ResolvedMode(a.mode) == ResolvedMode(b.mode)
    ensures Normalize(a, b, opts) == None
  {
  }

  /** A null id on either side never takes the equality short-cut: without a
      prefix such a pair is always emitted, with one only the filter decides. */
  lemma NullIdNeverSkipped(a: Entry, b: Entry, opts: DiffOptions)
    requires a.item.oid.NullId? || b.item.oid.NullId?
    ensures Normalize(a, b, opts).Some? <==>
      (opts.prefix.None? ||
       (opts.prefix.value <= ResolvedPath(a) && opts.prefix.value <= ResolvedPath(b)))
  {
  }

  /** The filter is conjunctive: a pair one of whose paths lacks the prefix is
      suppressed, even when the other path has it; and every emitted pair has
      the prefix on both (possibly swapped) paths. */
  lemma PrefixFilterConjunctive(a: Entry, b: Entry, opts: DiffOptions)
    requires opts.prefix.Some?
    ensures !(opts.prefix.value <= ResolvedPath(a)) || !(opts.prefix.value <= ResolvedPath(b))
      ==> Normalize(a, b, opts) == None
    ensures Normalize(a, b, opts).Some? ==>
      opts.prefix.value <= Normalize(a, b, opts).value.one.path &&
      opts.prefix.value <= Normalize(a, b, opts).value.two.path
  {
  }

  /** An emitted spec carries its entry's own mode when one was recorded and
      the regular-file mode 0100644 otherwise, never the invalid sentinel;
      the old spec comes from the new entry when reversed. */
  lemma EmittedModesResolved(a: Entry, b: Entry, opts: DiffOptions)
    requires Normalize(a, b, opts).Some?
    ensures var p := Normalize(a, b, opts).value;
            var first, second := if opts.reverse then b else a, if opts.reverse then a else b;
            (first.mode.Bits? ==> p.one.mode == first.mode.bits) &&
            (first.mode.Unspecified? ==> p.one.mode == REGULAR_FILE_MODE) &&
            (second.mode.Bits? ==> p.two.mode == second.mode.bits) &&
            (second.mode.Unspecified? ==> p.two.mode == REGULAR_FILE_MODE) &&
            p.one.mode != S_IFINVALID && p.two.mode != S_IFINVALID
  {
  }

  /** An emitted spec's path is its entry's recorded path, or the name it was
      given by when no path was recorded. */
  lemma EmittedPathsDefaulted(a: Entry, b: Entry, opts: DiffOptions)
    requires Normalize(a, b, opts).Some?
    ensures var p := Normalize(a, b, opts).value;
            var first, second := if opts.reverse then b else a, if opts.reverse then a else b;
            (first.path.Some? ==> p.one.path == first.path.value) &&
            (first.path.None? ==> p.one.path == first.name) &&
            (second.path.Some? ==> p.two.path == second.path.value) &&
            (second.path.None? ==> p.two.path == second.name)
  {
  }

  /** An emitted pair carries the entries' object ids, old from the first
      entry and new from the second, or the other way round when reversed. */
  lemma EmittedIdsSwappedTogether(a: Entry, b: Entry, opts: DiffOptions)
    requires Normalize(a, b, opts).Some?
    ensures var p := Normalize(a, b, opts).value;
            if opts.reverse then p.one.oid == b.item.oid && p.two.oid == a.item.oid
            else p.one.oid == a.item.oid && p.two.oid == b.item.oid
  {
  }

  /** Reversal is a swap of the entries: the short-cut is taken before it
      and sees the same pair either way, and the whole (oid, mode, path)
      triple moves at once. */
  lemma ReverseIsSwap(a: Entry, b: Entry, opts: DiffOptions)
    ensures Normalize(a, b, opts.(reverse := true)) == Normalize(b, a, opts.(reverse := false))
  {
  }

  /** Reversing emits exactly when not reversing does, with the two specs
      exchanged. */
  lemma ReverseSwapsSpecs(a: Entry, b: Entry, opts: DiffOptions)
    ensures var r, f := Normalize(a, b, opts.(reverse := true)), Normalize(a, b, opts.(reverse := false));
            r.Some? == f.Some? &&
            (r.Some? ==> r.value == FilePair(f.value.two, f.value.one))
  {
  }

  /** `diff_blobs` itself: queue and flush the normalised pair, if any. */
  method DiffBlobs(engine: DiffEngine, a: Entry, b: Entry, opts: DiffOptions)
    modifies engine
    ensures engine.emitted == old(engine.emitted) + PairsOf(Normalize(a, b, opts))
  {
    var r := Normalize(a, b, opts);
    if r.Some? {
      engine.QueueAndFlush(r.value);
    }
  }
}
