/** `diff_blob_stdin` and `parse_blob_stdin`: the batch mode, which reads
    one pair of blob names per line and diffs each pair in input order,
    dying at the first line it cannot use. */
module BatchDriver {
  import opened CStrings
  import opened Types
  import opened Engine
  import opened PairNormalizer

  /** `parse_blob_stdin` for one name: resolve it, insist on a blob, and
      make the entry that carries the name, the object and the object
      context's mode and recorded path. */
  function ParseBlob(resolve: Resolver, name: CString): (r: Result<Entry>)
    ensures r.Ok? ==> r.value.item.kind == Blob && r.value.name == name
    ensures r.Ok? ==>
      (resolve(name).Some? &&
       r.value == Entry(resolve(name).value.obj, name, resolve(name).value.mode, resolve(name).value.path))
    ensures r.Ok? <==> resolve(name).Some? && resolve(name).value.obj.kind == Blob
    ensures r.Err? ==> r.error == (if resolve(name).None? then InvalidObject(name) else NotABlob(name))
  {
    match resolve(name)
    case None => Err(InvalidObject(name))
    case Some(res) =>
      if res.obj.kind != Blob then Err(NotABlob(name))
      else Ok(Entry(res.obj, name, res.mode, res.path))
  }

  /** The names of one line parsed left to right into the entries of the
      line's blob pair; the first name that fails, from the left, decides
      the error. */
  function ResolveAll(resolve: Resolver, names: seq<CString>): (r: Result<seq<Entry>>)
    ensures r.Ok? <==> forall i :: 0 <= i < |names| ==> ParseBlob(resolve, names[i]).Ok?
    ensures r.Ok? ==>
      (|r.value| == |names| &&
       forall i :: 0 <= i < |names| ==> ParseBlob(resolve, names[i]) == Ok(r.value[i]))
    ensures r.Err? ==>
      exists k :: (0 <= k < |names| && ParseBlob(resolve, names[k]) == Err(r.error) &&
                   forall j :: 0 <= j < k ==> ParseBlob(resolve, names[j]).Ok?)
    decreases |names|
  {
    if names == [] then Ok([])
    else
      var n := |names| - 1;
      var init := names[..n];
      assert forall i :: 0 <= i < n ==> init[i] == names[i];
      match ResolveAll(resolve, init)
      case Err(e) => Err(e)
      case Ok(entries) =>
        match ParseBlob(resolve, names[n])
        case Err(e) => Err(e)
        case Ok(entry) => Ok(entries + [entry])
  }

  /** One batch line: split it at every space, demand exactly two tokens,
      then parse both tokens. */
  function ParseLine(resolve: Resolver, line: CString): (r: Result<seq<Entry>>)
    ensures r.Ok? ==> |r.value| == 2
  {
    var tokens := Split(line);
    if |tokens| != 2 then Err(TwoBlobsNotProvided) else ResolveAll(resolve, tokens)
  }

  /** A usable line holds exactly one space, and its two entries are blobs
      named by the text on either side of it. */
  lemma ParseLineOk(resolve: Resolver, line: CString)
    requires ParseLine(resolve, line).Ok?
    ensures var blobs := ParseLine(resolve, line).value;
            multiset(line)[' '] == 1 &&
            line == blobs[0].name + " " + blobs[1].name &&
            blobs[0].item.kind == Blob && blobs[1].item.kind == Blob
  {
    TwoTokens(line);
  }

  /** A line is rejected as "two blobs not provided" exactly when it does not
      hold exactly one space (a name that fails gives another error). */
  lemma MalformedIffSpaces(resolve: Resolver, line: CString)
    ensures ParseLine(resolve, line) == Err(TwoBlobsNotProvided) <==> multiset(line)[' '] != 1
  {
    TwoTokens(line);
    var r := ResolveAll(resolve, Split(line));
    if r.Err? {
      var k :| 0 <= k < |Split(line)| && ParseBlob(resolve, Split(line)[k]) == Err(r.error);
    }
  }

  /** What a batch run has done: the pairs emitted, in order, and the fatal
      error it died with, if any. */
  datatype BatchResult = BatchResult(pairs: seq<FilePair>, error: Option<Fatal>)

  /** One line of the run: nothing more happens once the run has died; a
      line that fails kills it with its error; a usable line adds whatever
      `diff_blobs` emits for its pair. */
  function Step(before: BatchResult, line: CString, resolve: Resolver, opts: DiffOptions): (r: BatchResult)
    ensures |r.pairs| <= |before.pairs| + 1
    ensures before.pairs <= r.pairs
  {
    if before.error.Some? then before
    else
      match ParseLine(resolve, line)
      case Err(e) => BatchResult(before.pairs, Some(e))
      case Ok(blobs) => BatchResult(before.pairs + PairsOf(Normalize(blobs[0], blobs[1], opts)), None)
  }

  /** The batch run over `lines`, one line after the other. */
  function Batch(lines: seq<CString>, resolve: Resolver, opts: DiffOptions): (r: BatchResult)
    ensures |r.pairs| <= |lines|
    decreases |lines|
  {
    if lines == [] then BatchResult([], None)
    else Step(Batch(lines[..|lines| - 1], resolve, opts), lines[|lines| - 1], resolve, opts)
  }

  /** Pairs emitted earlier do not influence what a line does. */
  lemma StepAfter(earlier: seq<FilePair>, before: BatchResult, line: CString, resolve: Resolver, opts: DiffOptions)
    ensures var s := Step(before, line, resolve, opts);
            Step(BatchResult(earlier + before.pairs, before.error), line, resolve, opts) ==
              BatchResult(earlier + s.pairs, s.error)
  {
  }

  /** Running two stretches of input one after the other: if the first dies,
      the second is never looked at; otherwise the second's pairs follow the
      first's and its outcome is the run's. */
  lemma {:induction false} BatchAppend(l1: seq<CString>, l2: seq<CString>, resolve: Resolver, opts: DiffOptions)
    ensures var b1, b2 := Batch(l1, resolve, opts), Batch(l2, resolve, opts);
            Batch(l1 + l2, resolve, opts) ==
              if b1.error.Some? then b1 else BatchResult(b1.pairs + b2.pairs, b2.error)
    decreases |l2|
  {
    var b1 := Batch(l1, resolve, opts);
    if l2 == [] {
      assert l1 + l2 == l1;
      assert b1.pairs + [] == b1.pairs;
    } else {
      var n := |l2| - 1;
      BatchAppend(l1, l2[..n], resolve, opts);
      assert (l1 + l2)[..|l1 + l2| - 1] == l1 + l2[..n];
      assert (l1 + l2)[|l1 + l2| - 1] == l2[n];
      assert Batch(l1 + l2, resolve, opts) == Step(Batch(l1 + l2[..n], resolve, opts), l2[n], resolve, opts);
      if b1.error.None? {
        StepAfter(b1.pairs, Batch(l2[..n], resolve, opts), l2[n], resolve, opts);
      }
    }
  }

  /** Fail-fast: once line `k` fails, the run ends with that line's error;
      the pairs of the lines before it were already emitted and no later
      line is read. */
  lemma FirstFatalLineEndsBatch(lines: seq<CString>, k: nat, resolve: Resolver, opts: DiffOptions)
    requires k < |lines|
    requires Batch(lines[..k], resolve, opts).error.None?
    requires ParseLine(resolve, lines[k]).Err?
    ensures Batch(lines, resolve, opts) ==
      BatchResult(Batch(lines[..k], resolve, opts).pairs, Some(ParseLine(resolve, lines[k]).error))
  {
    assert lines[..k + 1][..k] == lines[..k];
    assert lines == lines[..k + 1] + lines[k + 1..];
    BatchAppend(lines[..k + 1], lines[k + 1..], resolve, opts);
  }

  /** A line at position `k` without exactly one space is fatal: the run
      stops there with "two blobs not provided", having emitted only the
      pairs of lines 0 to k-1. */
  lemma MalformedLineAborts(lines: seq<CString>, k: nat, resolve: Resolver, opts: DiffOptions)
    requires k < |lines|
    requires Batch(lines[..k], resolve, opts).error.None?
    requires multiset(lines[k])[' '] != 1
    ensures Batch(lines, resolve, opts) ==
      BatchResult(Batch(lines[..k], resolve, opts).pairs, Some(TwoBlobsNotProvided))
  {
    MalformedIffSpaces(resolve, lines[k]);
    FirstFatalLineEndsBatch(lines, k, resolve, opts);
  }

  /** Pairs come out in input order: the run over `lines + [line]` emits
      the pairs of `lines`, followed by the pair of `line`. */
  lemma BatchInOrder(lines: seq<CString>, line: CString, resolve: Resolver, opts: DiffOptions)
    requires Batch(lines, resolve, opts).error.None?
    requires ParseLine(resolve, line).Ok?
    ensures var blobs := ParseLine(resolve, line).value;
            Batch(lines + [line], resolve, opts) ==
              BatchResult(Batch(lines, resolve, opts).pairs + PairsOf(Normalize(blobs[0], blobs[1], opts)), None)
  {
  }

  /** The pairs of a run of usable lines, read from the first line on: each
      line's normalised pair, if any, in input order. */
  function LinePairs(lines: seq<CString>, resolve: Resolver, opts: DiffOptions): (pairs: seq<FilePair>)
    requires forall i :: 0 <= i < |lines| ==> ParseLine(resolve, lines[i]).Ok?
    ensures |pairs| <= |lines|
    decreases |lines|
  {
    if lines == [] then []
    else
      var blobs := ParseLine(resolve, lines[0]).value;
      assert forall i :: 0 <= i < |lines| - 1 ==> lines[1..][i] == lines[i + 1];
      PairsOf(Normalize(blobs[0], blobs[1], opts)) + LinePairs(lines[1..], resolve, opts)
  }

  /** When every line is usable the run does not die, and it emits line 1's
      pair, then line 2's, and so on to the last line's. */
  lemma {:induction false} AllUsableInOrder(lines: seq<CString>, resolve: Resolver, opts: DiffOptions)
    requires forall i :: 0 <= i < |lines| ==> ParseLine(resolve, lines[i]).Ok?
    ensures Batch(lines, resolve, opts) == BatchResult(LinePairs(lines, resolve, opts), None)
    decreases |lines|
  {
    if lines != [] {
      var head, tail := [lines[0]], lines[1..];
      assert forall i :: 0 <= i < |tail| ==> tail[i] == lines[i + 1];
      AllUsableInOrder(tail, resolve, opts);
      var blobs := ParseLine(resolve, lines[0]).value;
      var first := PairsOf(Normalize(blobs[0], blobs[1], opts));
      assert head[..0] == [];
      assert Batch(head, resolve, opts) == Step(BatchResult([], None), lines[0], resolve, opts);
      assert [] + first == first;
      assert Batch(head, resolve, opts) == BatchResult(first, None);
      assert head + tail == lines;
      BatchAppend(head, tail, resolve, opts);
    }
  }

  /** The input "A B C" has three tokens: it is fatal before any pair is
      emitted, whatever the names resolve to. */
  lemma ThreeTokensScenario(resolve: Resolver, opts: DiffOptions)
    ensures Batch(["A B C"], resolve, opts) == BatchResult([], Some(TwoBlobsNotProvided))
  {
  }

  /** The input "A B", "C D" where all four names are blobs, without a
      prefix and with the first two and last two of different content: two
      pairs, A against B and then C against D, and no error. */
  lemma TwoLinesScenario(resolve: Resolver, opts: DiffOptions, a: Entry, b: Entry, c: Entry, d: Entry)
    requires ParseBlob(resolve, "A") == Ok(a) && ParseBlob(resolve, "B") == Ok(b)
    requires ParseBlob(resolve, "C") == Ok(c) && ParseBlob(resolve, "D") == Ok(d)
    requires !SameContent(a, b) && !SameContent(c, d)
    requires opts == DiffOptions(false, None)
    ensures Batch(["A B", "C D"], resolve, opts) ==
      BatchResult([FilePair(Side(a), Side(b)), FilePair(Side(c), Side(d))], None)
  {
    LineOfTwo(resolve, 'A', 'B', a, b);
    LineOfTwo(resolve, 'C', 'D', c, d);
    var lines: seq<CString> := ["A B", "C D"];
    assert lines[..1] == ["A B"] && lines[..1][..0] == [];
    assert Batch(lines[..1], resolve, opts) == BatchResult([FilePair(Side(a), Side(b))], None);
  }

  /** A line of two one-letter blob names parses into their two entries. */
  lemma LineOfTwo(resolve: Resolver, x: char, y: char, a: Entry, b: Entry)
    requires x != ' ' && x != '\0' && y != ' ' && y != '\0'
    requires ParseBlob(resolve, [x]) == Ok(a) && ParseBlob(resolve, [y]) == Ok(b)
    ensures ParseLine(resolve, [x, ' ', y]) == Ok([a, b])
  {
    SplitPair(x, y);
    var r := ResolveAll(resolve, [[x], [y]]);
    assert r.Ok? && r.value[0] == a && r.value[1] == b;
    assert r.value == [a, b];
  }

  /** A line of two one-letter names splits into those names. */
  lemma SplitPair(x: char, y: char)
    requires x != ' ' && x != '\0' && y != ' ' && y != '\0'
    ensures Split([x, ' ', y]) == [[x], [y]]
  {
    var empty: CString := [];
    assert Split(empty) == [""];
    assert [y][1..] == empty;
    assert [y] + "" == [y] && [""][1..] == [];
    assert Split([y]) == [[y]];
    assert [' ', y][1..] == [y];
    assert Split([' ', y]) == ["", [y]];
    assert [x, ' ', y][1..] == [' ', y];
    assert [x] + "" == [x];
  }

  /** The `for_each_string_list_item` loop of diff_blob_stdin: parse each
      token in turn into the blob pair, dying at the first that fails. */
  method ParseBlobs(resolve: Resolver, names: seq<CString>) returns (r: Result<seq<Entry>>)
    ensures r == ResolveAll(resolve, names)
  {
    var blobPair: seq<Entry> := [];
    var i := 0;
    while i < |names|
      invariant 0 <= i <= |names|
      invariant ResolveAll(resolve, names[..i]) == Ok(blobPair)
    {
      assert names[..i + 1][..i] == names[..i];
      var entry := ParseBlob(resolve, names[i]);
      if entry.Err? {
        return Err(entry.error);
      }
      blobPair := blobPair + [entry.value];
      i := i + 1;
    }
    assert names[..i] == names;
    r := Ok(blobPair);
  }

  /** `diff_blob_stdin`: for each line, split it, parse both names and diff
      the pair; the first line that fails ends the run with its error. */
  method DiffBlobStdin(engine: DiffEngine, lines: seq<CString>, resolve: Resolver, opts: DiffOptions)
    returns (err: Option<Fatal>)
    modifies engine
    ensures engine.emitted == old(engine.emitted) + Batch(lines, resolve, opts).pairs
    ensures err == Batch(lines, resolve, opts).error
  {
    var i := 0;
    while i < |lines|
      invariant 0 <= i <= |lines|
      invariant Batch(lines[..i], resolve, opts).error.None?
      invariant engine.emitted == old(engine.emitted) + Batch(lines[..i], resolve, opts).pairs
    {
      assert lines[..i + 1][..i] == lines[..i];
      var tokens := Split(lines[i]);
      if |tokens| != 2 {
        FirstFatalLineEndsBatch(lines, i, resolve, opts);
        return Some(TwoBlobsNotProvided);
      }
      var blobPair := ParseBlobs(resolve, tokens);
      if blobPair.Err? {
        FirstFatalLineEndsBatch(lines, i, resolve, opts);
        return Some(blobPair.error);
      }
      DiffBlobs(engine, blobPair.value[0], blobPair.value[1], opts);
      i := i + 1;
    }
    assert lines[..i] == lines;
    err := None;
  }
}
