/** The diff engine, reduced to what diff-blob can observe of it: the
    sequence of pairs that were queued and flushed, in order. */
module Engine {
  import opened Types

  class DiffEngine {
    /** Every pair queued with `diff_queue` and flushed with `diff_flush`. */
    var emitted: seq<FilePair>

    constructor ()
      ensures emitted == []
    {
      emitted := [];
    }

    /** `diff_queue` of one pair, then `diffcore_std` and `diff_flush`: the
        pair's output is complete before anything else is queued. */
    method QueueAndFlush(p: FilePair)
      modifies this
      ensures emitted == old(emitted) + [p]
    {
      emitted := emitted + [p];
    }
  }
}
