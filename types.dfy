/** The values diff-blob works on: object ids, file modes, resolved object
    array entries, the filespecs and file pairs handed to the diff engine,
    the diff options it reads, and the fatal errors it can die with. */
module Types {
  import opened CStrings

  datatype Option<T> = None | Some(value: T)

  /** An object id. `NullId` is git's null object id, kept apart from every
      real hash so that it can never compare equal to one by accident. */
  datatype ObjectId = NullId | Id(hash: seq<bv8>)

  datatype ObjectType = Commit | Tree | Blob | Tag

  /** The parsed object an entry points at (`entry->item`). */
  datatype Object = Object(oid: ObjectId, kind: ObjectType)

  /** `S_IFINVALID`, octal 030000: the value git uses for "no mode". */
  const S_IFINVALID: bv32 := 0x3000

  /** Mode bits other than the sentinel: the sentinel's value can only
      appear as `Unspecified`, never as bits. */
  type ModeBits = b: bv32 | b != S_IFINVALID

  /** A mode as recorded when a name was resolved; `Unspecified` is the
      `S_IFINVALID` sentinel, used when the name carried no mode. */
  datatype FileMode = Unspecified | Bits(bits: ModeBits)

  /** `struct object_array_entry`: the object, the name it was given by,
      the recorded mode and the recorded path (absent when none was
      recorded). */
  datatype Entry = Entry(item: Object, name: CString, mode: FileMode, path: Option<CString>)

  /** What diff_blobs hands to `alloc_filespec` and `fill_filespec` for one
      side: the path, the object id and the mode, which by its type is never
      the `S_IFINVALID` sentinel. */
  datatype Spec = Spec(path: CString, oid: ObjectId, mode: ModeBits)

  /** One queued (old, new) pair. */
  datatype FilePair = FilePair(one: Spec, two: Spec)

  /** The parts of `struct diff_options` diff-blob consults: the
      `reverse_diff` flag and the optional path prefix. */
  datatype DiffOptions = DiffOptions(reverse: bool, prefix: Option<CString>)

  /** The `die()` calls of diff-blob. */
  datatype Fatal =
    | InvalidObject(name: CString)   // "invalid object %s given"
    | NotABlob(name: CString)        // "object %s is not a blob"
    | TwoBlobsNotProvided            // "two blobs not provided"

  datatype Result<T> = Ok(value: T) | Err(error: Fatal)

  /** What name resolution yields for a name: the object and the object
      context's mode and recorded path. */
  datatype Resolved = Resolved(obj: Object, mode: FileMode, path: Option<CString>)

  /** Object name resolution followed by parsing the object, seen as a
      partial function: `None` when the name does not resolve. */
  type Resolver = CString -> Option<Resolved>
}
