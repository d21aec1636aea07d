/**
 How one durable file write (temporary file, fsync, rename, directory fsync)
 can end: it succeeds, it fails before the rename lands, or the rename lands
 and only the directory fsync fails.
 */
module DurableWrite {
  datatype WriteFault = Clean | FailOld | FailNew

  predicate Lands(f: WriteFault) {
    f != FailOld
  }

  function After<T>(f: WriteFault, before: T, written: T): T {
    if Lands(f) then written else before
  }
}
