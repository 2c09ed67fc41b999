/**
 * The temp-file registry: a set of scratch paths that can all be deleted at
 * once. The device filesystem is a set of existing paths; whether a given
 * deletion fails is an oracle.
 */
module TempManager {

  /** The files that exist on the device. */
  class FileSystem {
    var files: set<string>

    constructor (initial: set<string>)
      ensures files == initial
    {
      files := initial;
    }
  }

  /**
   * What cleanup leaves on the device: every registered file whose deletion
   * succeeds is gone, everything else is as before.
   */
  function AfterCleanup(files: set<string>, temps: set<string>, unlinkFails: string -> bool): (r: set<string>)
    ensures r <= files
    ensures forall f :: f in files && f !in temps ==> f in r
    ensures forall f :: f in temps && !unlinkFails(f) ==> f !in r
    ensures forall f :: f in files && f in temps && unlinkFails(f) ==> f in r
  {
    files - (set p | p in temps && !unlinkFails(p))
  }

  /** A second cleanup of the same paths removes nothing more. */
  lemma CleanupIdempotent(files: set<string>, temps: set<string>, unlinkFails: string -> bool)
    ensures AfterCleanup(AfterCleanup(files, temps, unlinkFails), temps, unlinkFails)
         == AfterCleanup(files, temps, unlinkFails)
  {
  }

  /** Handling one more registered path: it goes exactly when it exists and its deletion succeeds. */
  lemma CleanupStep(files: set<string>, done: set<string>, p: string, unlinkFails: string -> bool,
                    current: set<string>)
    requires current == AfterCleanup(files, done, unlinkFails)
    ensures AfterCleanup(files, done + {p}, unlinkFails)
         == if p in current && !unlinkFails(p) then current - {p} else current
  {
  }

  class TempRegistry {
    var tempFiles: set<string>

    constructor ()
      ensures tempFiles == {}
    {
      tempFiles := {};
    }

    /** `registerTemp`: adding a path already registered changes nothing. */
    method RegisterTemp(path: string)
      modifies this
      ensures tempFiles == old(tempFiles) + {path}
      ensures old(path in tempFiles) ==> tempFiles == old(tempFiles)
    {
      tempFiles := tempFiles + {path};
    }

    /**
     * `cleanupTemps`: unlinks each registered path that exists, swallowing
     * any error, then clears the registry. It never fails.
     */
    method CleanupTemps(fs: FileSystem, unlinkFails: string -> bool)
      modifies this, fs
      ensures tempFiles == {}
      ensures fs.files == AfterCleanup(old(fs.files), old(tempFiles), unlinkFails)
    {
      var pending := tempFiles;
      ghost var done: set<string> := {};
      while pending != {}
        invariant pending + done == old(tempFiles) && pending !! done
        invariant fs.files == AfterCleanup(old(fs.files), done, unlinkFails)
        invariant tempFiles == old(tempFiles)
        decreases |pending|
      {
        var p :| p in pending;
        CleanupStep(old(fs.files), done, p, unlinkFails, fs.files);
        if p in fs.files && !unlinkFails(p) {
          fs.files := fs.files - {p};
        }
        pending := pending - {p};
        done := done + {p};
      }
      tempFiles := {};
    }
  }
}
