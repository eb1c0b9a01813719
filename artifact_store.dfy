/**
 * The output directory: generated WAV files keyed by file name, each with
 * its bytes and its modification time in seconds. Saving writes one file,
 * downloading looks one up, and a cleanup pass deletes the files older than
 * the retention window.
 */
module ArtifactStore {

  /** A stored file: its bytes and its modification time. */
  datatype Artifact = Artifact(bytes: seq<bv8>, mtime: real)

  const RETENTION_SECONDS: real := 3600.0

  /** The file name an id is stored under. */
  function FileName(id: string): (name: string)
    ensures |name| == |id| + 4
    ensures name[..|id|] == id && name[|id|..] == ".wav"
  {
    id + ".wav"
  }

  /** Different ids are stored under different file names. */
  lemma FileNameInjective(a: string, b: string)
    requires a != b
    ensures FileName(a) != FileName(b)
  {
    if |a| == |b| {
      assert FileName(a)[..|a|] == a && FileName(b)[..|b|] == b;
    } else {
      assert |FileName(a)| != |FileName(b)|;
    }
  }

  /** A file older than the retention window at time `now`; a file exactly 3600 s old is not. */
  predicate Expired(a: Artifact, now: real): (b: bool)
    ensures b ==> a.mtime < now
    ensures now <= a.mtime + 3600.0 ==> !b
  {
    now - a.mtime > RETENTION_SECONDS
  }

  /** The files a complete cleanup pass at `now` leaves behind. */
  function Retained(files: map<string, Artifact>, now: real): (kept: map<string, Artifact>)
    ensures kept.Keys <= files.Keys
    ensures forall f :: f in kept ==> kept[f] == files[f] && !Expired(files[f], now)
    ensures forall f :: f in files && !Expired(files[f], now) ==> f in kept
  {
    map f | f in files && !Expired(files[f], now) :: files[f]
  }

  /** Running a second cleanup at the same instant deletes nothing more. */
  lemma RetainedIdempotent(files: map<string, Artifact>, now: real)
    ensures Retained(Retained(files, now), now) == Retained(files, now)
  {
  }

  /** A later cleanup deletes at least what an earlier one does, and running both is running the later one. */
  lemma RetainedShrinksOverTime(files: map<string, Artifact>, earlier: real, later: real)
    requires earlier <= later
    ensures Retained(files, later).Keys <= Retained(files, earlier).Keys
    ensures Retained(Retained(files, earlier), later) == Retained(files, later)
  {
  }

  /** A file saved at `saved` survives every cleanup up to and including `saved + 3600`, with its bytes intact. */
  lemma SavedFileRetrievableWithinWindow(files: map<string, Artifact>, id: string, bytes: seq<bv8>, saved: real, now: real)
    requires saved <= now <= saved + RETENTION_SECONDS
    ensures FileName(id) in Retained(files[FileName(id) := Artifact(bytes, saved)], now)
    ensures Retained(files[FileName(id) := Artifact(bytes, saved)], now)[FileName(id)].bytes == bytes
  {
  }

  /** A file saved at `saved` is gone after any complete cleanup later than `saved + 3600`. */
  lemma SavedFileGoneAfterWindow(files: map<string, Artifact>, id: string, bytes: seq<bv8>, saved: real, now: real)
    requires now > saved + RETENTION_SECONDS
    ensures FileName(id) !in Retained(files[FileName(id) := Artifact(bytes, saved)], now)
  {
  }

  /** What `/api/download/<id>` finds. */
  datatype Lookup = NotFound | Found(bytes: seq<bv8>)

  /** `OUTPUT_DIR` and the operations on it. */
  class OutputDir {
    var files: map<string, Artifact>

    /**
     * The directory as `os.makedirs(OUTPUT_DIR, exist_ok=True)` finds it: empty
     * on a first start, holding an earlier run's files after a restart.
     */
    constructor (initial: map<string, Artifact>)
      ensures files == initial
    {
      files := initial;
    }

    /** `sf.write(<dir>/<id>.wav, ...)` at time `now`: the file is created, or replaced, and nothing else changes. */
    method Save(id: string, bytes: seq<bv8>, now: real)
      modifies this
      ensures files == old(files)[FileName(id) := Artifact(bytes, now)]
    {
      files := files[FileName(id) := Artifact(bytes, now)];
    }

    /** `download_audio(id)`: not found exactly when `<id>.wav` does not exist, otherwise its bytes. */
    method Download(id: string) returns (r: Lookup)
      ensures r.NotFound? <==> FileName(id) !in files
      ensures r.Found? ==> r.bytes == files[FileName(id)].bytes
    {
      var name := FileName(id);
      if name !in files {
        return NotFound;
      }
      return Found(files[name].bytes);
    }

    /**
     * `cleanup_old_files()` with the clock reading `now`. The directory is
     * scanned in an unspecified order and every expired file is removed. A
     * file in `undeletable` makes `os.remove` raise; as the `try` wraps the
     * whole loop, the first such expired file ends the pass, and the files
     * not yet scanned stay. The pass completes exactly when no expired file
     * is undeletable, and a completed pass leaves exactly the retained files.
     */
    method CleanupOldFiles(now: real, undeletable: set<string>) returns (completed: bool)
      modifies this
      ensures files.Keys <= old(files).Keys
      ensures forall f :: f in files ==> files[f] == old(files)[f]
      ensures Retained(old(files), now).Keys <= files.Keys
      ensures completed <==> forall f :: f in old(files) && Expired(old(files)[f], now) ==> f !in undeletable
      ensures completed ==> files == Retained(old(files), now)
      ensures !completed ==> exists f :: f in files && f in undeletable && Expired(files[f], now)
    {
      var pending := files.Keys;
      completed := true;
      while pending != {}
        invariant pending <= files.Keys <= old(files).Keys
        invariant forall f :: f in files ==> files[f] == old(files)[f]
        invariant forall f :: f in old(files) && f !in pending ==> (f in files <==> !Expired(old(files)[f], now))
        invariant forall f :: f in old(files) && f !in pending && Expired(old(files)[f], now) ==> f !in undeletable
        decreases pending
      {
        var f :| f in pending;
        pending := pending - {f};
        if Expired(files[f], now) {
          if f in undeletable {
            completed := false;
            return;
          }
          files := map g | g in files && g != f :: files[g];
        }
      }
      assert files == Retained(old(files), now);
    }
  }
}
