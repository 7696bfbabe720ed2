/** The audio directory: saving an upload, and the read-only reconciliation report. */
module Storage {
  import opened Domain
  import opened System
  import opened Ordering
  import opened Safety

  type Byte = b: int | 0 <= b < 256

  const CHUNK_SIZE := 1024 * 1024

  datatype SaveError = TooLarge | Empty | StorageError

  datatype SaveAnswer = Stored(key: Key, audio: Audio) | Refused(error: SaveError)

  class LocalStorage {
    const sha: seq<Byte> -> Digest
    var files: map<Key, seq<Byte>>       // final names
    var temporary: map<Key, seq<Byte>>   // names that start with .upload-

    // What the rest of the system sees of the directory.
    ghost function Disk(): map<Key, Audio>
      reads this
    {
      map k | k in files :: Audio(sha(files[k]), |files[k]|)
    }

    constructor (sha: seq<Byte> -> Digest)
      ensures this.sha == sha && files == map[] && temporary == map[]
    {
      this.sha := sha;
      files, temporary := map[], map[];
    }

    // Streams the source through a temporary file. Any I/O operation may fail, which `faults`
    // reports; a final name only ever appears with the complete content.
    // `w` is the service whose directory this is: a stored file is one step of `call`, and a refusal
    // is none.
    method Save(source: seq<Byte>, key: Key, temp: Key, ghost w: World, ghost call: CallId, ghost filename: string)
      returns (saved: SaveAnswer, ghost faults: bool)
      requires key !in files && temp !in temporary
      requires w.fs.files == Disk() && call !in w.fs.uploads && key !in w.fs.savers
      modifies this
      ensures saved.Stored? ==>
                var w' := Next(w, SaveFile(call, key, saved.audio, filename));
                && w'.fs.files == Disk()
                && call in w'.fs.uploads && w'.fs.uploads[call].phase.Saved?
                && w'.fs.uploads[call].key == saved.key && w'.fs.uploads[call].audio == saved.audio
      ensures saved.Refused? ==> w.fs.files == Disk()
      ensures saved.Stored? ==>
                && 0 < |source| <= MAX_AUDIO_BYTES
                && saved == Stored(key, Audio(sha(source), |source|))
                && files == old(files)[key := source] && temporary == old(temporary)
                && Disk() == old(Disk())[key := saved.audio]
      ensures saved.Refused? ==> files == old(files)
      ensures saved.Refused? && temporary != old(temporary) ==>
                faults && exists n :: 0 <= n <= |source| && temporary == old(temporary)[temp := source[..n]]
      ensures saved.Refused? && saved.error.StorageError? ==> faults
      ensures saved.Refused? && saved.error.TooLarge? ==> |source| > MAX_AUDIO_BYTES
      ensures saved.Refused? && saved.error.Empty? ==> source == []
      ensures !faults ==> (saved.Stored? <==> 0 < |source| <= 52428800)
    {
      hide Next;
      faults := false;
      var failed: bool := *;      // creating the directory or the temporary file
      if failed {
        faults := true;
        return Refused(StorageError), faults;
      }
      var size: nat := 0;
      var hashed: seq<Byte> := [];
      temporary := temporary[temp := []];
      var error: Option<SaveError> := None;
      while size < |source| && error.None?
        invariant size <= |source|
        invariant temp in temporary && temporary == old(temporary)[temp := temporary[temp]]
        invariant temporary[temp] <= source
        invariant files == old(files)
        invariant error.None? ==> temporary[temp] == hashed == source[..size] && size <= MAX_AUDIO_BYTES
        invariant error == Some(TooLarge) ==> |source| > MAX_AUDIO_BYTES
        invariant error == Some(StorageError) <==> faults
        invariant error != Some(Empty)
        decreases |source| - size, error.None?
      {
        failed := *;              // reading a chunk
        if failed {
          faults, error := true, Some(StorageError);
        } else {
          var next := if |source| - size < CHUNK_SIZE then |source| else size + CHUNK_SIZE;
          var chunk := source[size..next];
          size := next;
          if size > MAX_AUDIO_BYTES {
            error := Some(TooLarge);
          } else {
            hashed := hashed + chunk;
            failed := *;          // writing it
            if failed {
              faults, error := true, Some(StorageError);
            } else {
              temporary := temporary[temp := temporary[temp] + chunk];
            }
          }
        }
      }
      if error.None? && size == 0 {
        error := Some(Empty);
      }
      failed := *;                // the atomic rename
      if error.None? && failed {
        faults, error := true, Some(StorageError);
      }
      if error.None? {
        assert temporary[temp] == source;
        SaveFileStep(w, call, key, Audio(sha(hashed), size), filename);
        files := files[key := temporary[temp]];
        temporary := temporary - {temp};
        return Stored(key, Audio(sha(hashed), size)), faults;
      }
      failed := *;                // removing the temporary file
      if failed {
        faults := true;
        assert temporary[temp] == source[..|temporary[temp]|];
      } else {
        temporary := temporary - {temp};
      }
      return Refused(error.value), faults;
    }

    // A missing file counts as deleted.
    method Delete(key: Key) returns (removed: bool)
      modifies this
      ensures removed ==> files == old(files) - {key} && Disk() == old(Disk()) - {key}
      ensures !removed ==> files == old(files) && Disk() == old(Disk())
      ensures temporary == old(temporary)
    {
      var failed: bool := *;
      if failed {
        return false;
      }
      files := files - {key};
      return true;
    }
  }

  lemma SaveFileStep(w: World, call: CallId, key: Key, audio: Audio, filename: string)
    requires call !in w.fs.uploads && key !in w.fs.savers && 0 < audio.size <= MAX_AUDIO_BYTES
    ensures var w' := Next(w, SaveFile(call, key, audio, filename));
            && w'.fs.files == w.fs.files[key := audio]
            && call in w'.fs.uploads && w'.fs.uploads[call] == Upload(filename, key, audio, 0, Saved, None, None)
  {
  }

  // ---------- Reconciliation ----------

  // One directory entry; `temporary` says whether its name starts with .upload-.
  datatype Entry = Entry(name: Key, isFile: bool, temporary: bool)

  datatype Report = Report(missing: seq<Key>, unreferenced: seq<Key>, temporary: seq<Key>)

  function Sorted(keys: set<Key>): (out: seq<Key>)
    ensures forall k :: k in out <==> k in keys
    ensures |out| == |keys|
  {
    Ascending(keys, map k | k in keys :: 0)
  }

  function FinalNames(entries: seq<Entry>): set<Key> {
    set e | e in entries && e.isFile && !e.temporary :: e.name
  }

  function TemporaryNames(entries: seq<Entry>): set<Key> {
    set e | e in entries && e.isFile && e.temporary :: e.name
  }

  // Classifies the directory entries in one pass; nothing is deleted.
  method Audit(entries: seq<Entry>, referenced: set<Key>) returns (report: Report)
    ensures report.missing == Sorted(referenced - FinalNames(entries))
    ensures report.unreferenced == Sorted(FinalNames(entries) - referenced)
    ensures report.temporary == Sorted(TemporaryNames(entries))
    ensures forall k :: k in report.missing <==>
                          k in referenced && !exists e :: e in entries && e.isFile && !e.temporary && e.name == k
    ensures forall k :: k in report.unreferenced <==>
                          k !in referenced && exists e :: e in entries && e.isFile && !e.temporary && e.name == k
    ensures forall k :: k in report.temporary <==> exists e :: e in entries && e.isFile && e.temporary && e.name == k
  {
    var files: set<Key>, temporary: set<Key> := {}, {};
    for i := 0 to |entries|
      invariant files == FinalNames(entries[..i])
      invariant temporary == TemporaryNames(entries[..i])
    {
      assert entries[..i + 1] == entries[..i] + [entries[i]];
      if entries[i].isFile {
        if entries[i].temporary {
          temporary := temporary + {entries[i].name};
        } else {
          files := files + {entries[i].name};
        }
      }
    }
    assert entries[..|entries|] == entries;
    NamesAre(entries);
    return Report(Sorted(referenced - files), Sorted(files - referenced), Sorted(temporary));
  }

  lemma NamesAre(entries: seq<Entry>)
    ensures forall k :: k in FinalNames(entries) <==> exists e :: e in entries && e.isFile && !e.temporary && e.name == k
    ensures forall k :: k in TemporaryNames(entries) <==> exists e :: e in entries && e.isFile && e.temporary && e.name == k
  {
  }

  lemma SortedIsAscending(keys: set<Key>)
    ensures forall i, j :: 0 <= i < j < |Sorted(keys)| ==> Sorted(keys)[i] < Sorted(keys)[j]
  {
    AscendingIsSorted(keys, map k | k in keys :: 0);
  }

  ghost function ReferencedKeys(w: World): set<Key> {
    set r | r in w.db.recordings :: w.db.recordings[r].key
  }

  // What the report means when no upload is under way: missing files belong to recordings that
  // are being deleted; unreferenced files are exactly those of the uploads that never landed and
  // crashed, lost track of their COMMIT, or failed to clean up.
  lemma ReportMeans(w: World, entries: seq<Entry>, k: Key)
    requires Inv(w) && FinalNames(entries) == w.fs.files.Keys
    requires forall c :: c in w.fs.uploads ==> !InFlight(w.fs.uploads[c])
    ensures k in Sorted(ReferencedKeys(w) - FinalNames(entries)) ==>
              exists r :: r in w.db.recordings && w.db.recordings[r].key == k && w.db.recordings[r].deletedAt.Some?
    ensures k in Sorted(FinalNames(entries) - ReferencedKeys(w)) <==>
              (k in w.fs.savers &&
               var u := w.fs.uploads[w.fs.savers[k]];
               u.landed.None? && (u.phase.Crashed? || LostTrack(u) || CleanupFailed(u)))
  {
    QuiescentOrphans(w, k);
    assert Referenced(w, k) <==> k in ReferencedKeys(w);
    if k in ReferencedKeys(w) && k !in w.fs.files {
      var r :| r in w.db.recordings && w.db.recordings[r].key == k;
      MissingMeansDeleting(w, r);
    }
  }
}
