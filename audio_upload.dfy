/**
 * The upload form of components/upload/audio-upload.tsx: the size gate on a
 * dropped file, the sanitised storage name and path, and the selected-file,
 * uploading and progress state around the upload.
 *
 * Outside the model: the drop zone's own filtering, the storage upload and
 * public URL (whether the upload succeeded is a parameter, and the handler
 * returns the path it would upload to), `new Date().getTime()` (a
 * parameter), toasts and rendering.
 */
module AudioUpload {
  import opened Wrappers
  import opened Text

  /** `MAX_FILE_SIZE`: 10 MiB. */
  const MaxFileSize: nat := 10 * 1024 * 1024

  /** A dropped file: its name, its size in bytes and its MIME type. */
  datatype File = File(name: string, size: nat, mime: string)

  /** The characters the sanitiser keeps: `[a-zA-Z0-9.-]`. */
  predicate Allowed(c: char) {
    ('a' <= c <= 'z') || ('A' <= c <= 'Z') || ('0' <= c <= '9') || c == '.' || c == '-'
  }

  /** The characters a sanitised name can hold: the allowed ones and `_`. */
  predicate StorageSafe(c: char) {
    Allowed(c) || c == '_'
  }

  /** `name.replace(/[^a-zA-Z0-9.-]/g, '_')`: every other character becomes `_`. */
  function Sanitize(name: string): string {
    seq(|name|, i requires 0 <= i < |name| => if Allowed(name[i]) then name[i] else '_')
  }

  /** Same length; allowed characters stay where they are and every other one is `_`; only safe characters come out. */
  lemma SanitizeShape(name: string)
    ensures |Sanitize(name)| == |name|
    ensures forall i :: 0 <= i < |name| ==> Sanitize(name)[i] == if Allowed(name[i]) then name[i] else '_'
    ensures forall i :: 0 <= i < |name| ==> StorageSafe(Sanitize(name)[i])
    ensures (forall i :: 0 <= i < |name| ==> Allowed(name[i])) ==> Sanitize(name) == name
  {
  }

  /** Sanitising a sanitised name changes nothing more than the `_` it already has. */
  lemma SanitizeIdempotent(name: string)
    ensures Sanitize(Sanitize(name)) == Sanitize(name)
  {
    var once := Sanitize(name);
    forall i | 0 <= i < |once|
      ensures Sanitize(once)[i] == once[i]
    {
      SanitizeShape(name);
    }
  }

  /** `${timestamp}-${sanitised}`. */
  function StoredName(timestamp: nat, name: string): string {
    NatToString(timestamp) + "-" + Sanitize(name)
  }

  /** `${user.id}/audio/${storedName}`. */
  function StoragePath(userId: string, timestamp: nat, name: string): string {
    userId + "/audio/" + StoredName(timestamp, name)
  }

  /**
   * The stored name is one path segment: it holds no `/`, and it reads back
   * as the timestamp followed by `-` and the sanitised name. The path is the
   * user's `audio` folder followed by exactly that segment, so the file lands
   * directly in that folder.
   */
  lemma StoredNameShape(userId: string, timestamp: nat, name: string)
    ensures '/' !in StoredName(timestamp, name)
    ensures ReadNat(StoredName(timestamp, name)) == Some((timestamp, "-" + Sanitize(name)))
    ensures var path, folder := StoragePath(userId, timestamp, name), userId + "/audio/";
            && path[..|folder|] == folder
            && path[|folder|..] == StoredName(timestamp, name)
            && '/' !in path[|folder|..]
  {
    var d, tail := NatToString(timestamp), "-" + Sanitize(name);
    assert StoredName(timestamp, name) == d + tail;
    ReadNatToString(timestamp, tail);
    SanitizeShape(name);
    forall i | 0 <= i < |d + tail|
      ensures (d + tail)[i] != '/'
    {
      if i >= |d| {
        assert (d + tail)[i] == tail[i - |d|];
      }
    }
  }

  /** Two uploads of the same file at different times go to different names. */
  lemma StoredNameDistinct(t1: nat, t2: nat, name: string)
    requires t1 != t2
    ensures StoredName(t1, name) != StoredName(t2, name)
  {
    StoredNameShape("", t1, name);
    StoredNameShape("", t2, name);
  }

  /** The form's state. */
  class Uploader {
    var file: Option<File>
    var uploading: bool
    var progress: nat

    constructor ()
      ensures file == None && !uploading && progress == 0
    {
      file := None;
      uploading := false;
      progress := 0;
    }

    /** `onDrop`: only the first file counts; one over the limit is refused and the selection kept. */
    method OnDrop(accepted: seq<File>)
      modifies this
      ensures |accepted| == 0 || accepted[0].size > MaxFileSize ==> file == old(file)
      ensures |accepted| > 0 && accepted[0].size <= MaxFileSize ==> file == Some(accepted[0])
      ensures uploading == old(uploading) && progress == old(progress)
    {
      if |accepted| == 0 {
        return;
      }
      var f := accepted[0];
      if f.size > MaxFileSize {
        return;
      }
      file := Some(f);
    }

    /**
     * `handleUpload`: nothing without a file and a user; otherwise the file
     * goes to the user's path, a success clears the selection and the
     * progress, and uploading is over either way.
     */
    method HandleUpload(user: Option<string>, timestamp: nat, succeeded: bool) returns (path: Option<string>)
      modifies this
      ensures old(file).None? || user.None? ==> path == None && unchanged(this)
      ensures old(file).Some? && user.Some? ==>
                && path == Some(StoragePath(user.value, timestamp, old(file).value.name))
                && !uploading
                && (succeeded ==> file == None && progress == 0)
                && (!succeeded ==> file == old(file) && progress == 0)
    {
      if file.None? || user.None? {
        return None;
      }
      uploading := true;
      progress := 0;
      path := Some(StoragePath(user.value, timestamp, file.value.name));
      if succeeded {
        file := None;
        progress := 0;
      }
      uploading := false;
    }
  }
}
