// The upload hook (src/hooks/useFileUpload.ts): a file is checked against a
// size limit and, when given, a list of allowed types, then stored under
// `<userId>/<timestamp>-<name>` and its public URL returned; an
// optimisation request follows whose failure is ignored.
//
// The storage bucket is the `objects` set of stored paths. `Date.now()` is
// `now`; the storage call's error, the optimiser's failure and the public
// URL the bucket gives a path are inputs.

module FileUpload {
  import opened Common

  datatype FileInfo = FileInfo(name: string, size: nat, mimeType: string)

  /** What `uploadFile` gives back: the public URL, or the message of what it threw. */
  datatype UploadResult = Uploaded(publicUrl: string) | UploadThrew(message: string)

  const MegaByte := 1024 * 1024
  const DefaultMaxSizeMB := 5

  /** `allowedTypes.join(', ')`. */
  function JoinWithComma(parts: seq<string>): string {
    if |parts| == 0 then ""
    else if |parts| == 1 then parts[0]
    else parts[0] + ", " + JoinWithComma(parts[1..])
  }

  /** The size check passes up to and including the limit. */
  predicate WithinSize(file: FileInfo, maxSizeMB: nat) {
    file.size <= maxSizeMB * MegaByte
  }

  /** `${userId}/${Date.now()}-${file.name}`. */
  function StoragePath(userId: string, now: nat, file: FileInfo): (path: string)
    ensures StartsWith(path, userId + "/")
    ensures EndsWith(path, "-" + file.name)
  {
    var path := userId + "/" + DecimalString(now) + "-" + file.name;
    AppendAssoc(userId, "/", DecimalString(now));
    AppendAssoc(userId + "/" + DecimalString(now), "-", file.name);
    assert path == userId + "/" + (DecimalString(now) + "-" + file.name);
    assert path[..|userId + "/"|] == userId + "/";
    assert path == (userId + "/" + DecimalString(now)) + ("-" + file.name);
    path
  }

  class FileUploader {
    const bucketName: string
    const maxSizeMB: nat
    const allowedTypes: Option<seq<string>>
    var isUploading: bool
    var progress: nat
    /** The paths stored in the bucket. */
    var objects: set<string>

    /** `useFileUpload({ bucketName, maxSizeMB = 5, allowedTypes })`. */
    constructor (bucketName: string, maxSizeMB: Option<nat>, allowedTypes: Option<seq<string>>, objects: set<string>)
      ensures this.bucketName == bucketName && this.allowedTypes == allowedTypes
      ensures this.maxSizeMB == if maxSizeMB.Some? then maxSizeMB.value else DefaultMaxSizeMB
      ensures !isUploading && progress == 0 && this.objects == objects
    {
      this.bucketName := bucketName;
      this.maxSizeMB := if maxSizeMB.Some? then maxSizeMB.value else DefaultMaxSizeMB;
      this.allowedTypes := allowedTypes;
      isUploading := false;
      progress := 0;
      this.objects := objects;
    }

    /**
     * `uploadFile(file, userId)`: an oversized file, or one whose type is
     * not allowed, throws before anything changes. Otherwise the upload
     * runs with the flag up; a storage error throws with progress left at
     * 0; success stores the path, sets progress to 100 and returns the
     * public URL, even when optimisation fails. The flag always ends down.
     */
    method UploadFile(file: FileInfo, userId: string, now: nat, storageError: Option<string>,
                      optimizeFails: bool, publicUrlOf: string -> string) returns (result: UploadResult)
      modifies this
      ensures !WithinSize(file, maxSizeMB) ==>
        result == UploadThrew("File size exceeds " + DecimalString(maxSizeMB) + "MB limit")
      ensures WithinSize(file, maxSizeMB) && allowedTypes.Some? && file.mimeType !in allowedTypes.value ==>
        result == UploadThrew("File type not allowed. Allowed types: " + JoinWithComma(allowedTypes.value))
      ensures var valid := WithinSize(file, maxSizeMB) && (allowedTypes.None? || file.mimeType in allowedTypes.value);
        && (!valid ==> isUploading == old(isUploading) && progress == old(progress) && objects == old(objects))
        && (valid ==> !isUploading)
        && (valid && storageError.Some? ==>
              result == UploadThrew(storageError.value) && progress == 0 && objects == old(objects))
        && (valid && storageError.None? ==>
              var path := StoragePath(userId, now, file);
              result == Uploaded(publicUrlOf(path)) && progress == 100 && objects == old(objects) + {path})
    {
      if !WithinSize(file, maxSizeMB) {
        return UploadThrew("File size exceeds " + DecimalString(maxSizeMB) + "MB limit");
      }
      if allowedTypes.Some? && file.mimeType !in allowedTypes.value {
        return UploadThrew("File type not allowed. Allowed types: " + JoinWithComma(allowedTypes.value));
      }
      isUploading := true;
      progress := 0;
      var path := StoragePath(userId, now, file);
      if storageError.Some? {
        result := UploadThrew(storageError.value);
      } else {
        objects := objects + {path};
        var publicUrl := publicUrlOf(path);
        // The optimisation request's failure is only logged.
        progress := 100;
        result := Uploaded(publicUrl);
      }
      isUploading := false;
    }
  }

  /** A file of exactly the limit is accepted and one byte more is refused. */
  lemma SizeLimitIsInclusive(name: string, mimeType: string, maxSizeMB: nat)
    ensures WithinSize(FileInfo(name, maxSizeMB * MegaByte, mimeType), maxSizeMB)
    ensures !WithinSize(FileInfo(name, maxSizeMB * MegaByte + 1, mimeType), maxSizeMB)
  {
  }
}
