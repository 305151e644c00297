/**
 * The profile photo upload: the chosen file is checked, stored under the
 * user's folder in the `avatars` bucket, and its public address is written
 * to the profile.
 */
module AvatarUpload {
  import opened Wrappers
  import opened Schema
  import opened Text
  import opened Backend

  /** The largest accepted file, in bytes. */
  const MaxBytes := 5 * 1024 * 1024

  datatype Rejection = NotAnImage | TooLarge

  /** The two checks, in order: the type first, then the size. */
  function Check(file: StoredFile): (r: Option<Rejection>)
    ensures r.None? <==> StartsWith(file.mimeType, "image/") && file.size <= MaxBytes
    ensures r == Some(NotAnImage) <==> !StartsWith(file.mimeType, "image/")
  {
    if !StartsWith(file.mimeType, "image/") then Some(NotAnImage)
    else if file.size > MaxBytes then Some(TooLarge)
    else None
  }

  /** A file of exactly five mebibytes passes the size check; one byte more does not. */
  lemma SizeBoundIsInclusive(name: string)
    ensures Check(StoredFile(name, "image/png", MaxBytes)).None?
    ensures Check(StoredFile(name, "image/png", MaxBytes + 1)) == Some(TooLarge)
  {
    assert StartsWith("image/png", "image/");
  }

  /** `${userId}/avatar.${file.name.split(".").pop()}`. */
  function StorageKey(userId: Id, fileName: string): (key: string)
    ensures |key| == |userId| + 8 + |LastPiece(fileName, '.')|
  {
    userId + "/avatar." + LastPiece(fileName, '.')
  }

  /**
   * The key keeps the user's folder and ends with the text after the last
   * dot of the name, or the whole name when it has no dot; so every upload
   * of one user with the same extension lands on the same key.
   */
  lemma StorageKeyShape(userId: Id, fileName: string)
    ensures var key := StorageKey(userId, fileName);
      var ext := LastPiece(fileName, '.');
      && StartsWith(key, userId + "/avatar.")
      && key[|userId| + 8..] == ext
      && '.' !in ext
      && |ext| <= |fileName| && fileName[|fileName| - |ext|..] == ext
      && (|ext| < |fileName| ==> fileName[|fileName| - |ext| - 1] == '.')
      && ('.' !in fileName ==> ext == fileName)
  {
    var key := StorageKey(userId, fileName);
    LastPieceIsSuffix(fileName, '.');
    assert key[..|userId + "/avatar."|] == userId + "/avatar.";
    if '.' !in fileName {
      SplitNoSep(fileName, '.');
    }
  }

  /** The stored address: the public address of the object and a `?t=` cache-busting timestamp. */
  function AvatarUrl(publicUrl: string, now: nat): (url: string)
    ensures |url| > |publicUrl| + 3
  {
    publicUrl + "?t=" + Decimal(now)
  }

  /** The address starts with the public address, and the timestamp reads back after `?t=`. */
  lemma AvatarUrlShape(publicUrl: string, now: nat)
    ensures var url := AvatarUrl(publicUrl, now);
      && StartsWith(url, publicUrl + "?t=")
      && IsDigits(url[|publicUrl| + 3..]) && DigitsValue(url[|publicUrl| + 3..]) == now
  {
    var url := AvatarUrl(publicUrl, now);
    assert url[..|publicUrl + "?t="|] == publicUrl + "?t=";
    assert url[|publicUrl| + 3..] == Decimal(now);
    DecimalValue(now);
  }

  /** The writes of an accepted file, given which succeed: the avatar update only after a successful upload. */
  function UploadCalls(userId: Id, key: string, file: StoredFile, url: string, uploadOk: bool, updateOk: bool): (r: seq<Call>)
    ensures |r| == (if uploadOk then 2 else 1)
    ensures r[0] == Call.UploadAvatar(key, file, true, uploadOk)
  {
    var upload := Call.UploadAvatar(key, file, true, uploadOk);
    if uploadOk then [upload, Call.UpdateProfiles(ByUserId(userId), SetAvatar(url), updateOk)] else [upload]
  }

  /** The profile is only pointed at an object that was stored. */
  lemma UpdateFollowsUpload(userId: Id, key: string, file: StoredFile, url: string, uploadOk: bool, updateOk: bool)
    ensures var cs := UploadCalls(userId, key, file, url, uploadOk, updateOk);
      && cs[0].UploadAvatar? && cs[0].upsert
      && forall k :: 0 <= k < |cs| && cs[k].UpdateProfiles? ==> k == 1 && cs[0].ok
  {
  }

  datatype Outcome = NoFile | Rejected(reason: Rejection) | Failed | Uploaded(url: string)

  class AvatarWidget {
    const store: Store
    const userId: Id
    var isUploading: bool
    var previewUrl: Option<string>
    /** The addresses handed to `onAvatarUpdated`, in order. */
    var reported: seq<string>

    constructor (store: Store, userId: Id, currentAvatarUrl: Option<string>)
      ensures this.store == store && this.userId == userId
      ensures !isUploading && previewUrl == currentAvatarUrl && reported == []
    {
      this.store := store;
      this.userId := userId;
      isUploading := false;
      previewUrl := currentAvatarUrl;
      reported := [];
    }

    /**
     * `handleFileSelect`. No file, or a file refused by the checks, makes no
     * call and leaves the widget as it was. An accepted file goes through
     * `Upload` under `StorageKey` with the timestamped address. Uploading is
     * over when it returns.
     */
    method HandleFileSelect(file: Option<StoredFile>, publicUrl: string, now: nat, uploadOk: bool, updateOk: bool)
      returns (outcome: Outcome)
      modifies this, store
      ensures file.None? || Check(file.value).Some? ==>
        && outcome == (if file.None? then NoFile else Rejected(Check(file.value).value))
        && store.calls == old(store.calls) && store.db == old(store.db)
        && isUploading == old(isUploading) && previewUrl == old(previewUrl) && reported == old(reported)
      ensures file.Some? && Check(file.value).None? ==>
        var url := AvatarUrl(publicUrl, now);
        var key := StorageKey(userId, file.value.name);
        && !isUploading
        && store.calls == old(store.calls) + UploadCalls(userId, key, file.value, url, uploadOk, updateOk)
        && (uploadOk && updateOk ==> outcome == Uploaded(url) && previewUrl == Some(url) && reported == old(reported) + [url])
        && (!(uploadOk && updateOk) ==> outcome == Failed && previewUrl == old(previewUrl) && reported == old(reported))
        && store.db.profiles ==
             (if uploadOk && updateOk then PatchProfiles(old(store.db.profiles), ByUserId(userId), SetAvatar(url))
              else old(store.db.profiles))
        && store.db.avatars == (if uploadOk then old(store.db.avatars)[key := file.value] else old(store.db.avatars))
        && store.db == old(store.db).(profiles := store.db.profiles, avatars := store.db.avatars)
    {
      if file.None? {
        return NoFile;
      }
      var rejection := Check(file.value);
      if rejection.Some? {
        return Rejected(rejection.value);
      }
      isUploading := true;
      outcome := Upload(StorageKey(userId, file.value.name), file.value, AvatarUrl(publicUrl, now), uploadOk, updateOk);
      isUploading := false;
    }

    /**
     * The body of the `try`: the upload with upsert, then, only after it
     * succeeded, the profile's `avatar_url`; the preview and the callback
     * only after both writes succeeded.
     */
    method Upload(key: string, file: StoredFile, url: string, uploadOk: bool, updateOk: bool) returns (outcome: Outcome)
      modifies this, store
      ensures isUploading == old(isUploading)
      ensures store.calls == old(store.calls) + UploadCalls(userId, key, file, url, uploadOk, updateOk)
      ensures uploadOk && updateOk ==> outcome == Uploaded(url) && previewUrl == Some(url) && reported == old(reported) + [url]
      ensures !(uploadOk && updateOk) ==> outcome == Failed && previewUrl == old(previewUrl) && reported == old(reported)
      ensures store.db.profiles ==
        (if uploadOk && updateOk then PatchProfiles(old(store.db.profiles), ByUserId(userId), SetAvatar(url))
         else old(store.db.profiles))
      ensures store.db.avatars == (if uploadOk then old(store.db.avatars)[key := file] else old(store.db.avatars))
      ensures store.db == old(store.db).(profiles := store.db.profiles, avatars := store.db.avatars)
    {
      store.UploadAvatar(key, file, true, uploadOk);
      if !uploadOk {
        return Failed;
      }
      store.UpdateProfiles(ByUserId(userId), SetAvatar(url), updateOk);
      if !updateOk {
        return Failed;
      }
      previewUrl := Some(url);
      reported := reported + [url];
      outcome := Uploaded(url);
    }
  }
}
