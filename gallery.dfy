/** The community gallery: approved pictures newest first, and the upload
    dialog that stores a picture under the user's folder and submits it
    for approval. */
module Gallery {
  import opened Query
  import Text

  datatype GalleryItem = GalleryItem(id: string, imageUrl: string, caption: string, userId: string,
                                     productId: Option<string>, isApproved: bool, createdAt: string)

  /** The row `handleUpload` inserts into `ugc_gallery`. */
  datatype Submission = Submission(userId: string, imageUrl: string, caption: string, isApproved: bool)

  // ---------------------------------------------------------------------
  // Names

  /** `name.split('.').pop()`. */
  function FileExtension(name: string): (ext: string)
    ensures '.' !in ext
  {
    Text.SplitPiecesFree(name, '.');
    Text.Last(Text.Split(name, '.'))
  }

  /** The extension is what follows the last '.', and the whole name when
      there is none. */
  lemma ExtensionSpec(name: string)
    ensures var ext := FileExtension(name);
            |ext| <= |name| && name[|name| - |ext|..] == ext
            && ('.' in name ==> |ext| < |name| && name[|name| - |ext| - 1] == '.')
            && ('.' !in name ==> ext == name)
  {
    Text.SplitLastPiece(name, '.');
    Text.LastPieceIsEnd(name, '.');
  }

  /** `${user.id}/${Date.now()}.${fileExt}`, the clock reading given as
      `now`. */
  function StoragePath(userId: string, now: nat, fileName: string): (path: string)
    ensures |path| > |userId| && path[..|userId| + 1] == userId + "/"
  {
    userId + "/" + Text.NatToString(now) + "." + FileExtension(fileName)
  }

  /** The stored object keeps the extension of the chosen file. */
  lemma PathKeepsExtension(userId: string, now: nat, fileName: string)
    ensures FileExtension(StoragePath(userId, now, fileName)) == FileExtension(fileName)
  {
    var head := userId + "/" + Text.NatToString(now);
    assert StoragePath(userId, now, fileName) == head + ['.'] + FileExtension(fileName);
    Text.SplitAfterLast(head, '.', FileExtension(fileName));
  }

  // ---------------------------------------------------------------------
  // The upload

  datatype Toast = AuthenticationRequired | MissingInformation | UploadSuccessful | UploadFailed

  /** The two guards of `handleUpload`, in order; `None` lets it go on. */
  function Rejection(user: Option<string>, file: Option<string>, caption: string): (t: Option<Toast>)
    ensures t == Some(AuthenticationRequired) <==> user.None?
    ensures t == Some(MissingInformation) <==> user.Some? && (file.None? || Text.Trim(caption) == "")
    ensures t.None? <==> user.Some? && file.Some? && Text.Trim(caption) != ""
  {
    if user.None? then Some(AuthenticationRequired)
    else if file.None? || Text.Trim(caption) == "" then Some(MissingInformation)
    else None
  }

  /** The upload button is disabled while uploading and whenever the second
      guard would refuse. */
  predicate UploadDisabled(isUploading: bool, file: Option<string>, caption: string) {
    isUploading || file.None? || Text.Trim(caption) == ""
  }

  /** For a signed-in user the button is enabled exactly when, away from an
      upload in progress, the guards let the upload through. */
  lemma DisabledMatchesGuards(user: string, file: Option<string>, caption: string)
    ensures !UploadDisabled(false, file, caption) <==> Rejection(Some(user), file, caption).None?
  {
  }

  /** The `gallery` storage bucket and the `ugc_gallery` table. */
  class Store {
    var objects: seq<string>
    var submissions: seq<Submission>

    constructor (objects: seq<string>, submissions: seq<Submission>)
      ensures this.objects == objects && this.submissions == submissions
    {
      this.objects := objects;
      this.submissions := submissions;
    }
  }

  class Page {
    var galleryItems: seq<GalleryItem>
    var isUploading: bool
    var caption: string
    /** The chosen file, by name. */
    var selectedFile: Option<string>

    constructor ()
      ensures galleryItems == [] && !isUploading && caption == "" && selectedFile.None?
    {
      galleryItems := [];
      isUploading := false;
      caption := "";
      selectedFile := None;
    }

    /** `fetchGalleryItems`: the approved items, newest first as the query
        orders them; an error leaves the list as it was. */
    method Load(failed: bool, data: Option<seq<GalleryItem>>)
      modifies this
      ensures failed ==> galleryItems == old(galleryItems)
      ensures !failed && data.Some? ==> galleryItems == data.value
      ensures !failed && data.None? ==> galleryItems == []
      ensures isUploading == old(isUploading) && caption == old(caption) && selectedFile == old(selectedFile)
    {
      if !failed {
        galleryItems := if data.Some? then data.value else [];
      }
    }

    /** `handleFileSelect`: an empty choice keeps the previous file. */
    method SelectFile(file: Option<string>)
      modifies this
      ensures file.Some? ==> selectedFile == file
      ensures file.None? ==> selectedFile == old(selectedFile)
      ensures galleryItems == old(galleryItems) && isUploading == old(isUploading) && caption == old(caption)
    {
      if file.Some? {
        selectedFile := file;
      }
    }

    method SetCaption(text: string)
      modifies this
      ensures caption == text
      ensures galleryItems == old(galleryItems) && isUploading == old(isUploading) && selectedFile == old(selectedFile)
    {
      caption := text;
    }

    /** `handleUpload`. `now` is the clock, `publicUrl` what `getPublicUrl`
        gives for the path, and `uploadOk` and `insertOk` whether the two
        writes succeed. A failed insert leaves the uploaded object behind. */
    method Upload(user: Option<string>, now: nat, publicUrl: string, uploadOk: bool, insertOk: bool, store: Store)
      returns (t: Toast)
      modifies this, store
      ensures galleryItems == old(galleryItems)
      ensures var r := Rejection(user, old(selectedFile), old(caption));
              && (r.Some? ==> t == r.value && isUploading == old(isUploading)
                              && store.objects == old(store.objects)
                              && store.submissions == old(store.submissions)
                              && caption == old(caption) && selectedFile == old(selectedFile))
              && (r.None? ==>
                    var path := StoragePath(user.value, now, old(selectedFile).value);
                    && !isUploading
                    && store.objects == old(store.objects) + (if uploadOk then [path] else [])
                    && store.submissions == old(store.submissions)
                         + (if uploadOk && insertOk
                            then [Submission(user.value, publicUrl, Text.Trim(old(caption)), false)] else [])
                    && (uploadOk && insertOk ==> t == UploadSuccessful && caption == "" && selectedFile.None?)
                    && (!(uploadOk && insertOk) ==> t == UploadFailed && caption == old(caption)
                                                    && selectedFile == old(selectedFile)))
    {
      var r := Rejection(user, selectedFile, caption);
      if r.Some? {
        return r.value;
      }
      isUploading := true;
      var path := StoragePath(user.value, now, selectedFile.value);
      if !uploadOk {
        t := UploadFailed;
      } else {
        store.objects := store.objects + [path];
        if !insertOk {
          t := UploadFailed;
        } else {
          store.submissions := store.submissions + [Submission(user.value, publicUrl, Text.Trim(caption), false)];
          t := UploadSuccessful;
          caption := "";
          selectedFile := None;
        }
      }
      isUploading := false;
    }
  }

  /** A submitted row always waits for approval and carries a caption that
      is non-empty and trimmed. */
  lemma SubmissionAwaitsApproval(user: string, file: string, caption: string, publicUrl: string)
    requires Rejection(Some(user), Some(file), caption).None?
    ensures var s := Submission(user, publicUrl, Text.Trim(caption), false);
            !s.isApproved && s.caption != "" && Text.Trim(s.caption) == s.caption
  {
    Text.TrimIdempotent(caption);
  }
}
