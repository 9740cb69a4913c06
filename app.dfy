/**
 The application shell: which of the three screens is showing, and the
 session's list of analysed records, newest first. Both live only in memory.
 */
module AppState {

  import opened Records
  import opened Sequences

  /** The screen selector, `"home" | "log" | "profile"`. */
  datatype Screen = Home | Log | Profile

  /** `prev.filter((file) => file.id !== id)`. */
  function RemoveId(files: seq<UploadedFile>, id: string): seq<UploadedFile> {
    Filter(files, (f: UploadedFile) => f.id != id)
  }

  /** Deletion keeps exactly the records with another id. */
  lemma RemoveIdMembers(files: seq<UploadedFile>, id: string)
    ensures forall f :: f in RemoveId(files, id) <==> f in files && f.id != id
  {
  }

  /** Deletion removes every copy of a matching record and keeps every copy of the others. */
  lemma RemoveIdMultiplicity(files: seq<UploadedFile>, id: string, f: UploadedFile)
    ensures multiset(RemoveId(files, id))[f] == if f.id == id then 0 else multiset(files)[f]
  {
    FilterMultiplicity(files, (g: UploadedFile) => g.id != id, f);
  }

  /** The records that remain keep their relative order. */
  lemma RemoveIdKeepsOrder(files: seq<UploadedFile>, id: string)
    ensures IsSubsequence(RemoveId(files, id), files)
  {
    FilterIsSubsequence(files, (f: UploadedFile) => f.id != id);
  }

  /** Deleting an id that no record carries changes nothing. */
  lemma RemoveIdAbsent(files: seq<UploadedFile>, id: string)
    requires forall i :: 0 <= i < |files| ==> files[i].id != id
    ensures RemoveId(files, id) == files
  {
    FilterAll(files, (f: UploadedFile) => f.id != id);
  }

  /** Deleting the same id twice is deleting it once. */
  lemma RemoveIdIdempotent(files: seq<UploadedFile>, id: string)
    ensures RemoveId(RemoveId(files, id), id) == RemoveId(files, id)
  {
    FilterIdempotent(files, (f: UploadedFile) => f.id != id);
  }

  /** How many records carry `id`. */
  function IdCount(files: seq<UploadedFile>, id: string): nat {
    |Filter(files, (f: UploadedFile) => f.id == id)|
  }

  /** Adding a record adds one more record with its id, even when the id is already present. */
  lemma AddKeepsDuplicates(files: seq<UploadedFile>, file: UploadedFile)
    ensures IdCount([file] + files, file.id) == IdCount(files, file.id) + 1
  {
    assert ([file] + files)[1..] == files;
  }

  /**
   The screens the shell renders: one conditional block per screen, each
   shown when `activeScreen` equals it.
   */
  function RenderedScreens(active: Screen): (shown: seq<Screen>)
    ensures shown == [active]
  {
    (if active == Home then [Home] else [])
    + (if active == Log then [Log] else [])
    + (if active == Profile then [Profile] else [])
  }

  /** The root component's state and its handlers. */
  class App {
    var activeScreen: Screen
    var uploadedFiles: seq<UploadedFile>

    /** The first render: the home screen and an empty log. */
    constructor ()
      ensures activeScreen == Home && uploadedFiles == []
    {
      activeScreen := Home;
      uploadedFiles := [];
    }

    /** `handleFileAnalyzed`: the new record goes in front of the old list. */
    method HandleFileAnalyzed(file: UploadedFile)
      modifies this
      ensures uploadedFiles == [file] + old(uploadedFiles)
      ensures |uploadedFiles| == |old(uploadedFiles)| + 1 && uploadedFiles[1..] == old(uploadedFiles)
      ensures activeScreen == old(activeScreen)
    {
      uploadedFiles := [file] + uploadedFiles;
    }

    /** `handleDeleteFile`: every record with this id leaves the list. */
    method HandleDeleteFile(id: string)
      modifies this
      ensures uploadedFiles == RemoveId(old(uploadedFiles), id)
      ensures forall f :: f in uploadedFiles <==> f in old(uploadedFiles) && f.id != id
      ensures activeScreen == old(activeScreen)
    {
      uploadedFiles := RemoveId(uploadedFiles, id);
      RemoveIdMembers(old(uploadedFiles), id);
    }

    /** `handleSelectFile`: whichever record is passed, go back to the home screen. */
    method HandleSelectFile(file: UploadedFile)
      modifies this
      ensures activeScreen == Home
      ensures uploadedFiles == old(uploadedFiles)
    {
      activeScreen := Home;
    }

    /** `onScreenChange = setActiveScreen`: any screen may follow any other. */
    method SetActiveScreen(screen: Screen)
      modifies this
      ensures activeScreen == screen
      ensures uploadedFiles == old(uploadedFiles)
    {
      activeScreen := screen;
    }
  }
}
