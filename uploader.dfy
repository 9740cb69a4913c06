/**
 The upload area: a drop zone that highlights while a file is dragged over
 it and forwards the first dropped file when it is audio, and a hidden file
 picker that forwards its first file whatever its type. Each handler returns
 the files it passes to `onFileSelect`, in call order.
 */
module Uploader {

  import opened Wrappers
  import opened Records

  const AudioPrefix: string := "audio/"

  /** `type.startsWith("audio/")`, compared character by character. */
  predicate IsAudio(mimeType: string) {
    AudioPrefix <= mimeType
  }

  /** The guard is a plain, case-sensitive prefix test. */
  lemma IsAudioExamples()
    ensures IsAudio("audio/mpeg") && IsAudio("audio/")
    ensures !IsAudio("video/mp4") && !IsAudio("Audio/mpeg") && !IsAudio("")
  {
    assert "Audio/mpeg"[0] != AudioPrefix[0];
    assert "video/mp4"[0] != AudioPrefix[0];
  }

  /** What a drop forwards: the first dropped file, when it is audio. */
  function DropSelection(files: seq<File>): (calls: seq<File>)
    ensures |calls| <= 1
    ensures calls != [] <==> files != [] && IsAudio(files[0].mimeType)
    ensures calls != [] ==> calls[0] == files[0]
  {
    if files != [] && IsAudio(files[0].mimeType) then [files[0]] else []
  }

  /** What a picker change forwards: its first file, when it has one. */
  function PickerSelection(files: Option<seq<File>>): (calls: seq<File>)
    ensures |calls| <= 1
    ensures calls != [] <==> files.Some? && files.value != []
    ensures calls != [] ==> calls[0] == files.value[0]
  {
    if files.Some? && files.value != [] then [files.value[0]] else []
  }

  /** A drop never forwards anything that is not audio, and never more than the first file. */
  lemma DropOnlyAudio(files: seq<File>)
    ensures forall f :: f in DropSelection(files) ==> IsAudio(f.mimeType) && f == files[0]
  {
  }

  /** Whatever a drop accepts, the picker would accept too. */
  lemma DropIsStricterThanPicker(files: seq<File>)
    ensures DropSelection(files) != [] ==> DropSelection(files) == PickerSelection(Some(files))
  {
  }

  /** The picker forwards a file of any type: the `accept` attribute is only a hint to the browser. */
  lemma PickerIgnoresType(f: File)
    ensures PickerSelection(Some([f])) == [f]
    ensures !IsAudio(f.mimeType) ==> DropSelection([f]) == []
  {
  }

  class FileUploader {
    var isDragging: bool

    constructor ()
      ensures !isDragging
    {
      isDragging := false;
    }

    /** `handleDragOver`. */
    method HandleDragOver()
      modifies this
      ensures isDragging
    {
      isDragging := true;
    }

    /** `handleDragLeave`. */
    method HandleDragLeave()
      modifies this
      ensures !isDragging
    {
      isDragging := false;
    }

    /** `handleDrop`: the highlight always goes off, then the guard decides. */
    method HandleDrop(files: seq<File>) returns (calls: seq<File>)
      modifies this
      ensures !isDragging
      ensures calls == DropSelection(files)
    {
      isDragging := false;
      calls := [];
      if files != [] {
        var file := files[0];
        if IsAudio(file.mimeType) {
          calls := [file];
        }
      }
    }

    /** `handleFileChange`: `e.target.files` may be missing or empty. */
    method HandleFileChange(files: Option<seq<File>>) returns (calls: seq<File>)
      ensures calls == PickerSelection(files)
    {
      calls := [];
      if files.Some? && files.value != [] {
        calls := [files.value[0]];
      }
    }
  }
}
