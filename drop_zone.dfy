/** The file drop area: which files count as audio, which of several dropped
    or picked files is looked at, and the drag highlight flag. The parent's
    `onFileSelected` callback and the browser's `alert` are recorded as logs
    on the component so that "called exactly once" can be stated. */
module DropZone {
  import opened Common

  /** What the component reads of a browser `File`. */
  datatype FileInfo = FileInfo(name: string, mimeType: string)

  /** The alternatives of `/\.(mp3|wav|ogg|m4a|flac)$/i`, in lower case. */
  const AudioExtensions: seq<string> := [".mp3", ".wav", ".ogg", ".m4a", ".flac"]

  /** The name ends, in any letter case, with one of the audio extensions. */
  predicate HasAudioExtension(name: string)
  {
    exists i :: 0 <= i < |AudioExtensions| && EndsWith(ToLowerAscii(name), AudioExtensions[i])
  }

  /** `validateAndPass`'s test: a MIME type starting with "audio/" (case
      sensitive), or an audio extension at the very end of the name. */
  predicate IsAudioFile(f: FileInfo)
  {
    StartsWith(f.mimeType, "audio/") || HasAudioExtension(f.name)
  }

  /** The extension test ignores letter case: a name and its lower-cased
      form are accepted alike. */
  lemma ExtensionCaseInsensitive(name: string)
    ensures HasAudioExtension(name) <==> HasAudioExtension(ToLowerAscii(name))
  {
    LowerIdempotent(name);
  }

  /** The extension must end the name: any name followed by ".txt" has no
      audio extension, so such a file is accepted only on its MIME type. */
  lemma ExtensionMustBeLast(name: string, mimeType: string)
    ensures !HasAudioExtension(name + ".txt")
    ensures IsAudioFile(FileInfo(name + ".txt", mimeType)) <==> StartsWith(mimeType, "audio/")
  {
    var full := name + ".txt";
    var k := |full| - 4;
    LowerSuffix(full, k);
    assert full[k..] == ".txt";
    assert ToLowerAscii(".txt") == ".txt";
    var low := ToLowerAscii(full);
    assert low[k..] == ".txt";
    forall i | 0 <= i < |AudioExtensions|
      ensures !EndsWith(low, AudioExtensions[i])
    {
      var e := AudioExtensions[i];
      if |e| <= |low| {
        assert low[|low| - 1] == 't';
        assert e[|e| - 1] != 't';
        assert low[|low| - |e|..][|e| - 1] == low[|low| - 1];
      }
    }
  }

  /** Every audio extension begins with a dot, so a name without a dot
      is accepted only on its MIME type. */
  lemma ExtensionNeedsDot(name: string)
    requires forall i :: 0 <= i < |name| ==> name[i] != '.'
    ensures !HasAudioExtension(name)
  {
    var low := ToLowerAscii(name);
    forall i | 0 <= i < |AudioExtensions|
      ensures !EndsWith(low, AudioExtensions[i])
    {
      var e := AudioExtensions[i];
      if |e| <= |low| {
        assert e[0] == '.';
        assert low[|low| - |e|..][0] == low[|low| - |e|];
      }
    }
  }

  /** Letter case of the extension does not matter: ".MP3" is accepted
      whatever the MIME type. */
  lemma UpperCaseExtensionAccepted(base: string, mimeType: string)
    ensures IsAudioFile(FileInfo(base + ".MP3", mimeType))
  {
    var full := base + ".MP3";
    var k := |full| - 4;
    LowerSuffix(full, k);
    assert full[k..] == ".MP3";
    var tail := ToLowerAscii(".MP3");
    assert tail == ".mp3" by {
      assert tail[0] == '.' && tail[1] == 'm' && tail[2] == 'p' && tail[3] == '3';
    }
    assert EndsWith(ToLowerAscii(full), AudioExtensions[0]);
  }

  /** Letter case of the MIME type does matter: for a name without an
      extension, "audio/wav" is accepted and "Audio/wav" is not. */
  lemma MimeTypeCaseSensitive(name: string)
    requires forall i :: 0 <= i < |name| ==> name[i] != '.'
    ensures IsAudioFile(FileInfo(name, "audio/wav"))
    ensures !IsAudioFile(FileInfo(name, "Audio/wav"))
  {
    ExtensionNeedsDot(name);
    assert "Audio/wav"[..6][0] == 'A';
  }

  /** What happens to a list of dropped or picked files. */
  datatype Selection = NoFile | Accepted(file: FileInfo) | Rejected(file: FileInfo)

  /** Only the first file is looked at; an empty list does nothing. */
  function Choose(files: seq<FileInfo>): (r: Selection)
    ensures r.NoFile? <==> files == []
    ensures r.Accepted? <==> files != [] && IsAudioFile(files[0])
    ensures r.Rejected? <==> files != [] && !IsAudioFile(files[0])
    ensures !r.NoFile? ==> r.file == files[0]
  {
    if files == [] then NoFile
    else if IsAudioFile(files[0]) then Accepted(files[0])
    else Rejected(files[0])
  }

  /** The files passed to the parent's callback for one selection. */
  function Delivered(s: Selection): (r: seq<FileInfo>)
    ensures |r| <= 1
    ensures |r| == 1 <==> s.Accepted?
    ensures s.Accepted? ==> r == [s.file]
  {
    if s.Accepted? then [s.file] else []
  }

  /** Files after the first never influence the outcome. */
  lemma OnlyFirstCounts(first: FileInfo, rest1: seq<FileInfo>, rest2: seq<FileInfo>)
    ensures Choose([first] + rest1) == Choose([first] + rest2)
  {
  }

  class DropArea {
    var isDragOver: bool
    /** Every file handed to `onFileSelected`, in order. */
    var selected: seq<FileInfo>
    /** How many "Please upload a valid audio file." alerts were shown. */
    var alerts: nat

    constructor ()
      ensures !isDragOver && selected == [] && alerts == 0
    {
      isDragOver := false;
      selected := [];
      alerts := 0;
    }

    method DragOver()
      modifies this
      ensures isDragOver
      ensures selected == old(selected) && alerts == old(alerts)
    {
      isDragOver := true;
    }

    method DragLeave()
      modifies this
      ensures !isDragOver
      ensures selected == old(selected) && alerts == old(alerts)
    {
      isDragOver := false;
    }

    /** `validateAndPass`: an accepted file reaches the callback exactly
        once, a rejected one never and raises one alert instead. */
    method ValidateAndPass(f: FileInfo)
      modifies this
      ensures isDragOver == old(isDragOver)
      ensures IsAudioFile(f) ==> selected == old(selected) + [f] && alerts == old(alerts)
      ensures !IsAudioFile(f) ==> selected == old(selected) && alerts == old(alerts) + 1
    {
      if StartsWith(f.mimeType, "audio/") || HasAudioExtension(f.name) {
        selected := selected + [f];
      } else {
        alerts := alerts + 1;
      }
    }

    /** `handleDrop`: clears the highlight, then validates the first file, if any. */
    method Drop(files: seq<FileInfo>)
      modifies this
      ensures !isDragOver
      ensures selected == old(selected) + Delivered(Choose(files))
      ensures alerts == old(alerts) + (if Choose(files).Rejected? then 1 else 0)
    {
      isDragOver := false;
      if |files| > 0 {
        ValidateAndPass(files[0]);
      }
    }

    /** `handleChange`: the input's file list may be absent; the highlight is untouched. */
    method Change(files: Option<seq<FileInfo>>)
      modifies this
      ensures isDragOver == old(isDragOver)
      ensures files.None? ==> selected == old(selected) && alerts == old(alerts)
      ensures files.Some? ==> selected == old(selected) + Delivered(Choose(files.value))
      ensures files.Some? ==> alerts == old(alerts) + (if Choose(files.value).Rejected? then 1 else 0)
    {
      if files.Some? && |files.value| > 0 {
        ValidateAndPass(files.value[0]);
      }
    }
  }
}
