/** The application shell: the selected file, the MIDI download link, the
    active tab and the per-stem active flags, and how user actions drive the
    transcription, player and separation hooks. The multi-stem transport
    (`playTracks`, `toggleTrackMute`) is an outside callee whose calls are
    recorded and not modelled further; the work after an `await` is a method of its
    own, called with what the awaited call produced. */
module App {
  import opened Common
  import opened Protocol
  import DropZone
  import TranscriberClient
  import AudioPlayer
  import Separation

  datatype Tab = MidiTab | SeparationTab

  /** The icons a stem card can show. */
  datatype Icon = Mic2 | Drum | Activity | Piano | Music | Layers

  /** A call made to the multi-stem transport. */
  datatype TransportCall = PlayTracks(names: seq<string>) | ToggleTrackMute(name: string, muted: bool)

  const NoNotesAlert: string := "No notes detected!"
  const LoadFailedAlert: string := "Failed to load audio file. Please try a different MP3 or WAV."

  // ---------------------------------------------------------------------
  // Stem icons

  /** `getStemIcon`: the five known stem names in any letter case, and the
      layers icon for every other name. */
  function StemIcon(name: string): (icon: Icon)
  {
    match ToLowerAscii(name)
    case "vocals" => Mic2
    case "drums" => Drum
    case "bass" => Activity
    case "piano" => Piano
    case "guitar" => Music
    case _ => Layers
  }

  /** Names differing only in letter case get the same icon, and only the
      five known names get a specific one. */
  lemma StemIconCaseInsensitive(name: string)
    ensures StemIcon(name) == StemIcon(ToLowerAscii(name))
    ensures StemIcon(name) != Layers <==>
              ToLowerAscii(name) in {"vocals", "drums", "bass", "piano", "guitar"}
  {
    LowerIdempotent(name);
  }

  // ---------------------------------------------------------------------
  // The MIDI download name: `name.replace(/\.[^/.]+$/, "") + ".mid"`

  /** The regex matches at `i`: a dot followed by one or more characters,
      none of them a dot or a slash, up to the end of the name. */
  predicate ExtensionAt(name: string, i: int)
  {
    0 <= i < |name| - 1 && name[i] == '.'
    && forall j :: i < j < |name| ==> name[j] != '.' && name[j] != '/'
  }

  /** Length of the longest suffix holding neither a dot nor a slash. */
  function PlainTailLength(s: string): (k: nat)
    ensures k <= |s|
    ensures forall j :: |s| - k <= j < |s| ==> s[j] != '.' && s[j] != '/'
    ensures k < |s| ==> s[|s| - k - 1] == '.' || s[|s| - k - 1] == '/'
    decreases |s|
  {
    if s == [] || s[|s| - 1] == '.' || s[|s| - 1] == '/' then 0
    else 1 + PlainTailLength(s[..|s| - 1])
  }

  /** The name with its extension, if it has one, removed. */
  function StripExtension(name: string): (stem: string)
  {
    var k := PlainTailLength(name);
    if 0 < k < |name| && name[|name| - k - 1] == '.' then name[..|name| - k - 1] else name
  }

  /** The download name offered for the MIDI file. */
  function MidiFileName(fileName: string): (r: string)
    ensures EndsWith(r, ".mid")
  {
    StripExtension(fileName) + ".mid"
  }

  /** The regex can match at one position at most. */
  lemma ExtensionUnique(name: string, i: int, j: int)
    requires ExtensionAt(name, i) && ExtensionAt(name, j)
    ensures i == j
  {
  }

  /** `StripExtension` removes exactly what the regex matches: the part from
      the matching dot on, or nothing when there is no match. */
  lemma StripExtensionMatchesRegex(name: string)
    ensures forall i :: ExtensionAt(name, i) ==> StripExtension(name) == name[..i]
    ensures (forall i :: !ExtensionAt(name, i)) ==> StripExtension(name) == name
  {
    var k := PlainTailLength(name);
    var d := |name| - k - 1;
    if 0 < k < |name| && name[d] == '.' {
      assert ExtensionAt(name, d);
      forall i | ExtensionAt(name, i) ensures StripExtension(name) == name[..i] {
        ExtensionUnique(name, i, d);
      }
    } else {
      forall i | 0 <= i < |name| ensures !ExtensionAt(name, i) {
        if i < d {
          assert i < d < |name| && (name[d] == '.' || name[d] == '/');
        } else if i == d {
          assert k == 0 || name[d] == '/';
        } else {
          assert |name| - k <= i && name[i] != '.';
        }
      }
    }
  }

  /** A name made of a base, a dot and a plain extension loses exactly
      the dot and the extension, whatever dots the base holds. */
  lemma StripPlainExtension(base: string, ext: string)
    requires ext != []
    requires forall j :: 0 <= j < |ext| ==> ext[j] != '.' && ext[j] != '/'
    ensures StripExtension(base + "." + ext) == base
    ensures MidiFileName(base + "." + ext) == base + ".mid"
  {
    var name := base + "." + ext;
    assert ExtensionAt(name, |base|) by {
      forall j | |base| < j < |name| ensures name[j] != '.' && name[j] != '/' {
        assert name[j] == ext[j - |base| - 1];
      }
    }
    StripExtensionMatchesRegex(name);
    assert name[..|base|] == base;
  }

  /** A name without a dot is kept whole. */
  lemma NoDotKeepsName(name: string)
    requires forall j :: 0 <= j < |name| ==> name[j] != '.'
    ensures StripExtension(name) == name
    ensures MidiFileName(name) == name + ".mid"
  {
    StripExtensionMatchesRegex(name);
    forall i ensures !ExtensionAt(name, i) {
      if 0 <= i < |name| { assert name[i] != '.'; }
    }
  }

  // ---------------------------------------------------------------------
  // Per-stem active flags

  /** How a stem card shows its flag: `activeTracks[name] !== false`, so a
      stem with no entry shows as active. */
  predicate ShownActive(tracks: map<string, bool>, name: string)
  {
    !(name in tracks && !tracks[name])
  }

  /** `toggleTrack`'s updater: the new flags and the `muted` argument of the
      `toggleTrackMute` call it makes. A missing entry reads as not active. */
  function ToggleTrack(tracks: map<string, bool>, name: string): (r: (map<string, bool>, bool))
  {
    var wasActive := name in tracks && tracks[name];
    (tracks[name := !wasActive], !(!wasActive))
  }

  /** Toggling flips only that stem's flag, and requests mute exactly when
      the stem was active before; every other stem is unchanged. */
  lemma ToggleTrackFlips(tracks: map<string, bool>, name: string)
    ensures var (after, muted) := ToggleTrack(tracks, name);
            && after.Keys == tracks.Keys + {name}
            && after[name] == !muted
            && (muted <==> name in tracks && tracks[name])
            && (forall other :: other in tracks && other != name ==> after[other] == tracks[other])
  {
  }

  /** For a stem that has an entry, toggling twice restores the flags and
      the two requests are a mute and an unmute, in some order. */
  lemma ToggleTwiceRestores(tracks: map<string, bool>, name: string)
    requires name in tracks
    ensures var (once, m1) := ToggleTrack(tracks, name);
            var (twice, m2) := ToggleTrack(once, name);
            twice == tracks && m1 != m2
  {
  }

  /** A stem with no entry shows as active, yet its first toggle sets it
      active and requests unmute, so the display does not change. */
  lemma ToggleMissingEntry(tracks: map<string, bool>, name: string)
    requires name !in tracks
    ensures ShownActive(tracks, name)
    ensures var (after, muted) := ToggleTrack(tracks, name);
            after[name] && !muted && ShownActive(after, name)
  {
  }

  /** The `forEach` that marks every loaded stem active. */
  method InitialActiveTracks(names: seq<string>) returns (tracks: map<string, bool>)
    ensures tracks.Keys == set i | 0 <= i < |names| :: names[i]
    ensures forall name :: name in tracks ==> tracks[name]
  {
    tracks := map[];
    var i := 0;
    while i < |names|
      invariant 0 <= i <= |names|
      invariant tracks.Keys == set j | 0 <= j < i :: names[j]
      invariant forall name :: name in tracks ==> tracks[name]
    {
      tracks := tracks[names[i] := true];
      i := i + 1;
    }
  }

  // ---------------------------------------------------------------------
  // MIDI generation

  /** `generateMidi`: no URL for an empty note list, otherwise the URL of
      the encoded file. The encoder is an outside callee. */
  function GenerateMidi(notes: seq<NoteEvent>, encode: seq<NoteEvent> -> string): (url: Option<string>)
    ensures url.None? <==> notes == []
    ensures notes != [] ==> url == Some(encode(notes))
  {
    if |notes| == 0 then None else Some(encode(notes))
  }

  // ---------------------------------------------------------------------
  // The component's state

  /** The shell's own state fields, together with the logs of the calls it
      makes to outside code (the transport, `separateAudio`, `alert`). */
  datatype ShellState = ShellState(
    file: Option<DropZone.FileInfo>,
    midiUrl: Option<string>,
    activeTab: Tab,
    activeTracks: map<string, bool>,
    isStemsLoading: bool,
    transportCalls: seq<TransportCall>,
    separationRequests: seq<(DropZone.FileInfo, string)>,
    alerts: seq<string>)

  /** The state at mount: no file, no link, the MIDI tab, no stem flags. */
  const InitialShell: ShellState := ShellState(None, None, MidiTab, map[], false, [], [], [])

  class Shell {
    var file: Option<DropZone.FileInfo>
    var midiUrl: Option<string>
    var activeTab: Tab
    var activeTracks: map<string, bool>
    var isStemsLoading: bool
    /** Calls made to the multi-stem transport, in order. */
    var transportCalls: seq<TransportCall>
    /** `separateAudio` calls: the file and the model requested. */
    var separationRequests: seq<(DropZone.FileInfo, string)>
    var alerts: seq<string>

    const transcriber: TranscriberClient.Transcriber
    const player: AudioPlayer.Player
    const separation: Separation.SourceSeparation

    ghost predicate Valid()
      reads this, player
    {
      player.Valid()
    }

    function Snapshot(): (s: ShellState)
      reads this
    {
      ShellState(file, midiUrl, activeTab, activeTracks, isStemsLoading, transportCalls, separationRequests, alerts)
    }

    /** Mounting the component: every hook in its initial state, and the
        transcriber's mount effect has created the worker and posted INIT. */
    constructor ()
      ensures Valid()
      ensures Snapshot() == InitialShell
      ensures fresh(transcriber) && fresh(player) && fresh(separation)
      ensures transcriber.Snapshot() == TranscriberClient.Initial
      ensures transcriber.hasWorker && transcriber.sent == [Init] && transcriber.alerts == []
      ensures player.context == None && player.sources == [] && player.current == None
      ensures player.analyser == None && !player.isPlaying
      ensures !separation.isSeparating && separation.result == None && separation.error == None
    {
      file, midiUrl, activeTab, activeTracks := None, None, MidiTab, map[];
      isStemsLoading := false;
      transportCalls, separationRequests, alerts := [], [], [];
      var t := new TranscriberClient.Transcriber();
      t.Mount();
      transcriber := t;
      player := new AudioPlayer.Player();
      separation := new Separation.SourceSeparation();
    }

    /** `handleFileSelected` up to its first `await`: take the file, clear
        the MIDI link, both hooks and the stem flags, and show the MIDI tab. */
    method HandleFileSelected(selected: DropZone.FileInfo)
      modifies this, transcriber, separation
      ensures Snapshot() == old(Snapshot()).(file := Some(selected), midiUrl := None, activeTracks := map[], activeTab := MidiTab)
      ensures transcriber.Snapshot() == TranscriberClient.Initial && transcriber.KeepsWorker()
      ensures !separation.isSeparating && separation.result == None && separation.error == None
    {
      file := Some(selected);
      midiUrl := None;
      transcriber.ResetTranscriber();
      separation.ResetSeparation();
      activeTracks := map[];
      activeTab := MidiTab;
    }

    /** After the file's bytes are read: `initAudioContext` runs before
        the decode is awaited, so a decode failure leaves the context (and
        any new analyser) in place. */
    method FileBytesRead()
      requires Valid()
      modifies player
      ensures Valid() && player.ContextReady()
    {
      var _ := player.InitAudioContext();
    }

    /** After the decode: the buffer plays before the resampling is awaited,
        so a resampling failure leaves it playing. */
    method FileDecoded(buffer: AudioPlayer.AudioBuffer)
      requires Valid()
      modifies player
      ensures Valid() && player.Played(buffer) && player.FlagAccurate()
    {
      player.PlayAudio(buffer);
    }

    /** After the resampling: start transcribing the resampled audio. */
    method FileResampled(channelData: seq<real>, sampleRate: real)
      modifies transcriber
      ensures transcriber.hasWorker == old(transcriber.hasWorker)
      ensures transcriber.hasWorker ==>
                transcriber.Snapshot() == TranscriberClient.Processing
                && transcriber.sent == old(transcriber.sent) + [Process(channelData, sampleRate)]
                && transcriber.alerts == old(transcriber.alerts)
      ensures !transcriber.hasWorker ==>
                transcriber.Snapshot() == old(transcriber.Snapshot()) && transcriber.sent == old(transcriber.sent)
                && transcriber.alerts == old(transcriber.alerts) + [TranscriberClient.NoWorkerAlert]
    {
      transcriber.StartTranscription(channelData, sampleRate);
    }

    /** The `catch` of `handleFileSelected`, after whichever await failed:
        alert and reset the transcriber. What the steps before the failure
        did to the player stays. */
    method FileLoadFailed()
      modifies this, transcriber
      ensures Snapshot() == old(Snapshot()).(alerts := old(alerts) + [LoadFailedAlert])
      ensures transcriber.Snapshot() == TranscriberClient.Initial && transcriber.KeepsWorker()
    {
      alerts := alerts + [LoadFailedAlert];
      transcriber.ResetTranscriber();
    }

    /** `handleSeparate`: nothing without a file, otherwise a separation
        request for it with the six-stem model. */
    method HandleSeparate()
      modifies this, separation
      ensures file.None? ==> Snapshot() == old(Snapshot())
                             && separation.isSeparating == old(separation.isSeparating)
                             && separation.result == old(separation.result)
                             && separation.error == old(separation.error)
      ensures file.Some? ==> Snapshot() == old(Snapshot()).(separationRequests :=
                                             old(separationRequests) + [(file.value, Separation.DefaultModel)])
                             && separation.isSeparating && separation.result == None && separation.error == None
    {
      if file.Some? {
        separationRequests := separationRequests + [(file.value, Separation.DefaultModel)];
        separation.Begin();
      }
    }

    /** `reset` ("Another File"): clear the file, the link, both hooks and
        the stem flags, and stop the player. The tab is left as it is. */
    method Reset()
      requires Valid()
      modifies this, player, transcriber, separation
      ensures Valid()
      ensures Snapshot() == old(Snapshot()).(file := None, midiUrl := None, activeTracks := map[])
      ensures player.StopsCurrent() && player.FlagAccurate()
      ensures transcriber.Snapshot() == TranscriberClient.Initial && transcriber.KeepsWorker()
      ensures !separation.isSeparating && separation.result == None && separation.error == None
    {
      file := None;
      midiUrl := None;
      player.StopAudio();
      transcriber.ResetTranscriber();
      separation.ResetSeparation();
      activeTracks := map[];
    }

    /** Either tab button: stop the player, then switch. */
    method SelectTab(tab: Tab)
      requires Valid()
      modifies this, player
      ensures Valid()
      ensures Snapshot() == old(Snapshot()).(activeTab := tab)
      ensures player.StopsCurrent() && player.FlagAccurate()
    {
      player.StopAudio();
      activeTab := tab;
    }

    /** `toggleTrack`: flip the stem's flag and tell the transport. */
    method ToggleTrackOf(name: string)
      modifies this
      ensures Snapshot() == old(Snapshot()).(
                activeTracks := ToggleTrack(old(activeTracks), name).0,
                transportCalls := old(transportCalls) + [ToggleTrackMute(name, ToggleTrack(old(activeTracks), name).1)])
    {
      var (after, muted) := ToggleTrack(activeTracks, name);
      transportCalls := transportCalls + [ToggleTrackMute(name, muted)];
      activeTracks := after;
    }

    /** The stem-loading effect's start: with a separation result on the
        separation tab, show the loading state and make sure the audio
        context exists; otherwise nothing happens. */
    method StemsLoadStarted() returns (started: bool)
      requires Valid()
      modifies this, player
      ensures Valid()
      ensures started <==> separation.result.Some? && activeTab == SeparationTab
      ensures started ==> Snapshot() == old(Snapshot()).(isStemsLoading := true) && player.ContextReady()
      ensures !started ==> Snapshot() == old(Snapshot()) && unchanged(player)
    {
      started := separation.result.Some? && activeTab == SeparationTab;
      if started {
        isStemsLoading := true;
        var _ := player.InitAudioContext();
      }
    }

    /** A stem failed to download or decode: the loading state ends and
        nothing reaches the transport. */
    method StemsLoadFailed()
      modifies this
      ensures Snapshot() == old(Snapshot()).(isStemsLoading := false)
    {
      isStemsLoading := false;
    }

    /** The stem-loading effect once every stem is decoded and the effect is
        still current: hand the stems to the transport and mark them all active. */
    method StemsLoaded(names: seq<string>)
      modifies this
      ensures Snapshot() == old(Snapshot()).(
                transportCalls := old(transportCalls) + [PlayTracks(names)],
                activeTracks := activeTracks,
                isStemsLoading := false)
      ensures activeTracks.Keys == set i | 0 <= i < |names| :: names[i]
      ensures forall name :: name in activeTracks ==> activeTracks[name]
    {
      transportCalls := transportCalls + [PlayTracks(names)];
      activeTracks := InitialActiveTracks(names);
      isStemsLoading := false;
    }

    /** The effect on a new transcription result: a download link, or an
        alert when no notes were detected. */
    method TranscriptionResultChanged(encode: seq<NoteEvent> -> string)
      modifies this
      ensures transcriber.result.None? ==> Snapshot() == old(Snapshot())
      ensures transcriber.result.Some? && transcriber.result.value != [] ==>
                Snapshot() == old(Snapshot()).(midiUrl := Some(encode(transcriber.result.value)))
      ensures transcriber.result == Some([]) ==>
                Snapshot() == old(Snapshot()).(alerts := old(alerts) + [NoNotesAlert])
    {
      if transcriber.result.Some? {
        var url := GenerateMidi(transcriber.result.value, encode);
        if url.Some? {
          midiUrl := url;
        } else {
          alerts := alerts + [NoNotesAlert];
        }
      }
    }
  }

  /** A file selected right after mount whose every await succeeds: it
      plays, and the worker has been sent INIT and then one PROCESS with the
      resampled audio, with the transcriber processing. */
  method LoadAndTranscribe(f: DropZone.FileInfo, buffer: AudioPlayer.AudioBuffer, channelData: seq<real>, sampleRate: real)
    returns (shell: Shell)
    ensures shell.Valid()
    ensures shell.file == Some(f) && shell.midiUrl == None && shell.activeTab == MidiTab
    ensures shell.player.isPlaying && shell.player.current == Some(0) && shell.player.sources[0].buffer == buffer
    ensures shell.transcriber.Snapshot() == TranscriberClient.Processing
    ensures shell.transcriber.sent == [Init, Process(channelData, sampleRate)]
    ensures shell.transcriber.alerts == [] && shell.alerts == []
  {
    shell := new Shell();
    shell.HandleFileSelected(f);
    shell.FileBytesRead();
    shell.FileDecoded(buffer);
    shell.FileResampled(channelData, sampleRate);
  }
}
