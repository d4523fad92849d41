/** The terminal client (mahilo/client.py): the websocket URL it derives from the server URL,
    and the errors its constructor and its send and audio methods raise. */
module Client {
  import opened Common

  const SchemeSeparator: string := "://"

  /** Where the text after the last separator begins: just past that separator, or 0 when
      there is none. */
  function SeparatorEnd(s: string): (e: nat)
    ensures e <= |s|
    ensures !Contains(s[e..], SchemeSeparator)
    ensures e == 0 <==> !Contains(s, SchemeSeparator)
    ensures e > 0 ==> 3 <= e && s[e - 3..e] == SchemeSeparator
    decreases |s|
  {
    match IndexOf(s, SchemeSeparator)
    case None => 0
    case Some(k) =>
      var e' := SeparatorEnd(s[k + 3..]);
      SeparatorStep(s, k, e');
      k + 3 + e'
  }

  /** Positions in the text after a separator, shifted back into the whole text. */
  lemma SeparatorStep(s: string, k: nat, e': nat)
    requires k + 3 <= |s| && s[k..k + 3] == SchemeSeparator
    requires e' <= |s| - k - 3
    requires !Contains(s[k + 3..][e'..], SchemeSeparator)
    requires e' > 0 ==> 3 <= e' && s[k + 3..][e' - 3..e'] == SchemeSeparator
    ensures !Contains(s[k + 3 + e'..], SchemeSeparator)
    ensures s[k + 3 + e' - 3..k + 3 + e'] == SchemeSeparator
  {
    assert s[k + 3..][e'..] == s[k + 3 + e'..];
    if e' > 0 {
      assert s[k + 3..][e' - 3..e'] == s[k + 3 + e' - 3..k + 3 + e'];
    }
  }

  /** `s.split("://")[-1]`: the text after the last separator, or all of `s` when there is
      none. */
  function HostPart(s: string): (r: string)
    ensures |r| <= |s| && r == s[|s| - |r|..]
    ensures !Contains(r, SchemeSeparator)
    ensures Contains(s, SchemeSeparator) ==> |r| + 3 <= |s| && s[|s| - |r| - 3..|s| - |r|] == SchemeSeparator
    ensures !Contains(s, SchemeSeparator) ==> r == s
  {
    s[SeparatorEnd(s)..]
  }

  /** The host part of `scheme://host` is `host` when the scheme has no colon and the host
      holds no separator. */
  lemma HostOfSchemedUrl(scheme: string, host: string)
    requires ':' !in scheme && !Contains(host, SchemeSeparator)
    ensures HostPart(scheme + SchemeSeparator + host) == host
  {
    var s := scheme + SchemeSeparator + host;
    assert OccursAt(s, SchemeSeparator, |scheme|);
    forall j | 0 <= j < |scheme| ensures !OccursAt(s, SchemeSeparator, j) {
      assert s[j] == scheme[j];
      if j + 3 <= |s| {
        assert s[j..j + 3][0] == s[j];
      }
    }
    assert IndexOf(s, SchemeSeparator) == Some(|scheme|);
    assert s[|scheme| + 3..] == host;
  }

  /** Taking the host part twice changes nothing. */
  lemma HostPartIdempotent(s: string)
    ensures HostPart(HostPart(s)) == HostPart(s)
  {
  }

  /** The URL `connect` opens. The voice route formats a missing agent name as "None"; the
      text route falls back to "main" for a missing or empty name. */
  function WebsocketUrl(baseUrl: string, agentName: Option<string>, voice: bool): (url: string)
    ensures StartsWith(url, "ws://" + HostPart(baseUrl) + "/ws/")
    ensures voice ==> url == "ws://" + HostPart(baseUrl) + "/ws/voice-stream/" + (if agentName.Some? then agentName.value else "None")
    ensures !voice && agentName.Some? && agentName.value != "" ==> url == "ws://" + HostPart(baseUrl) + "/ws/" + agentName.value
    ensures !voice && (agentName.None? || agentName.value == "") ==> url == "ws://" + HostPart(baseUrl) + "/ws/main"
  {
    var prefix := "ws://" + HostPart(baseUrl) + "/ws/";
    var url := if voice then prefix + "voice-stream/" + (if agentName.Some? then agentName.value else "None")
               else prefix + (if agentName.Some? && agentName.value != "" then agentName.value else "main");
    assert url[..|prefix|] == prefix;
    url
  }

  /** Text without a slash holds no separator. */
  lemma NoSlashNoSeparator(h: string)
    requires '/' !in h
    ensures !Contains(h, SchemeSeparator)
  {
    forall j | 0 <= j && j + 3 <= |h| ensures !OccursAt(h, SchemeSeparator, j) {
      assert h[j..j + 3][1] == h[j + 1];
    }
  }

  /** For a server at `http://<host>` (a host without a slash), a text client for a named
      agent opens `ws://<host>/ws/<name>` and a voice client `ws://<host>/ws/voice-stream/<name>`. */
  lemma HttpServerUrls(host: string, name: string)
    requires '/' !in host && name != ""
    ensures WebsocketUrl("http://" + host, Some(name), false) == "ws://" + host + "/ws/" + name
    ensures WebsocketUrl("http://" + host, Some(name), true) == "ws://" + host + "/ws/voice-stream/" + name
  {
    assert "http://" + host == "http" + SchemeSeparator + host;
    NoSlashNoSeparator(host);
    HostOfSchemedUrl("http", host);
  }

  const VoiceDisabled: string := "Voice features are not enabled. Initialize the client with voice=True to use voice features."

  /** What `send_message` does once connected. */
  datatype SendOutcome = SentText(message: string) | RecordingScheduled | AlreadyRecording

  class MahiloClient {
    const baseUrl: string
    const agentName: Option<string>
    const voice: bool
    var connected: bool
    var isRecording: bool

    constructor (baseUrl: string, agentName: Option<string>, voice: bool)
      ensures this.baseUrl == baseUrl && this.agentName == agentName && this.voice == voice
      ensures !connected && !isRecording
    {
      this.baseUrl := baseUrl;
      this.agentName := agentName;
      this.voice := voice;
      connected := false;
      isRecording := false;
    }

    /** `connect`: opens the derived URL (the socket itself is not modelled). */
    method Connect() returns (url: string)
      modifies this
      ensures url == WebsocketUrl(baseUrl, agentName, voice)
      ensures connected && isRecording == old(isRecording)
    {
      url := WebsocketUrl(baseUrl, agentName, voice);
      connected := true;
    }

    /** `send_message`: refused before `connect`; a text client sends the message (JSON
        encoding not modelled); a voice client schedules recording unless it is recording. */
    method SendMessage(message: string) returns (outcome: Result<SendOutcome>)
      ensures !connected ==> outcome == Err(Exception("WebSocket connection not established"))
      ensures connected && !voice ==> outcome == Ok(SentText(message))
      ensures connected && voice ==> outcome == Ok(if isRecording then AlreadyRecording else RecordingScheduled)
    {
      if !connected {
        return Err(Exception("WebSocket connection not established"));
      }
      if voice {
        outcome := Ok(if isRecording then AlreadyRecording else RecordingScheduled);
      } else {
        outcome := Ok(SentText(message));
      }
    }

    /** The guard of `_record_and_send_audio`: a text client raises; a voice client starts
        recording. */
    method RecordAndSendAudio() returns (failure: Option<Failure>)
      modifies this
      ensures failure.Some? <==> !voice
      ensures failure.Some? ==> failure.value == RuntimeError(VoiceDisabled) && isRecording == old(isRecording)
      ensures failure.None? ==> isRecording
      ensures connected == old(connected)
    {
      if !voice {
        return Some(RuntimeError(VoiceDisabled));
      }
      isRecording := true;
      failure := None;
    }

    /** The guard of `_play_audio`: a text client raises; playback itself is not modelled. */
    function PlayAudio(): (failure: Option<Failure>)
      ensures failure.Some? <==> !voice
      ensures failure.Some? ==> failure.value == RuntimeError(VoiceDisabled)
    {
      if voice then None else Some(RuntimeError(VoiceDisabled))
    }
  }

  const PyAudioMissing: string := "PyAudio is required for voice features. Learn how to install it for your OS here: https://pypi.org/project/PyAudio/."
  const NoInputDevice: string := "No audio input device found. Check your microphone configuration."

  /** `Client.__init__`: a voice client needs PyAudio and an input device; a text client needs
      neither. */
  method NewClient(url: string, agentName: Option<string>, voice: bool, pyaudioAvailable: bool, inputDevice: bool)
    returns (client: MahiloClient?, failure: Option<Failure>)
    ensures failure.None? <==> client != null
    ensures voice && !pyaudioAvailable ==> failure == Some(ImportError(PyAudioMissing))
    ensures voice && pyaudioAvailable && !inputDevice ==> failure == Some(RuntimeError(NoInputDevice))
    ensures (!voice || (pyaudioAvailable && inputDevice)) ==> failure.None?
    ensures client != null ==>
      (fresh(client) && client.baseUrl == url && client.agentName == agentName &&
       client.voice == voice && !client.connected)
  {
    if voice && !pyaudioAvailable {
      return null, Some(ImportError(PyAudioMissing));
    }
    if voice && !inputDevice {
      return null, Some(RuntimeError(NoInputDevice));
    }
    client := new MahiloClient(url, agentName, voice);
    failure := None;
  }
}
