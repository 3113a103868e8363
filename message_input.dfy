/** The message composer (components/MessageInput.tsx): the text, the selected
    file, the sending flag and the voice-recording flags and timer. */
module MessageInput {
  import opened Wrappers
  import opened Text
  import opened Types

  /** A call the composer makes into the chat context. */
  datatype SendCall =
    | SendText(text: string, receiverId: Option<int>)
    | SendFile(file: FileData, caption: Option<string>, receiverId: Option<int>)

  /** `handleSend` returns at once: nothing to send, or a send already running. */
  predicate SendBlocked(message: string, selectedFile: Option<FileData>, isSending: bool)
    ensures !SendBlocked(message, selectedFile, isSending) ==>
      !isSending && (selectedFile.Some? || exists i :: 0 <= i < |message| && !IsWhitespace(message[i]))
  {
    (IsBlank(message) && selectedFile.None?) || isSending
  }

  /** The send button's `disabled` expression. */
  predicate SendButtonDisabled(message: string, selectedFile: Option<FileData>, isSending: bool, isRecording: bool)
    ensures isRecording || isSending ==> SendButtonDisabled(message, selectedFile, isSending, isRecording)
  {
    (IsBlank(message) && selectedFile.None?) || isSending || isRecording
  }

  /** The button is disabled in every state `handleSend` would ignore, and beyond them only while recording. */
  lemma DisabledButtonMatchesGuard(message: string, selectedFile: Option<FileData>, isSending: bool, isRecording: bool)
    ensures SendButtonDisabled(message, selectedFile, isSending, isRecording)
      <==> SendBlocked(message, selectedFile, isSending) || isRecording
  {
  }

  /** `message.trim() || undefined`: the caption sent along with a file. */
  function FileCaption(message: string): (r: Option<string>)
    ensures r.None? <==> forall i :: 0 <= i < |message| ==> IsWhitespace(message[i])
    ensures r.Some? ==> r.value == Trim(message) && r.value != []
    ensures r.Some? ==> !IsWhitespace(r.value[0]) && !IsWhitespace(r.value[|r.value| - 1])
  {
    if Trim(message) == [] then None else Some(Trim(message))
  }

  /** The file a finished voice recording is sent as; `now` stands for `Date.now()`. */
  function VoiceFile(uri: string, now: int): (f: FileData)
    ensures f.uri == uri && f.mimeType == "audio/mp4" && f.size.None?
    ensures StartsWith(f.name, "voice_") && f.name[|f.name| - 4..] == ".m4a"
    ensures |f.name| >= 10 && IsIntLiteral(f.name[6..|f.name| - 4]) && ParseInt(f.name[6..|f.name| - 4]) == now
  {
    IntToStringRoundTrip(now);
    assert ("voice_" + IntToString(now) + ".m4a")[6..|"voice_" + IntToString(now) + ".m4a"| - 4] == IntToString(now);
    FileData(uri, "voice_" + IntToString(now) + ".m4a", "audio/mp4", None)
  }

  /** `formatDuration`: whole minutes, a colon, and the seconds left-padded to two digits. */
  function FormatDuration(seconds: nat): (r: string)
    ensures |r| >= 4 && r[|r| - 3] == ':'
  {
    PaddedSeconds(seconds % 60);
    NatToString(seconds / 60) + ":" + PadStart(NatToString(seconds % 60), 2, '0')
  }

  lemma PaddedSeconds(n: nat)
    requires n < 60
    ensures var t := PadStart(NatToString(n), 2, '0'); |t| == 2 && AllDigits(t) && ParseNat(t) == n
  {
    var s := NatToString(n);
    ParseNatToString(n);
    if n < 10 {
      assert PadStart(s, 2, '0') == "0" + s;
      ParseNatLeadingZero(s);
    } else {
      assert |NatToString(n / 10)| == 1;
    }
  }

  /** The parts of `m + ":" + t` with a two-character `t` are found from its end. */
  lemma ColonJoin(m: string, t: string)
    requires |t| == 2
    ensures var r := m + ":" + t; |r| == |m| + 3 && r[|r| - 3] == ':' && r[..|r| - 3] == m && r[|r| - 2..] == t
  {
  }

  /** The text reads back as the minutes and the seconds it was made from. */
  lemma FormatDurationParts(seconds: nat)
    ensures var r := FormatDuration(seconds);
      && |r| >= 4 && r[|r| - 3] == ':'
      && AllDigits(r[..|r| - 3]) && ParseNat(r[..|r| - 3]) == seconds / 60
      && AllDigits(r[|r| - 2..]) && ParseNat(r[|r| - 2..]) == seconds % 60
  {
    var m := NatToString(seconds / 60);
    var t := PadStart(NatToString(seconds % 60), 2, '0');
    PaddedSeconds(seconds % 60);
    ParseNatToString(seconds / 60);
    ColonJoin(m, t);
  }

  /** Reads an `m:ss` text back as its minutes and seconds. */
  function ParseDuration(r: string): Option<(nat, nat)> {
    if |r| >= 4 && r[|r| - 3] == ':' && AllDigits(r[..|r| - 3]) && AllDigits(r[|r| - 2..])
    then Some((ParseNat(r[..|r| - 3]), ParseNat(r[|r| - 2..])))
    else None
  }

  /** Every shown duration reads back as its whole minutes and remaining seconds. */
  lemma FormatDurationRoundTrip(seconds: nat)
    ensures ParseDuration(FormatDuration(seconds)) == Some((seconds / 60, seconds % 60))
  {
    FormatDurationParts(seconds);
  }

  /** Different durations are never shown the same. */
  lemma FormatDurationInjective(a: nat, b: nat)
    ensures FormatDuration(a) == FormatDuration(b) <==> a == b
  {
    if FormatDuration(a) == FormatDuration(b) {
      FormatDurationRoundTrip(a);
      FormatDurationRoundTrip(b);
      assert a / 60 == b / 60 && a % 60 == b % 60;
      assert a == a / 60 * 60 + a % 60;
      assert b == b / 60 * 60 + b % 60;
    }
  }

  class Composer {
    /** Set for a private conversation. */
    const receiverId: Option<int>
    var message: string
    var isSending: bool
    var selectedFile: Option<FileData>
    var isRecording: bool
    var recordingDuration: nat
    /** The one-second duration timer is running (`recordingTimer.current` is set). */
    var timerRunning: bool

    /** The timer only runs during a recording. */
    ghost predicate Valid()
      reads this
    {
      timerRunning ==> isRecording
    }

    constructor(receiverId: Option<int>)
      ensures Valid() && this.receiverId == receiverId
      ensures message == "" && !isSending && selectedFile.None?
      ensures !isRecording && recordingDuration == 0 && !timerRunning
    {
      this.receiverId := receiverId;
      message := "";
      isSending := false;
      selectedFile := None;
      isRecording := false;
      recordingDuration := 0;
      timerRunning := false;
    }

    /** The text input's `onChangeText`. */
    method SetMessage(text: string)
      modifies this`message
      ensures message == text
    {
      message := text;
    }

    method HandleFileSelected(file: FileData)
      modifies this`selectedFile
      ensures selectedFile == Some(file)
    {
      selectedFile := Some(file);
    }

    method ClearSelectedFile()
      modifies this`selectedFile
      ensures selectedFile.None?
    {
      selectedFile := None;
    }

    /** `handleSend`; `reply` is how the chat context's send settled. */
    method HandleSend(reply: Outcome<()>) returns (call: Option<SendCall>)
      modifies this`message, this`isSending, this`selectedFile
      ensures call.None? <==> old(SendBlocked(message, selectedFile, isSending))
      ensures call.Some? && old(selectedFile).Some? ==>
        call.value == SendFile(old(selectedFile).value, FileCaption(old(message)), receiverId)
      ensures call.Some? && old(selectedFile).None? ==> call.value == SendText(old(message), receiverId)
      ensures call.None? ==> message == old(message) && isSending == old(isSending) && selectedFile == old(selectedFile)
      ensures call.Some? ==> !isSending
      ensures call.Some? && reply.Ok? ==> message == "" && selectedFile.None?
      ensures call.Some? && reply.Fail? ==> message == old(message) && selectedFile == old(selectedFile)
    {
      var text, file := message, selectedFile;
      if SendBlocked(text, file, isSending) {
        return None;
      }
      isSending := true;
      call := Some(if file.Some? then SendFile(file.value, FileCaption(text), receiverId) else SendText(text, receiverId));
      if reply.Ok? {
        // The file path clears the selection; on the text path it is already empty.
        message := "";
        selectedFile := None;
      }
      isSending := false;
    }

    /** `resetRecordingState`. */
    method ResetRecordingState()
      modifies this`isRecording, this`recordingDuration, this`timerRunning
      ensures Valid()
      ensures !isRecording && recordingDuration == 0 && !timerRunning
    {
      isRecording := false;
      recordingDuration := 0;
      timerRunning := false;
    }

    /** `startRecording`; `permitted` is the microphone permission, `recorderStarted`
        whether preparing and starting the recorder succeeded. */
    method StartRecording(permitted: bool, recorderStarted: bool)
      requires Valid()
      modifies this`isRecording, this`recordingDuration, this`timerRunning
      ensures Valid()
      ensures !permitted || old(isRecording) ==>
        isRecording == old(isRecording) && recordingDuration == old(recordingDuration) && timerRunning == old(timerRunning)
      ensures permitted && !old(isRecording) ==>
        isRecording == recorderStarted && timerRunning == recorderStarted && recordingDuration == 0
    {
      if !permitted {
        return;
      }
      if isRecording {
        return;
      }
      if recorderStarted {
        isRecording := true;
        recordingDuration := 0;
        timerRunning := true;
      } else {
        ResetRecordingState();
      }
    }

    /** One tick of the one-second interval timer. */
    method Tick()
      requires timerRunning
      modifies this`recordingDuration
      ensures recordingDuration == old(recordingDuration) + 1
    {
      recordingDuration := recordingDuration + 1;
    }

    /** `stopRecording`; `stopped` is whether the recorder stopped without error, `uri` the
        recording's location and `now` stands for `Date.now()`. A failed upload is caught
        and ends in the same state as a successful one. */
    method StopRecording(stopped: bool, uri: Option<string>, now: int) returns (call: Option<SendCall>)
      requires Valid()
      modifies this`isRecording, this`recordingDuration, this`timerRunning, this`isSending
      ensures Valid()
      ensures !old(isRecording) ==> call.None? && isSending == old(isSending) && !timerRunning
      ensures !old(isRecording) ==>
        isRecording == old(isRecording) && recordingDuration == old(recordingDuration) && timerRunning == old(timerRunning)
      ensures old(isRecording) ==> (call.Some? <==> stopped && IsTruthyText(uri) && old(recordingDuration) > 1)
      ensures call.Some? ==> call.value == SendFile(VoiceFile(uri.value, now), None, receiverId)
      ensures old(isRecording) ==> !isRecording && recordingDuration == 0 && !timerRunning && !isSending
    {
      call := None;
      if !isRecording {
        return;
      }
      timerRunning := false;
      if stopped && IsTruthyText(uri) && recordingDuration > 1 {
        isSending := true;
        call := Some(SendFile(VoiceFile(uri.value, now), None, receiverId));
      }
      ResetRecordingState();
      isSending := false;
    }

    /** `cancelRecording`: the recording state is reset whether or not the recorder stops cleanly. */
    method CancelRecording()
      modifies this`isRecording, this`recordingDuration, this`timerRunning
      ensures Valid()
      ensures !isRecording && recordingDuration == 0 && !timerRunning
    {
      ResetRecordingState();
    }
  }
}
