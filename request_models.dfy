/**
 * The unified chat request the API layer hands to the message processors
 * (back-end/models/request_models.py): its fields and the validity rule for
 * each message type.
 */
module RequestModels {
  import opened Wrappers
  import opened Strs

  /** An uploaded file as the validator sees it: its name and MIME type. */
  datatype Upload = Upload(filename: string, contentType: string)

  datatype UnifiedChatRequest = UnifiedChatRequest(
    messageType: string,
    message: Option<string>,
    files: seq<Upload>,
    sessionId: Option<string>,
    speaker: string,
    streamAudio: bool)

  /** The `speaker` an omitted argument gives (request_models.py:13). */
  const DefaultSpeaker: string := "default"

  /**
   * `UnifiedChatRequest.__init__`: a missing file list (or an empty one,
   * which `files or []` treats alike) is stored as the empty list; an
   * omitted `speaker` is "default" and an omitted `stream_audio` True; the
   * other arguments are kept as given.
   */
  function NewRequest(messageType: string, message: Option<string>, files: Option<seq<Upload>>,
                      sessionId: Option<string>, speaker: Option<string>, streamAudio: Option<bool>)
    : (r: UnifiedChatRequest)
    ensures files.None? ==> r.files == []
    ensures files.Some? ==> r.files == files.value
    ensures r.messageType == messageType && r.message == message && r.sessionId == sessionId
    ensures r.speaker == (if speaker.Some? then speaker.value else "default")
    ensures r.streamAudio == (streamAudio.None? || streamAudio.value)
  {
    UnifiedChatRequest(messageType, message, if files.Some? then files.value else [],
                       sessionId, if speaker.Some? then speaker.value else DefaultSpeaker,
                       if streamAudio.Some? then streamAudio.value else true)
  }

  /** `bool(self.message and self.message.strip())`. */
  predicate HasText(message: Option<string>)
  {
    message.Some? && Strip(message.value) != ""
  }

  /** `bool(self.files) and len(self.files) > 0 and kind in self.files[0].content_type`. */
  predicate FirstFileIs(files: seq<Upload>, kind: string)
  {
    |files| > 0 && Contains(files[0].contentType, kind)
  }

  /** `UnifiedChatRequest.is_valid`. */
  predicate IsValid(r: UnifiedChatRequest)
  {
    if r.messageType == "text" then HasText(r.message)
    else if r.messageType == "voice" then FirstFileIs(r.files, "audio")
    else if r.messageType == "image" then FirstFileIs(r.files, "image")
    else if r.messageType == "mixed" then HasText(r.message) || |r.files| > 0
    else false
  }

  /** `pat in s` holds exactly when `pat` occurs somewhere in `s`. */
  lemma ContainsIff(s: string, pat: string)
    ensures Contains(s, pat) <==> exists i :: 0 <= i <= |s| && OccursAt(s, pat, i)
  {
    if Contains(s, pat) {
      assert OccursAt(s, pat, Find(s, pat));
    }
  }

  /** A text request is valid exactly when its message holds a non-whitespace character. */
  lemma TextValidIff(r: UnifiedChatRequest)
    requires r.messageType == "text"
    ensures IsValid(r) <==> r.message.Some? && !AllSpace(r.message.value)
  {
    if r.message.Some? {
      StripEmptyIffBlank(r.message.value);
    }
  }

  /** A voice request is valid exactly when its first file's type mentions "audio". */
  lemma VoiceValidIff(r: UnifiedChatRequest)
    requires r.messageType == "voice"
    ensures IsValid(r) <==> (|r.files| > 0 &&
      exists i :: 0 <= i <= |r.files[0].contentType| && OccursAt(r.files[0].contentType, "audio", i))
  {
    if |r.files| > 0 {
      ContainsIff(r.files[0].contentType, "audio");
    }
  }

  /** An image request is valid exactly when its first file's type mentions "image". */
  lemma ImageValidIff(r: UnifiedChatRequest)
    requires r.messageType == "image"
    ensures IsValid(r) <==> (|r.files| > 0 &&
      exists i :: 0 <= i <= |r.files[0].contentType| && OccursAt(r.files[0].contentType, "image", i))
  {
    if |r.files| > 0 {
      ContainsIff(r.files[0].contentType, "image");
    }
  }

  /** A mixed request is valid exactly when it has non-blank text or at least one file. */
  lemma MixedValidIff(r: UnifiedChatRequest)
    requires r.messageType == "mixed"
    ensures IsValid(r) <==> (r.message.Some? && !AllSpace(r.message.value)) || |r.files| > 0
  {
    if r.message.Some? {
      StripEmptyIffBlank(r.message.value);
    }
  }

  /** Any other message type is never valid, whatever the other fields hold. */
  lemma UnknownTypeInvalid(r: UnifiedChatRequest)
    requires r.messageType !in {"text", "voice", "image", "mixed"}
    ensures !IsValid(r)
  {
  }

  /** Validity depends only on the type, the text and the files: not on the session, speaker or streaming flag. */
  lemma ValidityIgnoresDelivery(r: UnifiedChatRequest, sessionId: Option<string>, speaker: string, streamAudio: bool)
    ensures IsValid(r.(sessionId := sessionId, speaker := speaker, streamAudio := streamAudio)) == IsValid(r)
  {
  }

  /** A valid voice or image request always has a first file to process. */
  lemma ValidUploadHasFile(r: UnifiedChatRequest)
    requires r.messageType in {"voice", "image"} && IsValid(r)
    ensures |r.files| > 0
  {
  }

  /** A request built without files is a valid text or mixed request exactly when its message is not blank. */
  lemma NoFilesNeedsText(messageType: string, message: Option<string>, sessionId: Option<string>,
                         speaker: Option<string>, streamAudio: Option<bool>)
    requires messageType in {"text", "mixed"}
    ensures IsValid(NewRequest(messageType, message, None, sessionId, speaker, streamAudio))
        <==> message.Some? && !AllSpace(message.value)
  {
    var r := NewRequest(messageType, message, None, sessionId, speaker, streamAudio);
    if messageType == "text" {
      TextValidIff(r);
    } else {
      MixedValidIff(r);
    }
  }
}
