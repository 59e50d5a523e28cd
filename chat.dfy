/** The chat screen: its transcript and flags, the receiver dispatch for peer messages,
    the send rules of the three modes, the typing broadcast and the persisted record. */
module Chat {
  import opened Types
  import Text
  import P2P

  /** Which of the two students at one device is typing in DUO mode. */
  datatype Sender = UserSide | PartnerSide

  const VoiceLabel := "Hlasová zpráva"
  const VoicePlaceholder := "[Poslal hlasovou zprávu - Přehrání dostupné jen na zařízení odesílatele]"
  const ImageNote := "[Uživatel poslal obrázek]"
  const VoiceNote := "[Uživatel poslal hlasovou zprávu]"
  const PartnerLeftAlert := "Spojení s partnerem bylo přerušeno."
  const TypingOffDelayMs := 2000

  /** A send scheduled with `setTimeout`. */
  datatype Scheduled = Scheduled(delayMs: nat, call: P2P.Request)

  /** Who is credited with a message composed on this device: in DUO mode the active
      student, otherwise always the user. */
  function IsUserSender(mode: GameMode, active: Sender): (r: bool)
    ensures r <==> mode != DUO || active == UserSide
  {
    if mode == DUO then active == UserSide else true
  }

  /** The other student of the pair. */
  function Toggle(s: Sender): (r: Sender)
    ensures r != s
  {
    if s == UserSide then PartnerSide else UserSide
  }

  /** A locally composed message: an image attachment exactly when an image is selected. */
  function Outgoing(id: string, text: string, isUser: bool, at: int, image: Option<string>): (m: Message)
    ensures m.attachmentType == Some(Image) <==> image.Some?
    ensures m.attachmentType.None? <==> image.None?
    ensures m.attachmentUrl == image && m.text == text && m.isUser == isUser && m.id == id
  {
    Message(id, text, isUser, at, image, if image.Some? then Some(Image) else None)
  }

  /** The CHAT payload a message is sent as: everything but the sender flag and time. */
  function PayloadOf(m: Message): ChatPayload {
    ChatPayload(m.id, m.text, m.attachmentUrl, m.attachmentType)
  }

  /** An incoming CHAT payload as the receiver appends it. */
  function Incoming(p: ChatPayload, at: int): (m: Message)
    ensures !m.isUser && m.timestamp == at
    ensures PayloadOf(m) == p
  {
    Message(p.id, p.text, false, at, p.attachmentUrl, p.attachmentType)
  }

  /** What one side sends as CHAT the other side appends unchanged, except that it is
      marked as not its own and stamped with the time of arrival. */
  lemma {:induction false} ChatArrivesIntact(m: Message, at: int)
    ensures Incoming(PayloadOf(m), at) == m.(isUser := false, timestamp := at)
  {
    var r := Incoming(PayloadOf(m), at);
    assert PayloadOf(r) == PayloadOf(m);
  }

  /** The AI's reply entry; its id is the reply time plus one millisecond. */
  function Reply(replyAt: nat, text: string): (m: Message)
    ensures !m.isUser && m.text == text && m.attachmentType.None?
  {
    Message(Text.DecimalString(replyAt + 1), text, false, replyAt, None, None)
  }

  /** The text handed to the AI: a selected image is announced by a fixed note, after the
      typed text when there is any. */
  function AIPrompt(text: string, hasImage: bool): string {
    if hasImage then (if text != "" then text + " " + ImageNote else ImageNote) else text
  }

  lemma AIPromptMentions(text: string, hasImage: bool)
    ensures hasImage ==> Text.Includes(AIPrompt(text, hasImage), ImageNote)
    ensures Text.Includes(AIPrompt(text, hasImage), text)
  {
    if hasImage {
      if text != "" {
        Text.IncludesInfix(text + " ", ImageNote, "");
        assert text + " " + ImageNote == text + " " + ImageNote + "";
        Text.IncludesInfix("", text, " " + ImageNote);
        assert "" + text + (" " + ImageNote) == text + " " + ImageNote;
      } else {
        Text.IncludesInfix("", ImageNote, "");
        assert "" + ImageNote + "" == ImageNote;
        Text.IncludesInfix("", "", ImageNote);
      }
    } else {
      Text.IncludesInfix("", text, "");
      assert "" + text + "" == text;
    }
  }

  /** `formatDuration`: whole minutes, a colon, and the seconds as two digits. */
  function FormatDuration(seconds: nat): string {
    Text.DecimalString(seconds / 60) + ":" + Text.PadStart(Text.DecimalString(seconds % 60), 2, '0')
  }

  /** The seconds field: two digits denoting the seconds. */
  lemma TwoDigitSeconds(n: nat)
    requires n < 60
    ensures var p := Text.PadStart(Text.DecimalString(n), 2, '0');
            |p| == 2 && Text.AllDigits(p) && Text.DecimalValue(p) == n
  {
    var d := Text.DecimalString(n);
    if n < 10 {
      Text.DecimalStringLength(n, 1);
      assert Text.PadStart(d, 2, '0') == ['0'] + d;
      Text.LeadingZero(d);
    } else {
      assert Text.Pow10(2) == 100;
      Text.DecimalStringLength(n, 2);
    }
  }

  /** Splitting `a:b` with a two-character b at its third character from the end. */
  lemma ColonSplit(a: string, b: string)
    requires |b| == 2
    ensures var r := a + ":" + b;
            && |r| == |a| + 3 && r[|r| - 3] == ':' && r[..|r| - 3] == a && r[|r| - 2..] == b
  {
    var r := a + ":" + b;
    assert r[..|a|] == a;
    assert r[|a| + 1..] == b;
  }

  /** The recording timer reads back: the last two characters are the seconds, the part
      before the colon the minutes. */
  lemma FormatDurationReadsBack(seconds: nat)
    ensures var r := FormatDuration(seconds);
            && |r| >= 4 && r[|r| - 3] == ':'
            && Text.AllDigits(r[..|r| - 3]) && Text.AllDigits(r[|r| - 2..])
            && Text.DecimalValue(r[..|r| - 3]) == seconds / 60
            && Text.DecimalValue(r[|r| - 2..]) == seconds % 60
  {
    var mins := Text.DecimalString(seconds / 60);
    var padded := Text.PadStart(Text.DecimalString(seconds % 60), 2, '0');
    TwoDigitSeconds(seconds % 60);
    ColonSplit(mins, padded);
  }

  /** The conversation record the persist effect saves, or nothing while the transcript is
      empty. */
  function PersistedSession(settings: ChatSettings, sessionId: string, startTime: int,
                            partner: UserProfile, messages: seq<Message>, now: int): (r: Option<ChatSession>)
    ensures r.None? <==> messages == []
    ensures r.Some? ==> r.value.id == sessionId && r.value.messages == messages
                        && r.value.rolePartner == partner.role && r.value.roleUser == settings.user.role
                        && r.value.studentName == settings.realStudentName
                        && r.value.studentEmail == settings.realStudentEmail
                        && r.value.studentClass == settings.realStudentClass
                        && r.value.topic == settings.topic && r.value.startTime == startTime
                        && r.value.mode == Some(settings.mode) && r.value.lastActive == now
  {
    if |messages| > 0 then
      Some(ChatSession(sessionId, settings.realStudentName, settings.realStudentEmail,
                       settings.realStudentClass, settings.topic, Some(settings.mode),
                       settings.user.role, partner.role, startTime, now, messages))
    else None
  }


  const MicrophoneAlert := "Pro nahrávání hlasových zpráv povolte prosím přístup k mikrofonu."

  class ChatScreen {
    const settings: ChatSettings
    const sessionId: string
    const startTime: int
    var messages: seq<Message>
    var inputText: string
    var isTyping: bool
    var showEmojiPicker: bool
    var selectedImage: Option<string>
    var isRecording: bool
    var recordingTime: nat
    var voicePending: bool            // a stopped recorder whose stop handler is still to run
    var micRequest: Option<Sender>    // a microphone request awaiting its answer, with the press's sender
    var recordingSender: Sender       // the sender the running recorder's stop handler will credit
    var activeSender: Sender
    var partnerProfile: UserProfile
    var isConnected: bool
    var calls: seq<P2P.Request>       // calls made into the peer service
    var timeouts: seq<Scheduled>      // calls scheduled for later
    var aiPrompts: seq<string>        // texts handed to the AI
    var alerts: seq<string>
    var exitRequests: nat

    /** Mounting the screen. In REMOTE mode it sends its own profile as HANDSHAKE and
        registers the dispatch and close handlers, passing no connect handler. */
    constructor (settings: ChatSettings, now: nat)
      ensures this.settings == settings && sessionId == Text.DecimalString(now) && startTime == now
      ensures messages == [] && inputText == "" && !isTyping && !showEmojiPicker && selectedImage.None?
      ensures !isRecording && recordingTime == 0 && !voicePending && micRequest.None?
      ensures activeSender == UserSide && partnerProfile == settings.partner
      ensures isConnected <==> settings.mode != REMOTE
      ensures calls == if settings.mode == REMOTE
                       then [P2P.Send(Handshake(settings.user)), P2P.Register(P2P.ChatData, None, Some(P2P.ChatClosed))]
                       else []
      ensures timeouts == [] && aiPrompts == [] && alerts == [] && exitRequests == 0
    {
      this.settings := settings;
      sessionId := Text.DecimalString(now);
      startTime := now;
      messages, inputText, isTyping, showEmojiPicker, selectedImage := [], "", false, false, None;
      isRecording, recordingTime, voicePending := false, 0, false;
      micRequest, recordingSender := None, UserSide;
      activeSender := UserSide;
      partnerProfile := settings.partner;
      isConnected := settings.mode != REMOTE;
      if settings.mode == REMOTE {
        calls := [P2P.Send(Handshake(settings.user)), P2P.Register(P2P.ChatData, None, Some(P2P.ChatClosed))];
      } else {
        calls := [];
      }
      timeouts, aiPrompts, alerts, exitRequests := [], [], [], 0;
    }

    /** The record the persist effect saves for the current state. */
    function Snapshot(now: int): Option<ChatSession>
      reads this
    {
      PersistedSession(settings, sessionId, startTime, partnerProfile, messages, now)
    }

    /** Whether there is something to send: text that is not blank, or an image. */
    predicate HasDraft()
      reads this
    {
      !Text.IsBlank(inputText) || selectedImage.Some?
    }

    /** Whether the text input accepts typing: not while a remote partner is missing. */
    predicate InputEnabled()
      reads this
    {
      !(settings.mode == REMOTE && !isConnected)
    }

    /** The recording banner's timer text. */
    function RecordingLabel(): string
      reads this
    {
      FormatDuration(recordingTime)
    }

    /** The data handler registered with the peer service. */
    method OnPeerData(msg: P2PMessage, now: int)
      modifies this`messages, this`isTyping, this`partnerProfile, this`isConnected
      ensures msg.Chat? ==> messages == old(messages) + [Incoming(msg.chat, now)] && !isTyping
                            && unchanged(this`partnerProfile, this`isConnected)
      ensures msg.Handshake? ==> partnerProfile == msg.userProfile && isConnected
                                 && unchanged(this`messages, this`isTyping)
      ensures msg.Typing? ==> isTyping == msg.isTyping
                              && unchanged(this`messages, this`partnerProfile, this`isConnected)
      ensures msg.Unrecognised? ==> unchanged(this`messages, this`isTyping, this`partnerProfile, this`isConnected)
    {
      match msg
      case Chat(p) =>
        messages := messages + [Incoming(p, now)];
        isTyping := false;
      case Handshake(profile) =>
        partnerProfile := profile;
        isConnected := true;
      case Typing(b) =>
        isTyping := b;
      case Unrecognised(_) =>
    }

    /** The close handler registered with the peer service. */
    method OnPeerClosed()
      modifies this`isConnected, this`alerts
      ensures !isConnected && alerts == old(alerts) + [PartnerLeftAlert]
    {
      alerts := alerts + [PartnerLeftAlert];
      isConnected := false;
    }

    /** The entry the current draft becomes when sent at time `now`. */
    function Draft(now: nat): (m: Message)
      reads this
      ensures m.text == inputText && m.attachmentUrl == selectedImage && m.timestamp == now
      ensures m.isUser <==> IsUserSender(settings.mode, activeSender)
    {
      Outgoing(Text.DecimalString(now), inputText, IsUserSender(settings.mode, activeSender), now, selectedImage)
    }

    /** `handleSendMessage`, with the AI's answer (None when the call threw) supplied. Nothing
        happens for blank text without an image; otherwise exactly one entry is appended,
        followed in AI mode by the reply. */
    method HandleSendMessage(now: nat, aiReply: Option<string>, replyAt: nat)
      modifies this`inputText, this`selectedImage, this`showEmojiPicker, this`messages, this`calls
      modifies this`isTyping, this`aiPrompts, this`activeSender
      ensures !old(HasDraft()) ==> unchanged(this)
      ensures old(HasDraft()) ==>
        messages == old(messages) + [old(Draft(now))] +
                    (if settings.mode == AI && aiReply.Some? then [Reply(replyAt, aiReply.value)] else [])
      ensures old(HasDraft()) ==> inputText == "" && selectedImage.None? && !showEmojiPicker
      ensures old(HasDraft()) ==>
        activeSender == (if settings.mode == DUO then Toggle(old(activeSender)) else old(activeSender))
      ensures old(HasDraft()) ==>
        calls == old(calls) + (if settings.mode == REMOTE then [P2P.Send(Chat(PayloadOf(old(Draft(now)))))] else [])
      ensures old(HasDraft()) ==>
        aiPrompts == old(aiPrompts) +
                     (if settings.mode == AI then [AIPrompt(old(inputText), old(selectedImage).Some?)] else [])
      ensures old(HasDraft()) ==> isTyping == (if settings.mode == AI then false else old(isTyping))
    {
      if !HasDraft() {
        return;
      }
      var sent := Draft(now);
      var currentText := inputText;
      var currentImage := selectedImage;
      inputText := "";
      selectedImage := None;
      showEmojiPicker := false;
      messages := messages + [sent];
      if settings.mode == REMOTE {
        calls := calls + [P2P.Send(Chat(PayloadOf(sent)))];
      } else if settings.mode == AI && sent.isUser {
        isTyping := true;
        aiPrompts := aiPrompts + [AIPrompt(currentText, currentImage.Some?)];
        if aiReply.Some? {
          messages := messages + [Reply(replyAt, aiReply.value)];
        }
        isTyping := false;
      } else if settings.mode == DUO {
        activeSender := Toggle(activeSender);
      }
    }

    /** `sendVoiceMessage`: the recording is kept locally as an audio entry; a remote partner
        receives only a fixed text with no attachment. `sender` is the `activeSender` of the
        render whose closure runs; the DUO flip updates the current one. */
    method SendVoiceMessage(audioUrl: string, now: nat, aiReply: Option<string>, replyAt: nat, sender: Sender)
      modifies this`messages, this`calls, this`isTyping, this`aiPrompts, this`activeSender
      ensures var sent := Message(Text.DecimalString(now), VoiceLabel,
                                  IsUserSender(settings.mode, sender), now, Some(audioUrl), Some(Audio));
        && messages == old(messages) + [sent] +
                       (if settings.mode == AI && aiReply.Some? then [Reply(replyAt, aiReply.value)] else [])
        && calls == old(calls) +
                    (if settings.mode == REMOTE
                     then [P2P.Send(Chat(ChatPayload(sent.id, VoicePlaceholder, None, None)))] else [])
        && aiPrompts == old(aiPrompts) + (if settings.mode == AI then [VoiceNote] else [])
        && activeSender == (if settings.mode == DUO then Toggle(old(activeSender)) else old(activeSender))
        && isTyping == (if settings.mode == AI then false else old(isTyping))
    {
      var isUser := IsUserSender(settings.mode, sender);
      var sent := Message(Text.DecimalString(now), VoiceLabel, isUser, now, Some(audioUrl), Some(Audio));
      messages := messages + [sent];
      if settings.mode == REMOTE {
        calls := calls + [P2P.Send(Chat(ChatPayload(sent.id, VoicePlaceholder, None, None)))];
      } else if settings.mode == AI && isUser {
        isTyping := true;
        aiPrompts := aiPrompts + [VoiceNote];
        if aiReply.Some? {
          messages := messages + [Reply(replyAt, aiReply.value)];
        }
        isTyping := false;
      } else if settings.mode == DUO {
        activeSender := Toggle(activeSender);
      }
    }

    /** Pressing the microphone button calls `startRecording`, which asks for the microphone.
        Its closure holds the `activeSender` of the render the button belongs to. */
    method StartRecording()
      modifies this`micRequest
      ensures micRequest == Some(activeSender)
    {
      micRequest := Some(activeSender);
    }

    /** The answer to the microphone request: the recording starts with the timer at zero,
        and its stop handler will credit the sender of the press; or the student is asked
        to allow the microphone. */
    method MicrophoneAnswered(granted: bool)
      requires micRequest.Some?
      modifies this`micRequest, this`isRecording, this`recordingTime, this`recordingSender, this`alerts
      ensures micRequest.None?
      ensures granted ==> isRecording && recordingTime == 0 && recordingSender == old(micRequest).value
                          && alerts == old(alerts)
      ensures !granted ==> isRecording == old(isRecording) && recordingTime == old(recordingTime)
                           && recordingSender == old(recordingSender) && alerts == old(alerts) + [MicrophoneAlert]
    {
      if granted {
        isRecording := true;
        recordingTime := 0;
        recordingSender := micRequest.value;
      } else {
        alerts := alerts + [MicrophoneAlert];
      }
      micRequest := None;
    }

    /** The one-second interval, which runs only between start and stop. */
    method RecordingTick()
      requires isRecording
      modifies this`recordingTime
      ensures recordingTime == old(recordingTime) + 1
    {
      recordingTime := recordingTime + 1;
    }

    /** `stopRecording`: a running recording is stopped, and its recorder's stop handler
        will send it. */
    method StopRecording()
      modifies this`isRecording, this`voicePending
      ensures !isRecording
      ensures voicePending == (old(voicePending) || old(isRecording))
    {
      if isRecording {
        isRecording := false;
        voicePending := true;
      }
    }

    /** The discard button AS WRITTEN: it calls `stopRecording` as well, so the recording
        the student meant to throw away is handed to the stop handler and sent. */
    method CancelRecording()
      modifies this`isRecording, this`voicePending
      ensures !isRecording
      ensures voicePending == (old(voicePending) || old(isRecording))
    {
      StopRecording();
      isRecording := false;
    }

    /** The discard button as evidently intended: the recording ends and nothing is sent. */
    method CancelRecordingIntended()
      modifies this`isRecording, this`voicePending
      ensures !isRecording && !voicePending
    {
      isRecording := false;
      voicePending := false;
    }

    /** The recorder's stop handler: the recorded audio becomes a voice message, through the
        `sendVoiceMessage` of the render in which the microphone was pressed. */
    method RecorderStopped(audioUrl: string, now: nat, aiReply: Option<string>, replyAt: nat)
      requires voicePending
      modifies this`voicePending, this`messages, this`calls, this`isTyping, this`aiPrompts, this`activeSender
      ensures !voicePending
      ensures var sent := Message(Text.DecimalString(now), VoiceLabel,
                                  IsUserSender(settings.mode, recordingSender), now, Some(audioUrl), Some(Audio));
        && messages == old(messages) + [sent] +
                       (if settings.mode == AI && aiReply.Some? then [Reply(replyAt, aiReply.value)] else [])
        && calls == old(calls) +
                    (if settings.mode == REMOTE
                     then [P2P.Send(Chat(ChatPayload(sent.id, VoicePlaceholder, None, None)))] else [])
        && aiPrompts == old(aiPrompts) + (if settings.mode == AI then [VoiceNote] else [])
        && activeSender == (if settings.mode == DUO then Toggle(old(activeSender)) else old(activeSender))
        && isTyping == (if settings.mode == AI then false else old(isTyping))
    {
      voicePending := false;
      SendVoiceMessage(audioUrl, now, aiReply, replyAt, recordingSender);
    }

    /** `handleInputChange`: in REMOTE mode every change sends TYPING true at once and
        schedules TYPING false 2000 ms later, however many changes follow. */
    method HandleInputChange(value: string)
      modifies this`inputText, this`calls, this`timeouts
      ensures inputText == value
      ensures calls == old(calls) + (if settings.mode == REMOTE then [P2P.Send(Typing(true))] else [])
      ensures timeouts == old(timeouts) +
                          (if settings.mode == REMOTE then [Scheduled(TypingOffDelayMs, P2P.Send(Typing(false)))] else [])
    {
      inputText := value;
      if settings.mode == REMOTE {
        calls := calls + [P2P.Send(Typing(true))];
        timeouts := timeouts + [Scheduled(TypingOffDelayMs, P2P.Send(Typing(false)))];
      }
    }

    /** `handleEmojiClick`: the emoji is appended to the draft, with no typing broadcast. */
    method AddEmoji(emoji: string)
      modifies this`inputText
      ensures inputText == old(inputText) + emoji
    {
      inputText := inputText + emoji;
    }

    method ToggleEmojiPicker()
      modifies this`showEmojiPicker
      ensures showEmojiPicker == !old(showEmojiPicker)
    {
      showEmojiPicker := !showEmojiPicker;
    }

    /** Picking an image to attach to the next message. */
    method SelectImage(url: string)
      modifies this`selectedImage
      ensures selectedImage == Some(url)
    {
      selectedImage := Some(url);
    }

    /** The preview's remove button drops the attachment. */
    method RemoveImage()
      modifies this`selectedImage
      ensures selectedImage.None?
    {
      selectedImage := None;
    }

    /** The DUO switcher buttons choose who types next; the switcher is shown only in DUO
        mode and while nothing is recording. */
    method SelectSender(s: Sender)
      requires settings.mode == DUO && !isRecording
      modifies this`activeSender
      ensures activeSender == s
    {
      activeSender := s;
    }

    /** The back button: a remote session is closed before leaving. */
    method PressExit()
      modifies this`calls, this`exitRequests
      ensures calls == old(calls) + (if settings.mode == REMOTE then [P2P.Close] else [])
      ensures exitRequests == old(exitRequests) + 1
    {
      if settings.mode == REMOTE {
        calls := calls + [P2P.Close];
      }
      exitRequests := exitRequests + 1;
    }

    /** The back button as evidently intended: the remote session is closed only once the
        student has confirmed leaving. */
    method PressExitIntended(confirmed: bool)
      modifies this`calls, this`exitRequests
      ensures calls == old(calls) + (if settings.mode == REMOTE && confirmed then [P2P.Close] else [])
      ensures exitRequests == old(exitRequests) + 1
    {
      if settings.mode == REMOTE && confirmed {
        calls := calls + [P2P.Close];
      }
      exitRequests := exitRequests + 1;
    }
  }

  /** As written, the back button closes the remote session before the confirmation is
      asked: a student who declines stays in the chat with the peer service closed. */
  method DeclinedExitClosesRoom(settings: ChatSettings, now: nat) returns (sc: ChatScreen)
    requires settings.mode == REMOTE
    ensures |sc.calls| == 3 && sc.calls[2] == P2P.Close && sc.exitRequests == 1
  {
    sc := new ChatScreen(settings, now);
    sc.PressExit();
  }

  /** With the intended button a declined exit leaves the session's calls as they were. */
  method DeclinedExitKeepsRoom(settings: ChatSettings, now: nat) returns (sc: ChatScreen)
    requires settings.mode == REMOTE
    ensures sc.calls == [P2P.Send(Handshake(settings.user)), P2P.Register(P2P.ChatData, None, Some(P2P.ChatClosed))]
  {
    sc := new ChatScreen(settings, now);
    sc.PressExitIntended(false);
  }

  /** Discarding a recording as written still sends it: after start, discard and the
      recorder's stop handler, the transcript holds the voice message. */
  method DiscardedRecordingIsSent(settings: ChatSettings, now: nat, audioUrl: string)
    returns (sc: ChatScreen)
    ensures |sc.messages| >= 1 && sc.messages[0].attachmentType == Some(Audio)
  {
    sc := new ChatScreen(settings, now);
    sc.StartRecording();
    sc.MicrophoneAnswered(true);
    sc.CancelRecording();
    sc.RecorderStopped(audioUrl, now, None, now);
  }

  /** With the intended discard button nothing is left for the stop handler, and the
      transcript stays empty. */
  method DiscardedRecordingIsDropped(settings: ChatSettings, now: nat)
    returns (sc: ChatScreen)
    ensures sc.messages == [] && !sc.voicePending && !sc.isRecording
  {
    sc := new ChatScreen(settings, now);
    sc.StartRecording();
    sc.MicrophoneAnswered(true);
    sc.CancelRecordingIntended();
  }

  /** In DUO mode a voice message is credited to the student selected when the microphone
      was pressed, even when the other student is picked while the permission prompt is
      open; the flip afterwards then makes the pressing student active again. */
  method VoiceCreditedAtPress(settings: ChatSettings, now: nat, audioUrl: string)
    returns (sc: ChatScreen)
    requires settings.mode == DUO
    ensures |sc.messages| == 1 && sc.messages[0].isUser && sc.messages[0].attachmentType == Some(Audio)
    ensures sc.activeSender == UserSide
  {
    sc := new ChatScreen(settings, now);
    sc.StartRecording();
    sc.SelectSender(PartnerSide);
    sc.MicrophoneAnswered(true);
    sc.StopRecording();
    sc.RecorderStopped(audioUrl, now, None, now);
  }
}
