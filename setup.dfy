/** The setup screen: the scenario form, its ordered start checks, and the remote lobby
    that creates or joins a room before the chat starts. */
module Setup {
  import opened Types
  import Text
  import P2P

  const TopicMissing := "Prosím zadej téma konverzace."
  const UserNameMissing := "Prosím vyplň své jméno."
  const PartnerNameMissing := "Prosím vyplň jméno partnera."
  const UserRoleMissing := "Prosím vyplň svou roli."
  const BadJoinCode := "Zadejte prosím 4-místný kód."
  const CreateFailed := "Nepodařilo se vytvořit místnost. Zkuste to znovu."
  const JoinFailed := "Nepodařilo se připojit. Zkontrolujte kód."
  const StatusGenerating := "Generuji kód místnosti..."
  const StatusWaiting := "Čekám na připojení partnera..."
  const StatusJoining := "Připojuji se..."

  const DefaultUserAvatar := "https://picsum.photos/200/200?random=1"
  const DefaultPartnerAvatar := "https://picsum.photos/200/200?random=2"

  /** The form's first state: the application defaults with the logged-in identity. */
  function InitialSettings(name: string, email: string, class_: string): (s: ChatSettings)
    ensures s.topic == "" && s.mode == AI && s.theme == BLUE
    ensures s.realStudentName == name && s.realStudentEmail == email && s.realStudentClass == class_
  {
    ChatSettings(name, email, class_, "", AI,
                 UserProfile("Já", "Student", DefaultUserAvatar),
                 UserProfile("Karel", "Kamarád", DefaultPartnerAvatar),
                 BLUE, None, None)
  }

  /** The lobby stage: no room yet, hosting one, or typing a code to join one. */
  datatype Stage = NoRoom | Hosting | Joining

  /** `handleStart`'s checks, in order: the first failing one names the error. */
  function StartCheck(s: ChatSettings): Option<string> {
    if Text.IsBlank(s.topic) then Some(TopicMissing)
    else if Text.IsBlank(s.user.name) then Some(UserNameMissing)
    else if s.mode != REMOTE && Text.IsBlank(s.partner.name) then Some(PartnerNameMissing)
    else if Text.IsBlank(s.user.role) then Some(UserRoleMissing)
    else None
  }

  /** A field a student has filled in: some character in it is not white space. */
  ghost predicate Filled(f: string) {
    !Text.AllSpace(f)
  }

  /** The start is refused with exactly the first unfilled field's message: the topic,
      the user's name, the partner's name (not asked in REMOTE mode), the user's role.
      It is allowed exactly when all of them are filled. */
  lemma StartCheckFirstFailure(s: ChatSettings)
    ensures StartCheck(s).None? <==>
      Filled(s.topic) && Filled(s.user.name) && (s.mode == REMOTE || Filled(s.partner.name)) && Filled(s.user.role)
    ensures StartCheck(s) == Some(TopicMissing) <==> !Filled(s.topic)
    ensures StartCheck(s) == Some(UserNameMissing) <==> Filled(s.topic) && !Filled(s.user.name)
    ensures StartCheck(s) == Some(PartnerNameMissing) <==>
      Filled(s.topic) && Filled(s.user.name) && s.mode != REMOTE && !Filled(s.partner.name)
    ensures StartCheck(s) == Some(UserRoleMissing) <==>
      Filled(s.topic) && Filled(s.user.name) && (s.mode == REMOTE || Filled(s.partner.name)) && !Filled(s.user.role)
  {
    Text.BlankIffAllSpace(s.topic);
    Text.BlankIffAllSpace(s.user.name);
    Text.BlankIffAllSpace(s.partner.name);
    Text.BlankIffAllSpace(s.user.role);
  }

  /** What a successful start hands on: the form, the real identity from the login, and
      the room code, the created one if any, otherwise the typed one. */
  function StartSettings(s: ChatSettings, name: string, email: string, class_: string,
                         generatedCode: string, joinCode: string): (r: ChatSettings)
    ensures r.topic == s.topic && r.mode == s.mode && r.user == s.user && r.partner == s.partner
    ensures r.theme == s.theme && r.customColor == s.customColor
    ensures r.realStudentName == name && r.realStudentEmail == email && r.realStudentClass == class_
    ensures r.p2pCode.Some?
    ensures generatedCode != "" ==> r.p2pCode.value == generatedCode
    ensures generatedCode == "" ==> r.p2pCode.value == joinCode
  {
    s.(realStudentName := name, realStudentEmail := email, realStudentClass := class_,
       p2pCode := Some(if generatedCode != "" then generatedCode else joinCode))
  }

  /** What a `handleStart` closure sees: the state of the render it was created in. */
  datatype StartView = StartView(settings: ChatSettings, generatedCode: string, joinCode: string)

  /** The accepted form of a join code. */
  predicate JoinCodeAccepted(code: string) {
    code != "" && |code| == 4
  }

  class SetupScreen {
    const realStudentName: string
    const realStudentEmail: string
    const realStudentClass: string
    var settings: ChatSettings
    var error: string
    var stage: Stage
    var generatedCode: string
    var joinCode: string
    var connectionStatus: string
    var isWaiting: bool
    var calls: seq<P2P.Request>          // calls made into the peer service
    var started: seq<ChatSettings>       // arguments passed to `onStart`
    var createClicks: seq<StartView>     // each pending `initializeHost`, with its closure's view
    var joinClicks: seq<StartView>       // each pending `joinSession`, with its closure's view
    var autoStart: Option<StartView>     // the view of the auto-start closure this screen registered

    /** Mounting: the reset effect runs once for the initial AI mode and closes the peer
        service. */
    constructor (name: string, email: string, class_: string)
      ensures realStudentName == name && realStudentEmail == email && realStudentClass == class_
      ensures settings == InitialSettings(name, email, class_)
      ensures error == "" && stage == NoRoom && generatedCode == "" && joinCode == ""
      ensures connectionStatus == "" && !isWaiting
      ensures calls == [P2P.Close] && started == [] && createClicks == [] && joinClicks == []
      ensures autoStart.None?
    {
      realStudentName, realStudentEmail, realStudentClass := name, email, class_;
      settings := InitialSettings(name, email, class_);
      error, stage, generatedCode, joinCode, connectionStatus, isWaiting := "", NoRoom, "", "", "", false;
      calls := [P2P.Close];
      started, createClicks, joinClicks, autoStart := [], [], [], None;
    }

    /** The view a closure created now would see. */
    function CurrentView(): StartView
      reads this
    {
      StartView(settings, generatedCode, joinCode)
    }

    /** `handleStart` as run by a closure over `view`. */
    method StartWith(view: StartView)
      modifies this
      ensures StartCheck(view.settings).Some? ==> error == StartCheck(view.settings).value && started == old(started)
      ensures StartCheck(view.settings).None? ==>
        && error == old(error)
        && started == old(started) + [StartSettings(view.settings, realStudentName, realStudentEmail,
                                                    realStudentClass, view.generatedCode, view.joinCode)]
      ensures unchanged(this`settings, this`stage, this`generatedCode, this`joinCode, this`connectionStatus)
      ensures unchanged(this`isWaiting, this`calls, this`createClicks, this`joinClicks, this`autoStart)
    {
      var check := StartCheck(view.settings);
      if check.Some? {
        error := check.value;
        return;
      }
      started := started + [StartSettings(view.settings, realStudentName, realStudentEmail,
                                          realStudentClass, view.generatedCode, view.joinCode)];
    }

    /** The start button (shown outside REMOTE mode). */
    method HandleStart()
      modifies this
      ensures StartCheck(old(settings)).Some? ==> error == StartCheck(old(settings)).value && started == old(started)
      ensures StartCheck(old(settings)).None? ==>
        && error == old(error)
        && started == old(started) + [StartSettings(old(settings), realStudentName, realStudentEmail,
                                                    realStudentClass, old(generatedCode), old(joinCode))]
      ensures unchanged(this`settings, this`stage, this`generatedCode, this`joinCode, this`connectionStatus)
      ensures unchanged(this`isWaiting, this`calls, this`createClicks, this`joinClicks, this`autoStart)
    {
      StartWith(CurrentView());
    }

    /** Editing the topic also clears the error. */
    method SetTopic(topic: string)
      modifies this
      ensures settings == old(settings).(topic := topic) && error == ""
      ensures unchanged(this`stage, this`generatedCode, this`joinCode, this`connectionStatus, this`isWaiting)
      ensures unchanged(this`calls, this`started, this`createClicks, this`joinClicks, this`autoStart)
    {
      settings := settings.(topic := topic);
      error := "";
    }

    /** Editing the user's or the partner's persona (name, role or avatar). */
    method SetProfiles(user: UserProfile, partner: UserProfile)
      modifies this
      ensures settings == old(settings).(user := user, partner := partner)
      ensures unchanged(this`error, this`stage, this`generatedCode, this`joinCode, this`connectionStatus)
      ensures unchanged(this`isWaiting, this`calls, this`started, this`createClicks, this`joinClicks, this`autoStart)
    {
      settings := settings.(user := user, partner := partner);
    }

    /** Picking one of the preset themes, or a custom colour. */
    method SetTheme(theme: AppTheme, customColor: Option<string>)
      modifies this
      ensures customColor.None? ==> settings == old(settings).(theme := theme)
      ensures customColor.Some? ==> settings == old(settings).(theme := CUSTOM, customColor := customColor)
      ensures unchanged(this`error, this`stage, this`generatedCode, this`joinCode, this`connectionStatus)
      ensures unchanged(this`isWaiting, this`calls, this`started, this`createClicks, this`joinClicks, this`autoStart)
    {
      if customColor.None? {
        settings := settings.(theme := theme);
      } else {
        settings := settings.(theme := CUSTOM, customColor := customColor);
      }
    }

    /** A mode button, followed by the reset effect when the mode changed to one other than
        REMOTE: the lobby returns to no room and the peer service is closed. */
    method SetMode(mode: GameMode)
      modifies this
      ensures settings == old(settings).(mode := mode)
      ensures mode != old(settings).mode && mode != REMOTE ==>
        stage == NoRoom && generatedCode == "" && connectionStatus == "" && calls == old(calls) + [P2P.Close]
      ensures !(mode != old(settings).mode && mode != REMOTE) ==>
        unchanged(this`stage, this`generatedCode, this`connectionStatus, this`calls)
      ensures unchanged(this`error, this`joinCode, this`isWaiting, this`started)
      ensures unchanged(this`createClicks, this`joinClicks, this`autoStart)
    {
      var changed := mode != settings.mode;
      settings := settings.(mode := mode);
      if changed && mode != REMOTE {
        stage, generatedCode, connectionStatus := NoRoom, "", "";
        calls := calls + [P2P.Close];
      }
    }

    /** "Připojit se" opens the code entry. */
    method ChooseJoin()
      modifies this`stage
      ensures stage == Joining
    {
      stage := Joining;
    }

    /** "Zrušit" and "Zpět" return to the choice; the peer service is not closed. */
    method Cancel()
      modifies this`stage
      ensures stage == NoRoom
    {
      stage := NoRoom;
    }

    /** Typing in the code field; the text is upper-cased. */
    method SetJoinCode(typed: string)
      modifies this`joinCode
      ensures joinCode == Text.ToUpper(typed)
    {
      joinCode := Text.ToUpper(typed);
    }

    /** `handleCreateRoom` up to its `await`: a host is requested. */
    method HandleCreateRoom()
      modifies this
      ensures isWaiting && connectionStatus == StatusGenerating
      ensures calls == old(calls) + [P2P.HostRoom]
      ensures createClicks == old(createClicks) + [old(CurrentView())]
      ensures unchanged(this`settings, this`error, this`stage, this`generatedCode, this`joinCode)
      ensures unchanged(this`started, this`joinClicks, this`autoStart)
    {
      isWaiting := true;
      connectionStatus := StatusGenerating;
      calls := calls + [P2P.HostRoom];
      createClicks := createClicks + [CurrentView()];
    }

    /** The rest of `handleCreateRoom`, once the i-th host request settles: with the room
        code, or with a failure. On success the auto-start closure is registered as the
        connect handler, together with a data handler that ignores data and no close
        handler. */
    method CreateRoomSettled(i: nat, code: Option<string>)
      requires i < |createClicks|
      modifies this
      ensures !isWaiting
      ensures code.Some? ==>
        && generatedCode == code.value && stage == Hosting && connectionStatus == StatusWaiting
        && calls == old(calls) + [P2P.Register(P2P.SetupIgnoreData, Some(P2P.SetupAutoStart), None)]
        && autoStart == Some(old(createClicks)[i])
        && unchanged(this`error)
      ensures code.None? ==>
        && error == CreateFailed
        && unchanged(this`generatedCode, this`stage, this`connectionStatus, this`calls, this`autoStart)
      ensures unchanged(this`settings, this`joinCode, this`started, this`createClicks, this`joinClicks)
    {
      if code.Some? {
        generatedCode := code.value;
        stage := Hosting;
        connectionStatus := StatusWaiting;
        calls := calls + [P2P.Register(P2P.SetupIgnoreData, Some(P2P.SetupAutoStart), None)];
        autoStart := Some(createClicks[i]);
      } else {
        error := CreateFailed;
      }
      isWaiting := false;
    }

    /** The registered connect handler runs when a partner's connection opens. It calls
        the `handleStart` of the render in which "Vytvořit místnost" was clicked, so the
        settings, the created code and the typed code are those of that moment. */
    method PartnerConnected()
      requires autoStart.Some?
      modifies this
      ensures var view := old(autoStart).value;
        && (StartCheck(view.settings).Some? ==> error == StartCheck(view.settings).value && started == old(started))
        && (StartCheck(view.settings).None? ==>
              started == old(started) + [StartSettings(view.settings, realStudentName, realStudentEmail,
                                                       realStudentClass, view.generatedCode, view.joinCode)])
      ensures unchanged(this`settings, this`stage, this`generatedCode, this`joinCode, this`connectionStatus)
      ensures unchanged(this`isWaiting, this`calls, this`createClicks, this`joinClicks, this`autoStart)
    {
      StartWith(autoStart.value);
    }

    /** The intended connect handler: the start uses the state at the moment the partner
        connects, so it carries the room code that the partner dialed. */
    method PartnerConnectedIntended()
      modifies this
      ensures StartCheck(old(settings)).Some? ==> error == StartCheck(old(settings)).value && started == old(started)
      ensures StartCheck(old(settings)).None? ==>
        started == old(started) + [StartSettings(old(settings), realStudentName, realStudentEmail,
                                                 realStudentClass, old(generatedCode), old(joinCode))]
      ensures unchanged(this`settings, this`stage, this`generatedCode, this`joinCode, this`connectionStatus)
      ensures unchanged(this`isWaiting, this`calls, this`createClicks, this`joinClicks, this`autoStart)
    {
      StartWith(CurrentView());
    }

    /** `handleJoinRoom` up to its `await`: a code that is empty or not four characters
        long is refused without contacting the peer service. */
    method HandleJoinRoom()
      modifies this
      ensures !JoinCodeAccepted(old(joinCode)) ==>
        error == BadJoinCode && unchanged(this`isWaiting, this`connectionStatus, this`calls, this`joinClicks)
      ensures JoinCodeAccepted(old(joinCode)) ==>
        && isWaiting && connectionStatus == StatusJoining && unchanged(this`error)
        && calls == old(calls) + [P2P.JoinRoom(old(joinCode))]
        && joinClicks == old(joinClicks) + [old(CurrentView())]
      ensures unchanged(this`settings, this`stage, this`generatedCode, this`joinCode)
      ensures unchanged(this`started, this`createClicks, this`autoStart)
    {
      if !JoinCodeAccepted(joinCode) {
        error := BadJoinCode;
        return;
      }
      isWaiting := true;
      connectionStatus := StatusJoining;
      calls := calls + [P2P.JoinRoom(joinCode)];
      joinClicks := joinClicks + [CurrentView()];
    }

    /** The rest of `handleJoinRoom`, once the i-th join settles: the chat starts through
        the `handleStart` of the click's render, or the failure is reported. */
    method JoinSettled(i: nat, joined: bool)
      requires i < |joinClicks|
      modifies this
      ensures joined ==> var view := old(joinClicks)[i];
        && (StartCheck(view.settings).Some? ==> error == StartCheck(view.settings).value && started == old(started))
        && (StartCheck(view.settings).None? ==>
              started == old(started) + [StartSettings(view.settings, realStudentName, realStudentEmail,
                                                       realStudentClass, view.generatedCode, view.joinCode)])
        && unchanged(this`isWaiting)
      ensures !joined ==> error == JoinFailed && !isWaiting && started == old(started)
      ensures unchanged(this`settings, this`stage, this`generatedCode, this`joinCode, this`connectionStatus)
      ensures unchanged(this`calls, this`createClicks, this`joinClicks, this`autoStart)
    {
      if joined {
        StartWith(joinClicks[i]);
      } else {
        error := JoinFailed;
        isWaiting := false;
      }
    }
  }

  /** A filled-in REMOTE form on a screen that has never joined or typed a code. */
  predicate FreshRemoteForm(sc: SetupScreen)
    reads sc
  {
    sc.settings.mode == REMOTE && StartCheck(sc.settings).None? && sc.generatedCode == "" && sc.joinCode == ""
  }

  /** The host creates a room, its code arrives, a partner connects. As written, the chat
      starts with an empty room code instead of the one the partner dialed. */
  method HostStartsWithoutCode(sc: SetupScreen, code: string)
    requires FreshRemoteForm(sc) && code != ""
    modifies sc
    ensures |sc.started| == |old(sc.started)| + 1
    ensures sc.started[|sc.started| - 1].p2pCode == Some("")
    ensures sc.generatedCode == code
  {
    sc.HandleCreateRoom();
    sc.CreateRoomSettled(|sc.createClicks| - 1, Some(code));
    sc.PartnerConnected();
  }

  /** The same sequence with the intended handler: the chat carries the created code. */
  method HostStartsWithCode(sc: SetupScreen, code: string)
    requires FreshRemoteForm(sc) && code != ""
    modifies sc
    ensures |sc.started| == |old(sc.started)| + 1
    ensures sc.started[|sc.started| - 1].p2pCode == Some(code)
  {
    sc.HandleCreateRoom();
    sc.CreateRoomSettled(|sc.createClicks| - 1, Some(code));
    sc.PartnerConnectedIntended();
  }
}
