/** The application shell: which screen is shown, the signed-in identity, and the scenario
    of the running chat. */
module AppShell {
  import opened Types
  import Gemini

  datatype AppState = LoginState | SetupState | ChatState | AdminState

  /** What is rendered. */
  datatype View =
    | LoginView
    | AdminView
    | SetupView(name: string, email: string, class_: string)
    | ChatView(settings: ChatSettings)
    | Nothing

  class App {
    const ai: Gemini.ChatClient
    var appState: AppState
    var realStudentName: string
    var realStudentEmail: string
    var realStudentClass: string
    var currentSettings: Option<ChatSettings>

    /** A chat is only ever entered together with its settings. */
    predicate Valid()
      reads this
    {
      appState == ChatState ==> currentSettings.Some?
    }

    /** The screen for the current state; the chat needs settings as well. */
    function Shown(): (v: View)
      reads this
      ensures v.LoginView? <==> appState == LoginState
      ensures v.AdminView? <==> appState == AdminState
      ensures v.SetupView? <==> appState == SetupState
      ensures Valid() ==> (v.ChatView? <==> appState == ChatState)
    {
      match appState
      case LoginState => LoginView
      case AdminState => AdminView
      case SetupState => SetupView(realStudentName, realStudentEmail, realStudentClass)
      case ChatState => if currentSettings.Some? then ChatView(currentSettings.value) else Nothing
    }

    constructor (ai: Gemini.ChatClient)
      ensures this.ai == ai && Valid()
      ensures appState == LoginState && currentSettings.None?
      ensures realStudentName == "" && realStudentEmail == "" && realStudentClass == ""
    {
      this.ai := ai;
      appState := LoginState;
      realStudentName, realStudentEmail, realStudentClass := "", "", "";
      currentSettings := None;
    }

    /** `handleLogin`, passed to the login screen. */
    method HandleLogin(name: string, email: string, class_: string)
      requires Valid() && appState == LoginState
      modifies this
      ensures Valid() && appState == SetupState
      ensures realStudentName == name && realStudentEmail == email && realStudentClass == class_
      ensures currentSettings == old(currentSettings)
    {
      realStudentName, realStudentEmail, realStudentClass := name, email, class_;
      appState := SetupState;
    }

    /** `onAdminLogin`, passed to the login screen only. */
    method EnterAdmin()
      requires Valid() && appState == LoginState
      modifies this`appState
      ensures Valid() && appState == AdminState
    {
      appState := AdminState;
    }

    /** `onBack` of the dashboard: always back to the login screen. */
    method LeaveAdmin()
      requires Valid() && appState == AdminState
      modifies this`appState
      ensures Valid() && appState == LoginState
    {
      appState := LoginState;
    }

    /** `startChat`, passed to the setup screen: a new AI chat for the scenario, then the
        chat screen. It can run from any screen, because the setup screen's auto-start
        closure outlives the screen and fires whenever a partner connects. */
    method StartChat(settings: ChatSettings)
      requires Valid()
      modifies this`currentSettings, this`appState, ai
      ensures Valid() && currentSettings == Some(settings) && appState == ChatState
      ensures Shown() == ChatView(settings)
      ensures ai.chatSession == Some(Gemini.ChatConfig(Gemini.ModelName, Gemini.SystemInstruction(settings),
                                                       Gemini.TemperatureTenths, Gemini.MaxOutputTokens))
      ensures unchanged(this`realStudentName, this`realStudentEmail, this`realStudentClass)
    {
      ai.InitializeChat(settings);
      currentSettings := Some(settings);
      appState := ChatState;
    }

    /** `exitChat`, passed to the chat screen, with the answer to its confirmation. */
    method ExitChat(confirmed: bool)
      requires Valid() && appState == ChatState
      modifies this`currentSettings, this`appState
      ensures Valid()
      ensures confirmed ==> appState == SetupState && currentSettings.None?
      ensures !confirmed ==> appState == old(appState) && currentSettings == old(currentSettings)
    {
      if confirmed {
        appState := SetupState;
        currentSettings := None;
      }
    }

    /** `handleLogout`, passed to the setup screen: the identity is forgotten. */
    method HandleLogout()
      requires Valid() && appState == SetupState
      modifies this
      ensures Valid() && appState == LoginState
      ensures realStudentName == "" && realStudentEmail == "" && realStudentClass == ""
      ensures currentSettings == old(currentSettings)
    {
      realStudentName, realStudentEmail, realStudentClass := "", "", "";
      appState := LoginState;
    }
  }
}
