/** The top-level screen switch: which view is current, who is signed in,
    their stored profile and the analysis in progress, the handlers the
    views call, and the choice of screen from that state. */
module App {
  import opened Wrappers
  import ConfirmationView
  import ProfileForm

  datatype View = Loading | Login | Register | Profile | Scanner | History | Confirmation | Results

  /** The signed-in user: `hasProfile`, and the other fields, which the
      screen switch passes along without reading. */
  datatype User = User(fields: map<string, string>, hasProfile: bool)

  /** The object handed to `onAnalysisComplete` or built by
      `handleViewScan`: an optional `step`, the scanned data when it comes
      from the scanner, and the report when there is one. */
  datatype AnalysisData<R> = AnalysisData(
    step: Option<string>,
    scan: Option<ConfirmationView.ScanData>,
    report: Option<R>)

  /** What the screen switch renders. */
  datatype Screen<R> =
    | LoadingScreen
    | LoginScreen
    | RegisterScreen
    | ProfileScreen(existingProfile: Option<ProfileForm.ProfileData>, canGoBack: bool)
    | ScannerScreen(user: Option<User>)
    | HistoryScreen
    | ConfirmationScreen(data: AnalysisData<R>)
    | ReportScreen(report: Option<R>)
    | ErrorScreen

  class App<R> {
    var currentView: View
    var user: Option<User>
    var userProfile: Option<ProfileForm.ProfileData>
    var analysisData: Option<AnalysisData<R>>

    /** The two analysis views always have data to show. */
    predicate Valid()
      reads this
    {
      (currentView == Confirmation || currentView == Results) ==> analysisData.Some?
    }

    /** The state before `initializeApp` has run. */
    constructor ()
      ensures currentView == Loading && user.None? && userProfile.None? && analysisData.None?
      ensures Valid()
    {
      currentView := Loading;
      user := None;
      userProfile := None;
      analysisData := None;
    }

    /** `initializeApp`, given whether a token and a saved user are stored,
        what the current-user request returned (`None` when it failed) and
        what the profile request returned (`None` when it failed). A valid
        session leads to the scanner, anything else to the login view. */
    method InitializeApp(hasSession: bool, currentUser: Option<User>,
                         profileResponse: Option<Option<ProfileForm.ProfileData>>)
      requires Valid()
      modifies this
      ensures Valid()
      ensures analysisData == old(analysisData)
      ensures hasSession && currentUser.Some? ==> currentView == Scanner && user == currentUser
      ensures hasSession && currentUser.Some? && currentUser.value.hasProfile && profileResponse.Some? ==>
                userProfile == profileResponse.value
      ensures !(hasSession && currentUser.Some? && currentUser.value.hasProfile && profileResponse.Some?) ==>
                userProfile == old(userProfile)
      ensures !(hasSession && currentUser.Some?) ==> currentView == Login && user == old(user)
    {
      if hasSession {
        if currentUser.Some? {
          user := currentUser;
          if currentUser.value.hasProfile && profileResponse.Some? {
            userProfile := profileResponse.value;
          }
          currentView := Scanner;
        } else {
          currentView := Login;
        }
      } else {
        currentView := Login;
      }
    }

    /** `handleLogin`: a user with a profile goes to the scanner, one
        without to the profile form. */
    method HandleLogin(userData: User)
      requires Valid()
      modifies this
      ensures Valid()
      ensures user == Some(userData)
      ensures currentView == if userData.hasProfile then Scanner else Profile
      ensures userProfile == old(userProfile) && analysisData == old(analysisData)
    {
      user := Some(userData);
      if userData.hasProfile {
        currentView := Scanner;
      } else {
        currentView := Profile;
      }
    }

    /** `handleRegister`: a new user always goes to the profile form. */
    method HandleRegister(userData: User)
      requires Valid()
      modifies this
      ensures Valid()
      ensures user == Some(userData) && currentView == Profile
      ensures userProfile == old(userProfile) && analysisData == old(analysisData)
    {
      user := Some(userData);
      currentView := Profile;
    }

    /** `handleLogout`: everything is forgotten and the login view shows. */
    method HandleLogout()
      requires Valid()
      modifies this
      ensures Valid()
      ensures user.None? && userProfile.None? && analysisData.None? && currentView == Login
    {
      user := None;
      userProfile := None;
      analysisData := None;
      currentView := Login;
    }

    /** `handleProfileSaved`: the profile is kept, the user is marked as
        having one with its other fields unchanged (spreading a missing
        user leaves only the flag), and the scanner shows. */
    method HandleProfileSaved(profile: ProfileForm.ProfileData)
      requires Valid()
      modifies this
      ensures Valid()
      ensures userProfile == Some(profile) && currentView == Scanner
      ensures user.Some? && user.value.hasProfile
      ensures user.value.fields == if old(user).Some? then old(user).value.fields else map[]
      ensures analysisData == old(analysisData)
    {
      userProfile := Some(profile);
      user := Some(User(if user.Some? then user.value.fields else map[], true));
      currentView := Scanner;
    }

    /** `handleAnalysisComplete`: the data is always stored; only the steps
        `confirmation` and `results` change the view. */
    method HandleAnalysisComplete(data: AnalysisData<R>)
      requires Valid()
      modifies this
      ensures Valid()
      ensures analysisData == Some(data)
      ensures data.step == Some("confirmation") ==> currentView == Confirmation
      ensures data.step == Some("results") ==> currentView == Results
      ensures data.step != Some("confirmation") && data.step != Some("results") ==> currentView == old(currentView)
      ensures user == old(user) && userProfile == old(userProfile)
    {
      analysisData := Some(data);
      if data.step == Some("confirmation") {
        currentView := Confirmation;
      } else if data.step == Some("results") {
        currentView := Results;
      }
    }

    /** `handleBackToScanner`: the analysis is dropped and the scanner
        shows. */
    method HandleBackToScanner()
      requires Valid()
      modifies this
      ensures Valid()
      ensures analysisData.None? && currentView == Scanner
      ensures user == old(user) && userProfile == old(userProfile)
    {
      analysisData := None;
      currentView := Scanner;
    }

    /** `handleNewAnalysis`: the same state change as going back to the
        scanner. */
    method HandleNewAnalysis()
      requires Valid()
      modifies this
      ensures Valid()
      ensures analysisData.None? && currentView == Scanner
      ensures user == old(user) && userProfile == old(userProfile)
    {
      analysisData := None;
      currentView := Scanner;
    }

    /** `handleViewScan`: the rebuilt report, with no step, is shown in the
        results view. */
    method HandleViewScan(report: R)
      requires Valid()
      modifies this
      ensures Valid()
      ensures analysisData == Some(AnalysisData(None, None, Some(report))) && currentView == Results
      ensures user == old(user) && userProfile == old(userProfile)
    {
      analysisData := Some(AnalysisData(None, None, Some(report)));
      currentView := Results;
    }

    /** `switchToRegister`, `switchToLogin`, `goToProfile` and
        `goToScanHistory`: a view change and nothing else. */
    method Navigate(target: View)
      requires Valid()
      requires target == Register || target == Login || target == Profile || target == History
      modifies this
      ensures Valid()
      ensures currentView == target
      ensures user == old(user) && userProfile == old(userProfile) && analysisData == old(analysisData)
    {
      currentView := target;
    }

    /** The screen switch: one screen per view, where the two analysis
        views need data and otherwise fall through to the error screen. */
    function Render(): (s: Screen<R>)
      reads this
      ensures s.ErrorScreen? <==> (currentView == Confirmation || currentView == Results) && analysisData.None?
      ensures currentView == Profile ==>
                s == ProfileScreen(userProfile, user.Some? && user.value.hasProfile)
      ensures currentView == Results && analysisData.Some? ==> s == ReportScreen(analysisData.value.report)
      ensures currentView == Confirmation && analysisData.Some? ==> s == ConfirmationScreen(analysisData.value)
    {
      match currentView
      case Loading => LoadingScreen
      case Login => LoginScreen
      case Register => RegisterScreen
      case Profile => ProfileScreen(userProfile, user.Some? && user.value.hasProfile)
      case Scanner => ScannerScreen(user)
      case History => HistoryScreen
      case Confirmation => if analysisData.Some? then ConfirmationScreen(analysisData.value) else ErrorScreen
      case Results => if analysisData.Some? then ReportScreen(analysisData.value.report) else ErrorScreen
    }
  }

  /** Every handler keeps the state valid, so the fallback error screen is
      never rendered. */
  lemma NoErrorScreen<R>(app: App<R>)
    requires app.Valid()
    ensures !app.Render().ErrorScreen?
  {
  }
}
