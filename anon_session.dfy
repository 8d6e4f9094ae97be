/**
 * The `AnonSession` panel: on mount it shows "Signing in...", asks for the stored session,
 * and signs in anonymously only when there is none, once, without retries. `getSession`'s
 * own error is not looked at: a failed check reads as "no session".
 */
module AnonSessionPanel {
  import opened Wrappers

  datatype PanelStatus = Idle | SigningIn | Ready | Failed

  const ActiveMessage: string := "Anonymous session active."
  const CreatedMessage: string := "Anonymous session created."
  const SigningInText: string := "Signing in..."

  datatype AuthCall = GetSession | SignInAnonymously

  /** What the effect does, in order: a state setter, or an auth call. */
  datatype Step = SetStatus(status: PanelStatus) | SetMessage(message: string) | Called(call: AuthCall)

  /** The panel's second line: the placeholder while signing in, the message otherwise. */
  function Display(status: PanelStatus, message: string): (text: string)
    ensures status == SigningIn ==> text == SigningInText
    ensures status != SigningIn ==> text == message
  {
    if status == SigningIn then SigningInText else message
  }

  /**
   * The settled status and message: "ready" with the active-session message when a session
   * was stored; otherwise "error" with the sign-in's message, or "ready" with the
   * created-session message. The panel then shows the message.
   */
  function Settled(hasSession: bool, signInError: Option<string>): (r: (PanelStatus, string))
    ensures r.0 == Ready || r.0 == Failed
    ensures r.0 == Failed <==> !hasSession && signInError.Some?
    ensures hasSession ==> r == (Ready, ActiveMessage)
    ensures !hasSession && signInError.Some? ==> r.1 == signInError.value
    ensures !hasSession && signInError.None? ==> r == (Ready, CreatedMessage)
    ensures Display(r.0, r.1) == r.1
  {
    if hasSession then (Ready, ActiveMessage)
    else if signInError.Some? then (Failed, signInError.value)
    else (Ready, CreatedMessage)
  }

  /** Whether one of the steps is the given auth call. */
  predicate Calls(steps: seq<Step>, c: AuthCall) {
    exists i :: 0 <= i < |steps| && steps[i] == Called(c)
  }

  /**
   * The steps of `ensureSession`: the status becomes "signing-in" before any auth call,
   * `getSession` is called exactly first, the anonymous sign-in happens exactly when no
   * session was stored, and the last two steps set the settled status and message.
   */
  function Steps(hasSession: bool, signInError: Option<string>): (s: seq<Step>)
    ensures |s| >= 4 && s[0] == SetStatus(SigningIn) && s[1] == Called(GetSession)
    ensures forall i :: 0 <= i < |s| && s[i].Called? ==> i > 0
    ensures Calls(s, SignInAnonymously) <==> !hasSession
    ensures s[|s| - 2] == SetStatus(Settled(hasSession, signInError).0)
    ensures s[|s| - 1] == SetMessage(Settled(hasSession, signInError).1)
  {
    var (status, message) := Settled(hasSession, signInError);
    var asked := [SetStatus(SigningIn), Called(GetSession)];
    var s := if hasSession then asked else asked + [Called(SignInAnonymously)];
    var r := s + [SetStatus(status), SetMessage(message)];
    assert !hasSession ==> r[2] == Called(SignInAnonymously);
    r
  }

  class Panel {
    var status: PanelStatus
    var message: string
    var steps: seq<Step>

    constructor()
      ensures status == Idle && message == "" && steps == []
    {
      status := Idle;
      message := "";
      steps := [];
    }

    /** The panel's text as rendered. */
    function Text(): string
      reads this
    {
      Display(status, message)
    }

    /**
     * The mount effect, with whether `getSession` found a session and the sign-in's error
     * as inputs: the panel settles as `Settled` says, having taken exactly the steps `Steps`
     * describes.
     */
    method EnsureSession(hasSession: bool, signInError: Option<string>)
      modifies this
      ensures (status, message) == Settled(hasSession, signInError)
      ensures steps == old(steps) + Steps(hasSession, signInError)
    {
      status := SigningIn;
      steps := steps + [SetStatus(SigningIn)];
      steps := steps + [Called(GetSession)];
      if hasSession {
        status := Ready;
        steps := steps + [SetStatus(Ready)];
        message := ActiveMessage;
        steps := steps + [SetMessage(ActiveMessage)];
        return;
      }
      steps := steps + [Called(SignInAnonymously)];
      if signInError.Some? {
        status := Failed;
        steps := steps + [SetStatus(Failed)];
        message := signInError.value;
        steps := steps + [SetMessage(signInError.value)];
        return;
      }
      status := Ready;
      steps := steps + [SetStatus(Ready)];
      message := CreatedMessage;
      steps := steps + [SetMessage(CreatedMessage)];
    }
  }
}
