/** `AuthWrapper`: the onboarding machine signup -> profile -> welcome -> complete. Each step's
    component is the only place its completion handler is wired, each handler merges its step's
    data into the accumulated data with an object spread, and completing the welcome step hands
    the accumulated data to `onAuthComplete`. */
module AuthWrapper {
  import opened Wrappers
  import opened Records

  datatype AuthStep = Signup | Profile | Welcome | Complete

  /** Position of a step in the flow. */
  function Index(s: AuthStep): nat {
    match s
    case Signup => 0
    case Profile => 1
    case Welcome => 2
    case Complete => 3
  }

  /** What `renderStep` shows: the component of the step, or nothing once complete. */
  datatype Screen = SignUpForm | ProfileSetup(userData: Record) | WelcomeScreen(userData: Record) | Nothing

  function RenderStep(step: AuthStep, userData: Record): (v: Screen)
    ensures v.Nothing? <==> step == Complete
    ensures v.SignUpForm? <==> step == Signup
    ensures v.ProfileSetup? ==> v.userData == userData
    ensures v.WelcomeScreen? ==> v.userData == userData
  {
    match step
    case Signup => SignUpForm
    case Profile => ProfileSetup(userData)
    case Welcome => WelcomeScreen(userData)
    case Complete => Nothing
  }

  /** A completion reported by one of the three step components. */
  datatype Event = SignUpDone(signupData: Record) | ProfileDone(profileData: Record) | WelcomeDone

  /** An event can happen only when the component carrying its handler is on screen. */
  predicate Wired(step: AuthStep, userData: Record, e: Event) {
    var v := RenderStep(step, userData);
    match e
    case SignUpDone(_) => v.SignUpForm?
    case ProfileDone(_) => v.ProfileSetup?
    case WelcomeDone => v.WelcomeScreen?
  }

  datatype Flow = Flow(step: AuthStep, userData: Record)

  const Start := Flow(Signup, map[])

  /** The handler of `e` as written (it does not look at the current step), paired with what it
      passes to `onAuthComplete`, if anything. */
  function Handle(f: Flow, e: Event): (Flow, Option<Record>) {
    match e
    case SignUpDone(d) => (Flow(Profile, Merge(f.userData, d)), None)
    case ProfileDone(d) => (Flow(Welcome, Merge(f.userData, d)), None)
    case WelcomeDone => (Flow(Complete, f.userData), Some(f.userData))
  }

  /** An event as it reaches the wrapper: only the handler wired on screen can fire. */
  function Deliver(f: Flow, e: Event): (r: (Flow, Option<Record>))
    ensures r.0 == f || Index(r.0.step) == Index(f.step) + 1
    ensures r.1.Some? ==> f.step == Welcome && r.0 == Flow(Complete, f.userData) && r.1.value == f.userData
    ensures f.step == Complete ==> r == (f, None)
  {
    if Wired(f.step, f.userData, e) then Handle(f, e) else (f, None)
  }

  /** A run of events: the final flow and every value passed to `onAuthComplete`, in order. */
  function Run(f: Flow, events: seq<Event>): (Flow, seq<Record>)
    decreases |events|
  {
    if events == [] then (f, [])
    else
      var (g, out) := Deliver(f, events[0]);
      var (h, rest) := Run(g, events[1..]);
      (h, (if out.Some? then [out.value] else []) + rest)
  }

  /** Before sign-up completes nothing has been collected. */
  predicate Fresh(f: Flow) {
    f.step == Signup ==> f.userData == map[]
  }

  /** From any state the flow only moves forward, at most one step per event; a completed flow
      stays put and sends nothing more; a flow not yet complete sends exactly one value, its final
      accumulated data, if and only if it ends complete. */
  lemma {:induction false} RunMovesForward(f: Flow, events: seq<Event>)
    requires Fresh(f)
    ensures var (g, sent) := Run(f, events);
      && Fresh(g)
      && Index(f.step) <= Index(g.step) <= Index(f.step) + |events|
      && (f.step == Complete ==> g == f && sent == [])
      && (f.step != Complete && g.step == Complete ==> sent == [g.userData])
      && (g.step != Complete ==> sent == [])
    decreases |events|
  {
    if events != [] {
      var (g, out) := Deliver(f, events[0]);
      RunMovesForward(g, events[1..]);
    }
  }

  /** No event can move the flow backwards or skip a step: in particular the steps are visited in
      the order signup, profile, welcome, complete. */
  lemma StepsInOrder(f: Flow, e: Event)
    ensures var g := Deliver(f, e).0;
      && (f.step == Signup ==> g.step in {Signup, Profile})
      && (f.step == Profile ==> g.step in {Profile, Welcome})
      && (f.step == Welcome ==> g.step in {Welcome, Complete})
      && (f.step == Complete ==> g.step == Complete)
  {
  }

  /** The full happy path: the accumulated data is the sign-up data with the profile data laid
      over it, and exactly that is passed on once. */
  lemma HappyPath(signupData: Record, profileData: Record)
    ensures Run(Start, [SignUpDone(signupData), ProfileDone(profileData), WelcomeDone])
         == (Flow(Complete, Merge(signupData, profileData)), [Merge(signupData, profileData)])
  {
    var empty: Record := map[];
    assert Merge(empty, signupData) == signupData;
    var both := Merge(signupData, profileData);
    var f1 := Flow(Profile, signupData);
    var f2 := Flow(Welcome, both);
    var f3 := Flow(Complete, both);
    assert Deliver(Start, SignUpDone(signupData)) == (f1, None);
    assert Deliver(f1, ProfileDone(profileData)) == (f2, None);
    assert Deliver(f2, WelcomeDone) == (f3, Some(both));
    assert Run(f3, []) == (f3, []);
    assert [WelcomeDone][1..] == [];
    assert [both] + [] == [both];
    assert Run(f2, [WelcomeDone]) == (f3, [both]);
    assert [ProfileDone(profileData), WelcomeDone][1..] == [WelcomeDone];
    assert [] + [both] == [both];
    assert Run(f1, [ProfileDone(profileData), WelcomeDone]) == (f3, [both]);
    var events := [SignUpDone(signupData), ProfileDone(profileData), WelcomeDone];
    assert events[1..] == [ProfileDone(profileData), WelcomeDone];
  }

  /** The wrapper's state. */
  class Onboarding {
    var currentStep: AuthStep
    var userData: Record

    constructor ()
      ensures currentStep == Signup && userData == map[]
      ensures Flow(currentStep, userData) == Start
    {
      currentStep := Signup;
      userData := map[];
    }

    method HandleSignUpComplete(signupData: Record)
      modifies this
      ensures userData == Merge(old(userData), signupData) && currentStep == Profile
    {
      userData := Merge(userData, signupData);
      currentStep := Profile;
    }

    method HandleProfileComplete(profileData: Record)
      modifies this
      ensures userData == Merge(old(userData), profileData) && currentStep == Welcome
    {
      userData := Merge(userData, profileData);
      currentStep := Welcome;
    }

    /** Returns what it passes to `onAuthComplete`. */
    method HandleWelcomeComplete() returns (sent: Record)
      modifies this
      ensures currentStep == Complete && userData == old(userData) && sent == old(userData)
    {
      currentStep := Complete;
      sent := userData;
    }

    /** One event from the component on screen; events of components not on screen cannot occur
        and are dropped. */
    method Dispatch(e: Event) returns (sent: Option<Record>)
      modifies this
      ensures (Flow(currentStep, userData), sent) == Deliver(Flow(old(currentStep), old(userData)), e)
    {
      if !Wired(currentStep, userData, e) {
        sent := None;
        return;
      }
      match e
      case SignUpDone(d) =>
        HandleSignUpComplete(d);
        sent := None;
      case ProfileDone(d) =>
        HandleProfileComplete(d);
        sent := None;
      case WelcomeDone =>
        var data := HandleWelcomeComplete();
        sent := Some(data);
    }
  }
}
