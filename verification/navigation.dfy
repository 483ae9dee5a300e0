/**
 * The navigation stack of the eduVPN main window, as values.
 *
 * A screen is one of the view controllers the main window can host. The
 * window keeps an ordered stack of screens (the last one is the screen on
 * display) and changes it in three ways: push, pop and pop-to-root. Every
 * change that alters the stack also asks the main view controller to show
 * the new top with a slide animation; that request is modelled as a `Show`
 * event.
 *
 * This module defines the screens, the effect of one operation on a stack
 * (`Pushed`, `Popped`, `PoppedToRoot`), the effect of a whole sequence of
 * operations (`Run`) and the properties the window relies on.
 */
module Navigation {

  /** Types defined by the VPN client and by its OAuth library; the window
      only passes their values on, so they are left abstract. */
  type ConnectionType
  type Provider
  type ProviderInfo
  type Profile
  type AuthState

  datatype Option<T> = None | Some(value: T)

  /** One screen per view controller the window can put on its stack; each
      carries the fields the window fills in before pushing it. `Initial` is
      the screen hosted by the content view controller when the window
      loads. */
  datatype Screen =
    | Initial
    | ChooseConnectionType
    | ChooseProvider(connectionType: ConnectionType, providers: seq<Provider>)
    | Authenticating(info: ProviderInfo)
    | ChooseProfile(profiles: seq<Profile>, authState: AuthState)
    | Connection(profile: Profile, authState: AuthState)

  /** The animation options the main view controller accepts. */
  datatype Transition = SlideForward | SlideBackward

  /** A request to the main view controller to display a screen. */
  datatype Show = Show(screen: Screen, transition: Transition)

  /** What one operation does: the stack it leaves and the show request it
      makes, if any. */
  datatype Outcome = Outcome(stack: seq<Screen>, show: Option<Show>)
  {
    /** The show requests of this outcome, as a (possibly empty) log. */
    function Shows(): (log: seq<Show>)
      ensures |log| <= 1
      ensures log == [] <==> show.None?
      ensures show.Some? ==> log[0] == show.value
    {
      match show
      case None => []
      case Some(e) => [e]
    }
  }

  /** The screen on display: the last element of the stack. */
  function Top(stack: seq<Screen>): Screen
    requires |stack| > 0
  {
    stack[|stack| - 1]
  }

  /** push(viewController:): append the screen and show it sliding forward. */
  function Pushed(stack: seq<Screen>, s: Screen): (r: Outcome)
    ensures |r.stack| == |stack| + 1
    ensures r.stack[..|stack|] == stack
    ensures Top(r.stack) == s
    ensures r.show == Some(Show(Top(r.stack), SlideForward))
  {
    Outcome(stack + [s], Some(Show(s, SlideForward)))
  }

  /** pop(): unless only the root (or nothing) is left, drop the top screen
      and show the one below it sliding backward. */
  function Popped(stack: seq<Screen>): (r: Outcome)
    ensures |stack| <= 1 ==> r.stack == stack && r.show == None
    ensures |stack| > 1 ==>
              |r.stack| == |stack| - 1 && r.stack == stack[..|r.stack|]
              && r.show == Some(Show(Top(r.stack), SlideBackward))
  {
    if |stack| <= 1 then Outcome(stack, None)
    else
      var rest := stack[..|stack| - 1];
      Outcome(rest, Some(Show(rest[|rest| - 1], SlideBackward)))
  }

  /** popToRoot(): unless only the root (or nothing) is left, keep only the
      first screen and show it sliding backward. */
  function PoppedToRoot(stack: seq<Screen>): (r: Outcome)
    ensures |stack| <= 1 ==> r.stack == stack && r.show == None
    ensures |stack| > 1 ==>
              |r.stack| == 1 && r.stack[0] == stack[0]
              && r.show == Some(Show(stack[0], SlideBackward))
  {
    if |stack| <= 1 then Outcome(stack, None)
    else Outcome([stack[0]], Some(Show(stack[0], SlideBackward)))
  }

  /** The three operations of the window's navigation stack. */
  datatype Op = Push(screen: Screen) | Pop | PopToRoot

  function Apply(stack: seq<Screen>, op: Op): Outcome
  {
    match op
    case Push(s) => Pushed(stack, s)
    case Pop => Popped(stack)
    case PopToRoot => PoppedToRoot(stack)
  }

  /** The stack and the log of show requests after a sequence of operations. */
  datatype Trace = Trace(stack: seq<Screen>, shows: seq<Show>)

  function Run(stack: seq<Screen>, ops: seq<Op>): Trace
    decreases |ops|
  {
    if ops == [] then Trace(stack, [])
    else
      var before := Run(stack, ops[..|ops| - 1]);
      var o := Apply(before.stack, ops[|ops| - 1]);
      Trace(o.stack, before.shows + o.Shows())
  }

  /** Every operation either shows the new top or leaves the stack alone. */
  lemma ApplyShowsTopOrKeeps(stack: seq<Screen>, op: Op)
    ensures var o := Apply(stack, op);
            (o.show == None && o.stack == stack)
            || (|o.stack| > 0 && o.show.Some? && o.show.value.screen == Top(o.stack))
  {
  }

  /** Started from a non-empty stack, no operation empties it or changes the
      root: the forced unwraps of `last!` and `first!` in pop and popToRoot
      always succeed on an initialised window. */
  lemma ApplyKeepsRoot(stack: seq<Screen>, op: Op)
    requires |stack| > 0
    ensures var o := Apply(stack, op);
            |o.stack| > 0 && o.stack[0] == stack[0]
  {
  }

  /** push(s) followed by pop() restores the stack, once the root is on it. */
  lemma PushThenPopRestores(stack: seq<Screen>, s: Screen)
    requires |stack| > 0
    ensures Popped(Pushed(stack, s).stack).stack == stack
    ensures Popped(Pushed(stack, s).stack).show == Some(Show(Top(stack), SlideBackward))
  {
  }

  /** On a stack that is still empty (before the window has loaded), pop
      is a no-op, so push followed by pop leaves the pushed screen behind. */
  lemma PushThenPopOnEmpty(s: Screen)
    ensures Popped(Pushed([], s).stack).stack == [s]
  {
  }

  /** popToRoot() leaves a stack on which a second popToRoot() does nothing. */
  lemma PopToRootIdempotent(stack: seq<Screen>)
    ensures var once := PoppedToRoot(stack);
            PoppedToRoot(once.stack) == Outcome(once.stack, None)
  {
  }

  /** pop() and popToRoot() never make the stack deeper; push makes it one
      deeper. */
  lemma DepthBounds(stack: seq<Screen>, op: Op)
    ensures var o := Apply(stack, op);
            match op
            case Push(_) => |o.stack| == |stack| + 1
            case Pop => |o.stack| == if |stack| <= 1 then |stack| else |stack| - 1
            case PopToRoot => |o.stack| == if |stack| <= 1 then |stack| else 1
  {
  }

  /** The log of a run is a log of its prefix followed by the last
      operation's show request. */
  lemma RunSnoc(stack: seq<Screen>, ops: seq<Op>, op: Op)
    ensures Run(stack, ops + [op]).stack == Apply(Run(stack, ops).stack, op).stack
    ensures Run(stack, ops + [op]).shows == Run(stack, ops).shows + Apply(Run(stack, ops).stack, op).Shows()
  {
  }

  /** Invariant of an initialised window under any sequence of push, pop and
      popToRoot: the stack is non-empty and keeps its root. */
  lemma {:induction false} RunKeepsRoot(stack: seq<Screen>, ops: seq<Op>)
    requires |stack| > 0
    ensures |Run(stack, ops).stack| > 0
    ensures Run(stack, ops).stack[0] == stack[0]
    decreases |ops|
  {
    if ops != [] {
      var prefix := ops[..|ops| - 1];
      RunKeepsRoot(stack, prefix);
      ApplyKeepsRoot(Run(stack, prefix).stack, ops[|ops| - 1]);
    }
  }

  /** Whenever a run has made a show request, the last one is of the screen
      now on top of the stack. */
  lemma {:induction false} RunShowsTop(stack: seq<Screen>, ops: seq<Op>)
    ensures var t := Run(stack, ops);
            t.shows != [] ==> |t.stack| > 0 && t.shows[|t.shows| - 1].screen == Top(t.stack)
    decreases |ops|
  {
    if ops != [] {
      var prefix := ops[..|ops| - 1];
      RunShowsTop(stack, prefix);
      ApplyShowsTopOrKeeps(Run(stack, prefix).stack, ops[|ops| - 1]);
    }
  }

  /** The number of show requests of a run is at most the number of its
      operations, and a run without any leaves the stack as it was. */
  lemma {:induction false} RunWithoutShowsKeepsStack(stack: seq<Screen>, ops: seq<Op>)
    ensures |Run(stack, ops).shows| <= |ops|
    ensures Run(stack, ops).shows == [] ==> Run(stack, ops).stack == stack
    decreases |ops|
  {
    if ops != [] {
      var prefix := ops[..|ops| - 1];
      RunWithoutShowsKeepsStack(stack, prefix);
      ApplyShowsTopOrKeeps(Run(stack, prefix).stack, ops[|ops| - 1]);
    }
  }

  /** The operations that push the given screens, in order. */
  function Pushes(screens: seq<Screen>): (ops: seq<Op>)
    ensures |ops| == |screens|
    ensures forall i :: 0 <= i < |ops| ==> ops[i] == Push(screens[i])
  {
    if screens == [] then []
    else Pushes(screens[..|screens| - 1]) + [Push(screens[|screens| - 1])]
  }

  /** N pushes onto a stack make it N deeper, with the pushed screens on
      top in order, and show each screen sliding forward as it arrives. */
  lemma {:induction false} PushesAppend(stack: seq<Screen>, screens: seq<Screen>)
    ensures Run(stack, Pushes(screens)).stack == stack + screens
    ensures |Run(stack, Pushes(screens)).shows| == |screens|
    ensures forall i :: 0 <= i < |screens| ==>
              Run(stack, Pushes(screens)).shows[i] == Show(screens[i], SlideForward)
    decreases |screens|
  {
    if screens != [] {
      var prefix := screens[..|screens| - 1];
      var last := screens[|screens| - 1];
      PushesAppend(stack, prefix);
      assert Pushes(screens)[..|screens| - 1] == Pushes(prefix);
      assert stack + prefix + [last] == stack + screens by {
        assert prefix + [last] == screens;
      }
    }
  }
}
