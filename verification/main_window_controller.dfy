/**
 * The main window controller of the eduVPN client: the object that owns the
 * navigation stack and changes it in place. Each method is proved against
 * the value-level definition in module Navigation.
 */
module MainWindow {
  import opened Navigation

  class MainWindowController {
    /** The screens visited, root first; the last one is on display. */
    var navigationStack: seq<Screen>
    /** Every show request made to the main view controller, oldest first. */
    ghost var shown: seq<Show>

    /** An initialised window: the root is on the stack, and the latest show
        request, if any, is of the screen on top. */
    ghost predicate Valid()
      reads this
    {
      |navigationStack| > 0
      && (shown != [] ==> shown[|shown| - 1].screen == Top(navigationStack))
    }

    constructor ()
      ensures navigationStack == [] && shown == []
    {
      navigationStack := [];
      shown := [];
    }

    /** windowDidLoad(): put the screen currently hosted by the content view
        controller on the stack. A freshly created window becomes valid with
        exactly that screen as its root. */
    method WindowDidLoad(current: Screen)
      modifies this
      ensures navigationStack == old(navigationStack) + [current]
      ensures shown == old(shown)
      ensures old(navigationStack) == [] && old(shown) == [] ==>
                Valid() && navigationStack == [current]
    {
      navigationStack := navigationStack + [current];
    }

    /** push(viewController:): append and show sliding forward. */
    method Push(viewController: Screen)
      modifies this
      ensures navigationStack == Pushed(old(navigationStack), viewController).stack
      ensures shown == old(shown) + [Show(viewController, SlideForward)]
      ensures Top(navigationStack) == viewController
      ensures old(Valid()) ==> Valid() && navigationStack[0] == old(navigationStack[0])
    {
      navigationStack := navigationStack + [viewController];
      shown := shown + [Show(viewController, SlideForward)];
    }

    /** pop(): no-op with only the root left, else drop the top and show
        the new top sliding backward. */
    method Pop()
      modifies this
      ensures navigationStack == Popped(old(navigationStack)).stack
      ensures shown == old(shown) + Popped(old(navigationStack)).Shows()
      ensures old(Valid()) ==> Valid() && navigationStack[0] == old(navigationStack[0])
    {
      if |navigationStack| <= 1 {
        return;
      }
      navigationStack := navigationStack[..|navigationStack| - 1];
      shown := shown + [Show(navigationStack[|navigationStack| - 1], SlideBackward)];
    }

    /** popToRoot(): no-op with only the root left, else cut the stack back
        to its first screen and show it sliding backward. */
    method PopToRoot()
      modifies this
      ensures navigationStack == PoppedToRoot(old(navigationStack)).stack
      ensures shown == old(shown) + PoppedToRoot(old(navigationStack)).Shows()
      ensures old(Valid()) ==> Valid() && navigationStack[0] == old(navigationStack[0])
    {
      if |navigationStack| <= 1 {
        return;
      }
      navigationStack := [navigationStack[0]];
      shown := shown + [Show(navigationStack[|navigationStack| - 1], SlideBackward)];
    }

    /** The typed pushes: each builds the screen it names, fills in its
        fields from the arguments unchanged, and pushes it. */
    method ShowChooseConnectType()
      modifies this
      ensures navigationStack == old(navigationStack) + [ChooseConnectionType]
      ensures shown == old(shown) + [Show(ChooseConnectionType, SlideForward)]
      ensures old(Valid()) ==> Valid()
    {
      Push(ChooseConnectionType);
    }

    method ShowChooseProvider(connectionType: ConnectionType, providers: seq<Provider>)
      modifies this
      ensures |navigationStack| == |old(navigationStack)| + 1
      ensures navigationStack[..|old(navigationStack)|] == old(navigationStack)
      ensures Top(navigationStack).ChooseProvider?
      ensures Top(navigationStack).connectionType == connectionType
      ensures Top(navigationStack).providers == providers
      ensures shown == old(shown) + [Show(Top(navigationStack), SlideForward)]
      ensures old(Valid()) ==> Valid()
    {
      Push(ChooseProvider(connectionType, providers));
    }

    method ShowAuthenticating(info: ProviderInfo)
      modifies this
      ensures |navigationStack| == |old(navigationStack)| + 1
      ensures navigationStack[..|old(navigationStack)|] == old(navigationStack)
      ensures Top(navigationStack).Authenticating?
      ensures Top(navigationStack).info == info
      ensures shown == old(shown) + [Show(Top(navigationStack), SlideForward)]
      ensures old(Valid()) ==> Valid()
    {
      Push(Authenticating(info));
    }

    method ShowChooseProfile(profiles: seq<Profile>, authState: AuthState)
      modifies this
      ensures |navigationStack| == |old(navigationStack)| + 1
      ensures navigationStack[..|old(navigationStack)|] == old(navigationStack)
      ensures Top(navigationStack).ChooseProfile?
      ensures Top(navigationStack).profiles == profiles
      ensures Top(navigationStack).authState == authState
      ensures shown == old(shown) + [Show(Top(navigationStack), SlideForward)]
      ensures old(Valid()) ==> Valid()
    {
      Push(ChooseProfile(profiles, authState));
    }

    method ShowConnection(profile: Profile, authState: AuthState)
      modifies this
      ensures |navigationStack| == |old(navigationStack)| + 1
      ensures navigationStack[..|old(navigationStack)|] == old(navigationStack)
      ensures Top(navigationStack).Connection?
      ensures Top(navigationStack).profile == profile
      ensures Top(navigationStack).authState == authState
      ensures shown == old(shown) + [Show(Top(navigationStack), SlideForward)]
      ensures old(Valid()) ==> Valid()
    {
      Push(Connection(profile, authState));
    }
  }

  /** A window that has loaded and then run push, push, push, pop and
      popToRoot ends with its root alone on the stack, after showing C and
      then B and the root sliding backward. */
  method NavigateAndReturn(root: Screen, a: Screen, b: Screen, c: Screen)
    returns (w: MainWindowController)
    ensures w.navigationStack == [root]
    ensures w.shown == [Show(a, SlideForward), Show(b, SlideForward), Show(c, SlideForward),
                        Show(b, SlideBackward), Show(root, SlideBackward)]
  {
    w := new MainWindowController();
    w.WindowDidLoad(root);
    w.Push(a);
    w.Push(b);
    w.Push(c);
    assert w.navigationStack == [root, a, b, c];
    w.Pop();
    assert w.navigationStack == [root, a, b];
    w.PopToRoot();
  }
}
