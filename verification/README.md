# eduVPN main window navigation stack

This project models the navigation stack of the eduVPN macOS client's main
window controller (`MainWindowController`). The window keeps an ordered
stack of view controllers ("screens"): the first is the screen hosted when
the window loads, the last is the one on display. `push` appends a screen and
asks the main view controller to show it sliding forward; `pop` drops the top
screen and shows the new top sliding backward; `popToRoot` cuts the stack
back to its first screen and shows it sliding backward. Both `pop` and
`popToRoot` do nothing when one screen (or none) is left. Five typed methods
(`showChooseConnectType`, `showChooseProvider`, `showAuthenticating`,
`showChooseProfile`, `showConnection`) build a screen, copy their arguments
into its fields and push it.

Two modules:

- `Navigation` (navigation.dfy): screens as a datatype with one variant per
  view controller and its payload; the show request as a `Show(screen,
  Transition)` value; the effect of one operation on a stack as the
  functions `Pushed`, `Popped` and `PoppedToRoot`; the effect of a sequence
  of operations as `Run`; and the lemmas about them.
- `MainWindow` (main_window_controller.dfy): the class `MainWindowController`
  with the stack as a field that its methods reassign, and a ghost log
  `shown` of every show request. Each method's postcondition ties the new
  stack and log to the corresponding `Navigation` function of the old stack.
  `Valid()` is the invariant of a loaded window: the stack is non-empty and
  the latest show request is of the screen on top.

The external types `ConnectionType`, `Provider`, `ProviderInfo`, `Profile`
and `AuthState` (the last is the OAuth library's `OIDAuthState`) are abstract:
the window only passes them on.

## Model

| member | source | states |
|---|---|---|
| MainWindow.MainWindowController.constructor | EduVPN/MainWindowController.swift:14 | a new window controller has an empty stack and has made no show request |
| MainWindow.MainWindowController.WindowDidLoad | EduVPN/MainWindowController.swift:17-27 | loading the window appends the hosted screen and shows nothing; on a fresh controller the stack becomes exactly `[current]` and the window is valid |
| MainWindow.MainWindowController.Push | EduVPN/MainWindowController.swift:33-36 | the new stack is the old one with the screen appended, the screen is on top, one forward show of it is logged, and validity and the root are kept |
| MainWindow.MainWindowController.Pop | EduVPN/MainWindowController.swift:38-44 | the stack and log change exactly as `Popped` says; a valid window stays valid with the same root |
| MainWindow.MainWindowController.PopToRoot | EduVPN/MainWindowController.swift:46-52 | the stack and log change exactly as `PoppedToRoot` says; a valid window stays valid with the same root |
| MainWindow.MainWindowController.ShowChooseConnectType | EduVPN/MainWindowController.swift:54-57 | pushes one `ChooseConnectionType` screen and shows it sliding forward |
| MainWindow.MainWindowController.ShowChooseProvider | EduVPN/MainWindowController.swift:59-64 | pushes one `ChooseProvider` screen whose connection type and provider list are the arguments, unchanged, over the untouched old stack |
| MainWindow.MainWindowController.ShowAuthenticating | EduVPN/MainWindowController.swift:66-70 | pushes one `Authenticating` screen carrying the given provider info over the untouched old stack |
| MainWindow.MainWindowController.ShowChooseProfile | EduVPN/MainWindowController.swift:72-77 | pushes one `ChooseProfile` screen carrying the given profiles and auth state over the untouched old stack |
| MainWindow.MainWindowController.ShowConnection | EduVPN/MainWindowController.swift:79-84 | pushes one `Connection` screen carrying the given profile and auth state over the untouched old stack |
| MainWindow.NavigateAndReturn | EduVPN/MainWindowController.swift:26-51 | load with a root, push A, B, C, pop, popToRoot: the stack ends as `[root]` and the shows are A, B, C forward, then B and root backward |
| Navigation.Pushed | EduVPN/MainWindowController.swift:33-36 | push yields a stack one deeper whose prefix is the old stack and whose top is the pushed screen, and requests a forward show of that top |
| Navigation.Popped | EduVPN/MainWindowController.swift:38-44 | with one screen or none, pop leaves the stack alone and requests nothing; otherwise it removes exactly the last screen, keeps the rest, and requests a backward show of the new top |
| Navigation.PoppedToRoot | EduVPN/MainWindowController.swift:46-52 | with one screen or none, popToRoot leaves the stack alone and requests nothing; otherwise the stack becomes its first screen alone, shown sliding backward |
| Navigation.Outcome.Shows | EduVPN/MainWindowController.swift:35 | an operation logs at most one show request, and one exactly when it makes a request |
| Navigation.ApplyShowsTopOrKeeps | EduVPN/MainWindowController.swift:33-52 | every operation either leaves the stack unchanged and requests nothing, or requests a show of the new top |
| Navigation.ApplyKeepsRoot | EduVPN/MainWindowController.swift:39-50 | on a non-empty stack every operation keeps it non-empty with the same first screen, so the `last!` and `first!` unwraps cannot fail |
| Navigation.PushThenPopRestores | EduVPN/MainWindowController.swift:34-43 | on a non-empty stack, push followed by pop restores the old stack and shows the old top sliding backward |
| Navigation.PushThenPopOnEmpty | EduVPN/MainWindowController.swift:38-41 | on the empty stack of a window not yet loaded, pop after push is guarded off, leaving the pushed screen |
| Navigation.PopToRootIdempotent | EduVPN/MainWindowController.swift:46-51 | a second popToRoot changes nothing and requests no show |
| Navigation.DepthBounds | EduVPN/MainWindowController.swift:33-51 | push deepens the stack by one; pop shrinks it by one and popToRoot to one, except at depth one or zero where both keep it |
| Navigation.RunSnoc | EduVPN/MainWindowController.swift:33-51 | running one more operation applies it to the stack left by the earlier ones and appends its show request to their log |
| Navigation.RunKeepsRoot | EduVPN/MainWindowController.swift:26-51 | after any sequence of push, pop and popToRoot from a non-empty stack, the stack is non-empty and its first screen is the original root |
| Navigation.RunShowsTop | EduVPN/MainWindowController.swift:35-51 | after any sequence of operations that made a show request, the latest request is of the screen now on top |
| Navigation.RunWithoutShowsKeepsStack | EduVPN/MainWindowController.swift:38-51 | a run makes at most one show request per operation, and a run that made none left the stack as it was |
| Navigation.Pushes | EduVPN/MainWindowController.swift:33-36 | the operation sequence pushing the given screens has one push per screen, in order |
| Navigation.PushesAppend | EduVPN/MainWindowController.swift:33-36 | N pushes make the stack the old one followed by the N screens (depth N + 1 from a root) and show each screen forward in order |

## Left out

- Cocoa window handling in `windowDidLoad` (the call to the superclass, the white background, the disabled title-bar code): user-interface side effects with no bearing on the stack.
- The rendering and animation done by the main view controller's `show(viewController:options:)`: modelled only as a logged `Show` request.
- Storyboard instantiation by identifier and the forced `as!` casts: screen construction is the datatype constructor, which cannot fail; a missing identifier or wrong type, which aborts the app, is not modelled.
- Screen identity: view controllers are objects, screens here are values, so two pushes of equal screens are indistinguishable.
- The `mainWindowController` lookup added to every view controller: a window-hierarchy query with no stack logic.
- The `topView` outlet: unused by the stack.
