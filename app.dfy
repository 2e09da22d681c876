/** The overlay of the application: the formation button and the focus
    message, derived from the store's state, and the button's click. */
module App {
  import opened Types
  import opened Store
  import Scene

  const DisperseLabel: string := "Disperse Elements"
  const AssembleLabel: string := "Assemble Tree"

  /** The two classes of the button's background fill. */
  datatype Fill = ScaleFull | ScaleNone

  /** The two colours of the button's text. */
  datatype TextColour = Black | Gold

  /** Everything the overlay shows for one state. */
  datatype Overlay = Overlay(isTree: bool, disabled: bool, buttonText: string, fill: Fill, textColour: TextColour, showMessage: bool)

  /** `isTree`: the tree is assembled. */
  predicate IsTree(s: CoordinatorState)
  {
    s.treeState == TREE_SHAPE
  }

  /** The overlay: the button is disabled and the message shown exactly while
      a locket is focused; text, fill and text colour follow the formation alone. */
  function View(s: CoordinatorState): (v: Overlay)
    ensures v.isTree <==> s.treeState == TREE_SHAPE
    ensures v.disabled <==> Focused(s.activeLocketId)
    ensures v.showMessage <==> Focused(s.activeLocketId)
    ensures v.buttonText == DisperseLabel <==> v.isTree
    ensures v.buttonText == AssembleLabel <==> !v.isTree
    ensures v.fill == ScaleFull <==> v.isTree
    ensures v.textColour == Black <==> v.isTree
  {
    var isTree := IsTree(s);
    var focused := Focused(s.activeLocketId);
    Overlay(isTree, focused, if isTree then DisperseLabel else AssembleLabel,
            if isTree then ScaleFull else ScaleNone, if isTree then Black else Gold, focused)
  }

  /** A click on the button: a disabled button swallows it, an enabled one
      hands it to the toggle. */
  function Click(s: CoordinatorState): (r: CoordinatorState)
    ensures r.activeLocketId == s.activeLocketId
    ensures Focused(s.activeLocketId) ==> r == s
    ensures !Focused(s.activeLocketId) ==> r.treeState == Flip(s.treeState)
  {
    if View(s).disabled then s else Step(s, ToggleTreeState)
  }

  /** The state after `n` clicks on the button. */
  function Clicks(s: CoordinatorState, n: nat): CoordinatorState
    decreases n
  {
    if n == 0 then s else Click(Clicks(s, n - 1))
  }

  /** A click on the store object, through the button. */
  method ClickButton(store: AppStore)
    modifies store
    ensures store.State() == Click(old(store.State()))
  {
    if !Focused(store.activeLocketId) {
      store.ToggleTreeState();
    }
  }

  /** What the button looks like depends only on the formation; whether it
      can be pressed depends only on the focus. */
  lemma ButtonDependsOnlyOn(s: CoordinatorState, u: CoordinatorState)
    ensures s.treeState == u.treeState ==>
      View(s).buttonText == View(u).buttonText && View(s).fill == View(u).fill &&
      View(s).textColour == View(u).textColour
    ensures Focused(s.activeLocketId) == Focused(u.activeLocketId) ==>
      View(s).disabled == View(u).disabled
  {
  }

  /** Through the button, the formation never changes while a locket is
      focused, however often it is clicked. */
  lemma {:induction false} ClicksWhileFocused(s: CoordinatorState, n: nat)
    requires Focused(s.activeLocketId)
    ensures Clicks(s, n) == s
    decreases n
  {
    if n > 0 {
      ClicksWhileFocused(s, n - 1);
    }
  }

  /** While nothing is focused, the button alternates the formation: after
      `n` clicks it is flipped exactly when `n` is odd. */
  lemma {:induction false} ClicksWhileUnfocused(s: CoordinatorState, n: nat)
    requires !Focused(s.activeLocketId)
    ensures Clicks(s, n) == Toggles(s, n)
    decreases n
  {
    if n > 0 {
      ClicksWhileUnfocused(s, n - 1);
    }
  }

  /** Scenario: starting from the initial state, focusing "locket-3" disables
      the button, shows the message, dims the spotlight target and makes a
      click a no-op. */
  lemma FocusScenario()
    ensures var s := Step(Initial(), SetActiveLocketId(Some("locket-3")));
      s == CoordinatorState(SCATTERED, Some("locket-3")) &&
      View(s).disabled && View(s).showMessage && !View(Initial()).disabled &&
      Scene.Targets(s.activeLocketId).spot < Scene.Targets(Initial().activeLocketId).spot &&
      Click(s) == s
  {
  }
}
