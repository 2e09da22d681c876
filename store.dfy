/** The zustand store: two fields, overwritten by three mutators. `set`
    merges its argument into the state shallowly, so every mutator changes
    the field it names and leaves the other one alone. */
module Store {
  import opened Types

  /** A snapshot of the store's two data fields. */
  datatype CoordinatorState = CoordinatorState(treeState: TreeState, activeLocketId: Option<string>)

  /** The store's three mutators, as data, so that runs of them can be
      reasoned about. */
  datatype Op =
    | SetTreeState(state: TreeState)
    | ToggleTreeState
    | SetActiveLocketId(id: Option<string>)

  /** The state the store is created with. */
  function Initial(): (s: CoordinatorState)
    ensures s.treeState == SCATTERED && !Focused(s.activeLocketId) && s.activeLocketId == None
  {
    CoordinatorState(SCATTERED, None)
  }

  /** The effect of one mutator on a snapshot. */
  function Step(s: CoordinatorState, op: Op): (r: CoordinatorState)
    // only the field the mutator names can change
    ensures !op.SetActiveLocketId? ==> r.activeLocketId == s.activeLocketId
    ensures op.SetActiveLocketId? ==> r.treeState == s.treeState && r.activeLocketId == op.id
    ensures op.SetTreeState? ==> r.treeState == op.state
    // the toggle always changes the formation, focused or not
    ensures op.ToggleTreeState? ==> r.treeState != s.treeState
  {
    match op
    case SetTreeState(t) => s.(treeState := t)
    case ToggleTreeState => s.(treeState := Flip(s.treeState))
    case SetActiveLocketId(id) => s.(activeLocketId := id)
  }

  /** The state after `n` toggles in a row. */
  function Toggles(s: CoordinatorState, n: nat): (r: CoordinatorState)
    ensures r.activeLocketId == s.activeLocketId
    ensures r.treeState == if n % 2 == 0 then s.treeState else Flip(s.treeState)
    decreases n
  {
    if n == 0 then s else Step(Toggles(s, n - 1), ToggleTreeState)
  }

  /** The state after a run of mutator calls, first to last. */
  function Run(s: CoordinatorState, ops: seq<Op>): CoordinatorState
    decreases |ops|
  {
    if ops == [] then s else Run(Step(s, ops[0]), ops[1..])
  }

  /** Toggling twice is the identity. */
  lemma ToggleTwice(s: CoordinatorState)
    ensures Step(Step(s, ToggleTreeState), ToggleTreeState) == s
  {
  }

  /** From the initial state, the tree is assembled after `n` toggles exactly
      when `n` is odd, and the focus is still `null`. */
  lemma ToggleParity(n: nat)
    ensures Toggles(Initial(), n).treeState == TREE_SHAPE <==> n % 2 == 1
    ensures Toggles(Initial(), n).activeLocketId == None
  {
  }

  /** The toggle has no focus guard: it flips the formation even while a
      locket is focused, and keeps that focus. */
  lemma ToggleIgnoresFocus(s: CoordinatorState)
    requires Focused(s.activeLocketId)
    ensures Step(s, ToggleTreeState) == CoordinatorState(Flip(s.treeState), s.activeLocketId)
  {
  }

  /** Setting the formation leaves exactly that formation, and doing it again
      changes nothing. */
  lemma SetTreeStateIdempotent(s: CoordinatorState, t: TreeState)
    ensures Step(s, SetTreeState(t)).treeState == t
    ensures Step(Step(s, SetTreeState(t)), SetTreeState(t)) == Step(s, SetTreeState(t))
  {
  }

  /** Two focus writes in a row leave exactly the second one. */
  lemma FocusLastWriteWins(s: CoordinatorState, a: Option<string>, b: Option<string>)
    ensures Step(Step(s, SetActiveLocketId(a)), SetActiveLocketId(b)) == Step(s, SetActiveLocketId(b))
    ensures Step(Step(s, SetActiveLocketId(a)), SetActiveLocketId(b)).treeState == s.treeState
  {
  }

  /** A run that never writes the focus keeps it; a run that never touches
      the formation keeps that. */
  lemma {:induction false} RunFrames(s: CoordinatorState, ops: seq<Op>)
    ensures (forall i :: 0 <= i < |ops| ==> !ops[i].SetActiveLocketId?) ==>
              Run(s, ops).activeLocketId == s.activeLocketId
    ensures (forall i :: 0 <= i < |ops| ==> ops[i].SetActiveLocketId?) ==>
              Run(s, ops).treeState == s.treeState
    decreases |ops|
  {
    if ops != [] {
      RunFrames(Step(s, ops[0]), ops[1..]);
      assert forall i :: 0 <= i < |ops| - 1 ==> ops[1..][i] == ops[i + 1];
    }
  }

  /** A run that ends with a focus write leaves exactly that focus, whatever
      came before it. */
  lemma {:induction false} RunLastFocusWins(s: CoordinatorState, ops: seq<Op>, id: Option<string>)
    ensures Run(s, ops + [SetActiveLocketId(id)]).activeLocketId == id
    decreases |ops|
  {
    if ops == [] {
      assert [] + [SetActiveLocketId(id)] == [SetActiveLocketId(id)];
    } else {
      assert (ops + [SetActiveLocketId(id)])[1..] == ops[1..] + [SetActiveLocketId(id)];
      RunLastFocusWins(Step(s, ops[0]), ops[1..], id);
    }
  }

  /** The store object. Its fields are overwritten in place by the mutators. */
  class AppStore {
    var treeState: TreeState
    var activeLocketId: Option<string>

    /** The current snapshot. */
    function State(): CoordinatorState
      reads this
    {
      CoordinatorState(treeState, activeLocketId)
    }

    /** `create(...)`: scattered, nothing focused. */
    constructor ()
      ensures State() == Initial()
      ensures treeState == SCATTERED && activeLocketId == None
    {
      treeState := SCATTERED;
      activeLocketId := None;
    }

    /** `setTreeState(state)`: unconditional overwrite of the formation. */
    method SetTreeState(state: TreeState)
      modifies this
      ensures treeState == state && activeLocketId == old(activeLocketId)
      ensures State() == Step(old(State()), Op.SetTreeState(state))
    {
      treeState := state;
    }

    /** `toggleTreeState()`: flips the formation with no focus guard. */
    method ToggleTreeState()
      modifies this
      ensures treeState == Flip(old(treeState)) && activeLocketId == old(activeLocketId)
      ensures State() == Step(old(State()), Op.ToggleTreeState)
    {
      treeState := if treeState == TREE_SHAPE then SCATTERED else TREE_SHAPE;
    }

    /** `setActiveLocketId(id)`: replaces the focus, last write wins. */
    method SetActiveLocketId(id: Option<string>)
      modifies this
      ensures activeLocketId == id && treeState == old(treeState)
      ensures State() == Step(old(State()), Op.SetActiveLocketId(id))
    {
      activeLocketId := id;
    }
  }

  /** The permissive toggle, on the store object: after focusing a locket a
      direct call of the toggle still assembles the tree. */
  method UnguardedToggleScenario()
  {
    var store := new AppStore();
    store.SetActiveLocketId(Some("locket-3"));
    assert Focused(store.activeLocketId);
    store.ToggleTreeState();
    assert store.treeState == TREE_SHAPE && store.activeLocketId == Some("locket-3");
    store.ToggleTreeState();
    store.SetActiveLocketId(None);
    assert store.State() == Initial();
  }
}
