/**
 * The runtime record the stack keeps for each attached module: the module,
 * the module types it declares it depends on, an enabled flag that can only
 * be switched off, and a lifecycle state that callers set freely.
 */
module ModuleRuntime {
  import opened Wrappers

  /** The lifecycle states a module passes through. */
  datatype ModuleState = New | PreInit | ServicesConfigured | Starting | Started | Stopping | Stopped | Failed

  /** An attached module, identified by its name and the name of its runtime type. */
  datatype ModuleRef = ModuleRef(name: string, typeName: string)

  /** What a runtime record holds at one moment. */
  datatype Record = Record(attached: ModuleRef, dependencies: seq<string>, isEnabled: bool, state: ModuleState)

  /** The two operations that change a record after construction. */
  datatype Op = DisableOp | SetStateOp(state: ModuleState)

  /** The record a fresh module starts from: the declared dependencies (none when none are declared), enabled, in state New. */
  function Initial(m: ModuleRef, declared: Option<seq<string>>): (r: Record)
    ensures r.attached == m && r.isEnabled && r.state == New
    ensures declared.Some? ==> r.dependencies == declared.value
    ensures declared.None? ==> r.dependencies == []
  {
    Record(m, if declared.Some? then declared.value else [], true, New)
  }

  /** One operation applied to a record; neither touches the module or its dependencies. */
  function Apply(r: Record, op: Op): (r': Record)
    ensures r'.attached == r.attached && r'.dependencies == r.dependencies
    ensures op == DisableOp ==> !r'.isEnabled && r'.state == r.state
    ensures op.SetStateOp? ==> r'.state == op.state && r'.isEnabled == r.isEnabled
  {
    match op
    case DisableOp => r.(isEnabled := false)
    case SetStateOp(s) => r.(state := s)
  }

  /** A sequence of operations applied in order. */
  function Run(r: Record, ops: seq<Op>): Record
    decreases |ops|
  {
    if ops == [] then r else Run(Apply(r, ops[0]), ops[1..])
  }

  lemma {:induction false} RunAppend(r: Record, a: seq<Op>, b: seq<Op>)
    ensures Run(r, a + b) == Run(Run(r, a), b)
    decreases |a|
  {
    if a == [] {
      assert a + b == b;
    } else {
      assert (a + b)[0] == a[0] && (a + b)[1..] == a[1..] + b;
      RunAppend(Apply(r, a[0]), a[1..], b);
    }
  }

  /** No operation changes which module a record is about, nor its dependencies. */
  lemma {:induction false} RunKeepsIdentity(r: Record, ops: seq<Op>)
    ensures Run(r, ops).attached == r.attached && Run(r, ops).dependencies == r.dependencies
    decreases |ops|
  {
    if ops != [] {
      RunKeepsIdentity(Apply(r, ops[0]), ops[1..]);
    }
  }

  /**
   * A record is enabled after a run exactly when it was enabled before and
   * the run did not disable it; in particular nothing re-enables a disabled
   * record.
   */
  lemma {:induction false} EnabledAfterRun(r: Record, ops: seq<Op>)
    ensures Run(r, ops).isEnabled <==> r.isEnabled && DisableOp !in ops
    decreases |ops|
  {
    if ops != [] {
      EnabledAfterRun(Apply(r, ops[0]), ops[1..]);
      assert ops == [ops[0]] + ops[1..];
      assert DisableOp in ops <==> ops[0] == DisableOp || DisableOp in ops[1..];
    }
  }

  /** A run that sets no state leaves the state as it was. */
  lemma {:induction false} StateWithoutSetState(r: Record, ops: seq<Op>)
    requires forall j :: 0 <= j < |ops| ==> ops[j] == DisableOp
    ensures Run(r, ops).state == r.state
    decreases |ops|
  {
    if ops != [] {
      StateWithoutSetState(Apply(r, ops[0]), ops[1..]);
    }
  }

  /** The last state set wins: no transition is checked or refused. */
  lemma {:induction false} LastSetStateWins(r: Record, ops: seq<Op>, i: nat)
    requires i < |ops| && ops[i].SetStateOp?
    requires forall j :: i < j < |ops| ==> ops[j] == DisableOp
    ensures Run(r, ops).state == ops[i].state
    decreases |ops|
  {
    if i == 0 {
      StateWithoutSetState(Apply(r, ops[0]), ops[1..]);
    } else {
      LastSetStateWins(Apply(r, ops[0]), ops[1..], i - 1);
    }
  }

  class ModuleRuntimeInfo {
    const attached: ModuleRef
    /** The module types named by the module's declared dependency attribute. */
    const dependencies: seq<string>
    var isEnabled: bool
    var state: ModuleState

    /** The record's current contents as a value. */
    function Snapshot(): Record
      reads this
    {
      Record(attached, dependencies, isEnabled, state)
    }

    /** `declared` is the module type's dependency attribute, when it has one. */
    constructor (m: ModuleRef, declared: Option<seq<string>>)
      ensures Snapshot() == Initial(m, declared)
    {
      attached := m;
      state := New;
      dependencies := if declared.Some? then declared.value else [];
      isEnabled := true;
    }

    /** The runtime type of the module. */
    function ModuleType(): string
    {
      attached.typeName
    }

    method Disable()
      modifies this
      ensures Snapshot() == Apply(old(Snapshot()), DisableOp)
      ensures !old(isEnabled) ==> unchanged(this)
    {
      isEnabled := false;
    }

    method SetState(state: ModuleState)
      modifies this
      ensures Snapshot() == Apply(old(Snapshot()), SetStateOp(state))
    {
      this.state := state;
    }
  }
}
