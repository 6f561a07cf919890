/** Checkpoint keys: which call of a workflow is stored under which step name. */
module Keys {
  import opened Values
  import opened Text

  /** The calls that leave a checkpoint. */
  datatype Call =
    | StepCall(name: string)
    | TimerCall(name: string)
    | SignalCall(name: string, index: nat)
    | ChildCall(name: string)

  const TIMER_PREFIX := "__timer:"
  const SIGNAL_PREFIX := "__signal:"
  const CHILD_PREFIX := "__child:"

  function CallKey(call: Call): string {
    match call
    case StepCall(name) => name
    case TimerCall(name) => TIMER_PREFIX + name
    case SignalCall(name, index) => SIGNAL_PREFIX + name + "#" + Decimal(index)
    case ChildCall(name) => CHILD_PREFIX + name
  }

  /** stepRunner.scope, and what pushFrame does to the frame itself. */
  function Scope(frame: string, name: string): string {
    if frame == "" then name else frame + "/" + name
  }

  /** The frame that ExecuteActivity has built along a path of activities. */
  function Frame(path: seq<string>): string {
    if path == [] then "" else Scope(Frame(path[..|path| - 1]), path[|path| - 1])
  }

  function StoredKey(path: seq<string>, call: Call): string {
    Scope(Frame(path), CallKey(call))
  }

  /** A child's idempotency key does not carry the frame. */
  function ChildKey(job: JobId, name: string): string {
    "child:" + job + ":" + name
  }

  predicate Reserved(name: string) {
    TIMER_PREFIX <= name || SIGNAL_PREFIX <= name || CHILD_PREFIX <= name
  }

  /** The documented naming contract: activity names are not empty, no name
      contains '/', and a step does not take one of the runtime's prefixes. */
  predicate PathOk(path: seq<string>) {
    forall i | 0 <= i < |path| :: path[i] != "" && '/' !in path[i]
  }

  predicate CallOk(call: Call) {
    '/' !in call.name && (call.StepCall? ==> !Reserved(call.name))
  }

  lemma CallKeySlashFree(call: Call)
    requires CallOk(call)
    ensures '/' !in CallKey(call)
  {
    match call
    case SignalCall(name, index) =>
      assert forall i | 0 <= i < |Decimal(index)| :: IsDigit(Decimal(index)[i]);
    case _ =>
  }

  lemma CallKeyInjective(a: Call, b: Call)
    requires CallOk(a) && CallOk(b) && CallKey(a) == CallKey(b)
    ensures a == b
  {
    var key := CallKey(a);
    assert !a.StepCall? ==> key[2] == (if a.TimerCall? then 't' else if a.SignalCall? then 's' else 'c');
    assert !b.StepCall? ==> key[2] == (if b.TimerCall? then 't' else if b.SignalCall? then 's' else 'c');
    if a.StepCall? || b.StepCall? {
      assert a.TimerCall? || b.TimerCall? ==> TIMER_PREFIX <= key;
      assert a.SignalCall? || b.SignalCall? ==> SIGNAL_PREFIX <= key;
      assert a.ChildCall? || b.ChildCall? ==> CHILD_PREFIX <= key;
    } else if a.SignalCall? {
      SignalKeyInjective(a.name, a.index, b.name, b.index);
    } else {
      var n := if a.TimerCall? then |TIMER_PREFIX| else |CHILD_PREFIX|;
      assert a.name == key[n..] && b.name == key[n..];
    }
  }

  /** Also for signal names that contain '#'. */
  lemma SignalKeyInjective(a: string, i: nat, b: string, k: nat)
    requires CallKey(SignalCall(a, i)) == CallKey(SignalCall(b, k))
    ensures a == b && i == k
  {
    assert '#' !in Decimal(i) && '#' !in Decimal(k);
    SplitAtLast(SIGNAL_PREFIX + a, Decimal(i), SIGNAL_PREFIX + b, Decimal(k), '#');
    assert a == (SIGNAL_PREFIX + a)[|SIGNAL_PREFIX|..] && b == (SIGNAL_PREFIX + b)[|SIGNAL_PREFIX|..];
    DecimalInjective(i, k);
  }

  lemma {:induction false} FrameNotEmpty(path: seq<string>)
    requires PathOk(path)
    ensures Frame(path) == "" <==> path == []
    decreases |path|
  {
    if path != [] { FrameNotEmpty(path[..|path| - 1]); }
  }

  lemma ScopeSlash(frame: string, name: string)
    requires '/' !in name
    ensures '/' in Scope(frame, name) <==> frame != ""
  {
    if frame != "" {
      assert (frame + "/" + name)[|frame|] == '/';
    }
  }

  lemma {:induction false} ScopedInjective(p: seq<string>, a: string, q: seq<string>, b: string)
    requires PathOk(p) && PathOk(q) && '/' !in a && '/' !in b
    requires Scope(Frame(p), a) == Scope(Frame(q), b)
    ensures p == q && a == b
    decreases |p|
  {
    FrameNotEmpty(p);
    FrameNotEmpty(q);
    if p == [] || q == [] {
      ScopeSlash(Frame(p), a);
      ScopeSlash(Frame(q), b);
    } else {
      SplitAtLast(Frame(p), a, Frame(q), b, '/');
      ScopedInjective(p[..|p| - 1], p[|p| - 1], q[..|q| - 1], q[|q| - 1]);
      assert p == p[..|p| - 1] + [p[|p| - 1]] && q == q[..|q| - 1] + [q[|q| - 1]];
    }
  }

  /** Two calls share a checkpoint only when they are the same call: the same
      activity path, the same kind, the same name, the same signal index. */
  lemma KeysDoNotCollide(p: seq<string>, a: Call, q: seq<string>, b: Call)
    requires PathOk(p) && PathOk(q) && CallOk(a) && CallOk(b)
    ensures StoredKey(p, a) == StoredKey(q, b) <==> p == q && a == b
  {
    if StoredKey(p, a) == StoredKey(q, b) {
      CallKeySlashFree(a);
      CallKeySlashFree(b);
      ScopedInjective(p, CallKey(a), q, CallKey(b));
      CallKeyInjective(a, b);
    }
  }

  lemma Frames()
    ensures Frame([]) == "" && Frame(["a"]) == "a" && Frame([""]) == ""
    ensures Frame(["a/b"]) == "a/b" && Frame(["a", "b"]) == "a/b"
    ensures Frame(["__timer:a"]) == "__timer:a" && Frame(["__signal:a"]) == "__signal:a" && Frame(["__child:a"]) == "__child:a"
  {
    assert ["a", "b"][..1] == ["a"];
    assert Frame(["a", "b"]) == Scope(Frame(["a"]), "b");
  }

  /** Each clause of the contract is needed: without it two calls do collide. Activity
      names: not empty, no slash. Names of all calls: no slash. Step names: none of the
      three prefixes. */
  lemma ContractIsNeeded()
    ensures StoredKey([""], StepCall("b")) == StoredKey([], StepCall("b"))
    ensures StoredKey(["a/b"], StepCall("c")) == StoredKey(["a", "b"], StepCall("c"))
    ensures StoredKey([], StepCall("a/b")) == StoredKey(["a"], StepCall("b"))
    ensures StoredKey([], TimerCall("a/b")) == StoredKey(["__timer:a"], StepCall("b"))
    ensures StoredKey([], SignalCall("a/b", 0)) == StoredKey(["__signal:a"], StepCall("b#0"))
    ensures StoredKey([], ChildCall("a/b")) == StoredKey(["__child:a"], StepCall("b"))
    ensures StoredKey([], StepCall("__timer:a")) == StoredKey([], TimerCall("a"))
    ensures StoredKey([], StepCall("__signal:a#0")) == StoredKey([], SignalCall("a", 0))
    ensures StoredKey([], StepCall("__child:a")) == StoredKey([], ChildCall("a"))
  {
    Frames();
    assert Decimal(0) == "0";
    assert CallKey(TimerCall("a/b")) == "__timer:a" + "/" + "b";
    assert CallKey(SignalCall("a/b", 0)) == "__signal:a" + "/" + "b#0";
    assert CallKey(ChildCall("a/b")) == "__child:a" + "/" + "b";
  }

  /** Children of different parents, or of different names, have different keys. */
  lemma ChildKeyInjective(p: JobId, a: string, q: JobId, b: string)
    requires ':' !in p && ':' !in q
    ensures ChildKey(p, a) == ChildKey(q, b) <==> p == q && a == b
  {
    if ChildKey(p, a) == ChildKey(q, b) {
      assert ChildKey(p, a)[6..] == p + [':'] + a && ChildKey(q, b)[6..] == q + [':'] + b;
      SplitAtFirst(p, a, q, b, ':');
    }
  }
}
