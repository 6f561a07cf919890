/** Go error values as wrap trees: what `errors.Is` and `errors.As` can see in
    them decides which terminal branch a run takes. */
module Faults {
  import opened Values

  datatype Fault =
    | Plain(message: string)
    | PermanentMark                             // the sentinel itself
    | Suspension(runAfter: Time)
    | Permanent(cause: Fault)
    | Wrapped(context: string, cause: Fault)
    | Joined(first: Fault, second: Fault)

  function Message(fault: Fault): string {
    match fault
    case Plain(message) => message
    case PermanentMark => "permanent failure"
    case Suspension(_) => "suspend"
    case Permanent(cause) => Message(cause)
    case Wrapped(context, cause) => context + ": " + Message(cause)
    case Joined(first, second) => Message(first) + "\n" + Message(second)
  }

  /** errors.Is(fault, ErrPermanent). */
  predicate IsPermanent(fault: Fault) {
    match fault
    case Plain(_) => false
    case PermanentMark => true
    case Suspension(_) => false
    case Permanent(_) => true
    case Wrapped(_, cause) => IsPermanent(cause)
    case Joined(first, second) => IsPermanent(first) || IsPermanent(second)
  }

  /** errors.As(fault, *SuspendError): the first suspension in pre-order. */
  function FindSuspension(fault: Fault): Option<Time> {
    match fault
    case Plain(_) => None
    case PermanentMark => None
    case Suspension(runAfter) => Some(runAfter)
    case Permanent(cause) => FindSuspension(cause)
    case Wrapped(_, cause) => FindSuspension(cause)
    case Joined(first, second) =>
      var found := FindSuspension(first);
      if found.Some? then found else FindSuspension(second)
  }

  /** All errors of a wrap tree in the order in which errors.Is and errors.As visit
      them. */
  function Tree(fault: Fault): seq<Fault> {
    [fault] +
    match fault
    case Permanent(cause) => Tree(cause)
    case Wrapped(_, cause) => Tree(cause)
    case Joined(first, second) => Tree(first) + Tree(second)
    case _ => []
  }

  /** A failure is permanent exactly when something in its tree was marked so, however
      deep it is wrapped or joined. */
  lemma {:induction false} PermanentIffMarked(fault: Fault)
    ensures IsPermanent(fault) <==> exists f :: f in Tree(fault) && (f.Permanent? || f.PermanentMark?)
  {
    var tree := Tree(fault);
    assert tree[0] == fault && fault in tree;
    match fault
    case Permanent(_) =>
    case Wrapped(_, cause) =>
      PermanentIffMarked(cause);
      assert forall f :: f in tree <==> f == fault || f in Tree(cause);
    case Joined(first, second) =>
      PermanentIffMarked(first);
      PermanentIffMarked(second);
      assert forall f :: f in tree <==> f == fault || f in Tree(first) || f in Tree(second);
    case _ => assert tree == [fault];
  }

  predicate NoSuspension(tree: seq<Fault>, n: nat)
    requires n <= |tree|
  {
    forall k | 0 <= k < n :: !tree[k].Suspension?
  }

  /** Error `i` is the first suspension of a tree. */
  predicate FirstAt(tree: seq<Fault>, i: nat, runAfter: Time) {
    i < |tree| && tree[i] == Suspension(runAfter) && NoSuspension(tree, i)
  }

  /** The first suspension of a tree, if it has one. */
  ghost predicate FirstIn(tree: seq<Fault>, found: Option<Time>) {
    match found
    case None => NoSuspension(tree, |tree|)
    case Some(runAfter) => exists i: nat :: FirstAt(tree, i, runAfter)
  }

  /** The time to suspend until is that of the first suspension in the tree. */
  lemma {:induction false} FirstSuspension(fault: Fault)
    ensures FirstIn(Tree(fault), FindSuspension(fault))
  {
    match fault
    case Permanent(cause) =>
      FirstSuspension(cause);
      FirstAfter([fault], Tree(cause), FindSuspension(cause));
    case Wrapped(_, cause) =>
      FirstSuspension(cause);
      FirstAfter([fault], Tree(cause), FindSuspension(cause));
    case Joined(first, second) =>
      FirstSuspension(first);
      FirstSuspension(second);
      FirstOfTwo(Tree(first), Tree(second), FindSuspension(first), FindSuspension(second));
      FirstAfter([fault], Tree(first) + Tree(second), FindSuspension(fault));
    case Suspension(runAfter) => assert FirstAt(Tree(fault), 0, runAfter);
    case _ =>
  }

  lemma FirstAfter(before: seq<Fault>, tree: seq<Fault>, found: Option<Time>)
    requires NoSuspension(before, |before|) && FirstIn(tree, found)
    ensures FirstIn(before + tree, found)
  {
    if found.Some? {
      var i: nat :| FirstAt(tree, i, found.value);
      assert FirstAt(before + tree, |before| + i, found.value);
    }
  }

  lemma FirstOfTwo(a: seq<Fault>, b: seq<Fault>, inA: Option<Time>, inB: Option<Time>)
    requires FirstIn(a, inA) && FirstIn(b, inB)
    ensures FirstIn(a + b, if inA.Some? then inA else inB)
  {
    if inA.Some? {
      var i: nat :| FirstAt(a, i, inA.value);
      assert FirstAt(a + b, i, inA.value);
    } else {
      FirstAfter(a, b, inB);
    }
  }

  lemma SuspensionIffFound(fault: Fault)
    ensures FindSuspension(fault).Some? <==> exists f :: f in Tree(fault) && f.Suspension?
  {
    FirstSuspension(fault);
    var tree := Tree(fault);
    if FindSuspension(fault).Some? {
      var i: nat :| FirstAt(tree, i, FindSuspension(fault).value);
      assert tree[i] in tree;
    }
  }
}
