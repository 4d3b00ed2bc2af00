/** Guard approval: a guard is a zero-argument predicate, a guard type that is
    first instantiated (optionally through an injector that supplies its
    dependencies), or a guard instance. Approve asks the guards in argument
    order and approves only when every one of them approves; the first guard
    that does not approve decides the answer. A value with no approve
    capability is a usage error, reported rather than read as true or false. */
module Guards {

  /** An injection key: the type a dependency is mapped under. */
  type Token = nat

  datatype Error =
    /** The guard has no approve capability. */
    | NoApprove
    /** The guard needs a dependency that could not be supplied. */
    | MissingDependency(dependency: Token)

  datatype Result = Ok(value: bool) | Err(error: Error)

  /** The injector a caller may pass to Approve: what each mapped guard
      dependency approves. */
  datatype Resolver = NoResolver | Resolver(mapping: map<Token, bool>)

  /** An object handed to Approve or made by instantiating a guard type. */
  datatype Object =
    /** An object whose approve method answers the given value. */
    | GuardObject(approves: bool)
    /** An object with no approve method. */
    | PlainObject

  /** A type handed to Approve. */
  datatype GuardType =
    /** A guard whose approve method answers a fixed value, such as a happy
        guard (true) or a grumpy guard (false). */
    | ConstantGuard(approves: bool)
    /** A guard that answers whatever the guard injected under dependency
        answers, such as a middle-man guard asking its boss. */
    | DelegatingGuard(dependency: Token)
    /** A type whose instances have no approve method. */
    | PlainType

  /** The representations Approve accepts. */
  datatype Guard =
    | Predicate(result: bool)
    | TypeGuard(guardType: GuardType)
    | InstanceGuard(instance: Object)

  /** The outcome of instantiating a guard type. */
  datatype Built = Built(instance: Object) | Failed(error: Error)

  /** Instantiates a guard type, injecting its dependency from the resolver. A
      dependency that is not mapped, or that no resolver can supply, makes
      instantiation fail. */
  function Instantiate(resolver: Resolver, t: GuardType): Built {
    match t
    case ConstantGuard(b) => Built(GuardObject(b))
    case DelegatingGuard(d) =>
      if resolver.Resolver? && d in resolver.mapping then Built(GuardObject(resolver.mapping[d]))
      else Failed(MissingDependency(d))
    case PlainType => Built(PlainObject)
  }

  /** Calls the approve method of an object. */
  function Invoke(o: Object): Result {
    match o
    case GuardObject(b) => Ok(b)
    case PlainObject => Err(NoApprove)
  }

  /** What one guard answers. */
  function Evaluate(resolver: Resolver, g: Guard): Result {
    match g
    case Predicate(b) => Ok(b)
    case TypeGuard(t) =>
      (match Instantiate(resolver, t)
       case Built(o) => Invoke(o)
       case Failed(e) => Err(e))
    case InstanceGuard(o) => Invoke(o)
  }

  /** Asks the guards in order; the first that does not approve decides, and
      an empty list approves. */
  function Approve(resolver: Resolver, guards: seq<Guard>): Result
    decreases |guards|
  {
    if guards == [] then Ok(true)
    else
      var r := Evaluate(resolver, guards[0]);
      if r == Ok(true) then Approve(resolver, guards[1..]) else r
  }

  /** Approve approves exactly when every guard approves. */
  lemma {:induction false} ApproveTrueIff(resolver: Resolver, guards: seq<Guard>)
    ensures Approve(resolver, guards) == Ok(true) <==>
      forall i :: 0 <= i < |guards| ==> Evaluate(resolver, guards[i]) == Ok(true)
    decreases |guards|
  {
    if guards != [] {
      ApproveTrueIff(resolver, guards[1..]);
      assert forall i :: 0 < i < |guards| ==> guards[i] == guards[1..][i - 1];
    }
  }

  /** The first guard that does not approve decides the answer. */
  lemma {:induction false} FirstRefusalDecides(resolver: Resolver, guards: seq<Guard>, i: nat)
    requires i < |guards|
    requires forall j :: 0 <= j < i ==> Evaluate(resolver, guards[j]) == Ok(true)
    requires Evaluate(resolver, guards[i]) != Ok(true)
    ensures Approve(resolver, guards) == Evaluate(resolver, guards[i])
    decreases i
  {
    if i > 0 {
      assert forall j :: 0 <= j < i - 1 ==> guards[1..][j] == guards[j + 1];
      FirstRefusalDecides(resolver, guards[1..], i - 1);
    }
  }

  /** Any answer other than approval is the answer of some guard, every guard
      before which approves. */
  lemma {:induction false} RefusalHasACause(resolver: Resolver, guards: seq<Guard>)
    requires Approve(resolver, guards) != Ok(true)
    ensures exists i :: 0 <= i < |guards| && Approve(resolver, guards) == Evaluate(resolver, guards[i]) &&
              forall j :: 0 <= j < i ==> Evaluate(resolver, guards[j]) == Ok(true)
    decreases |guards|
  {
    if Evaluate(resolver, guards[0]) != Ok(true) {
      assert Approve(resolver, guards) == Evaluate(resolver, guards[0]);
    } else {
      RefusalHasACause(resolver, guards[1..]);
      var k :| 0 <= k < |guards[1..]| && Approve(resolver, guards[1..]) == Evaluate(resolver, guards[1..][k]) &&
               forall j :: 0 <= j < k ==> Evaluate(resolver, guards[1..][j]) == Ok(true);
      assert forall j :: 0 < j <= k ==> guards[j] == guards[1..][j - 1];
      assert Approve(resolver, guards) == Evaluate(resolver, guards[k + 1]);
    }
  }

  /** When no guard fails, Approve is the logical AND of the guards' answers. */
  lemma ApproveIsAnd(resolver: Resolver, guards: seq<Guard>)
    requires forall i :: 0 <= i < |guards| ==> Evaluate(resolver, guards[i]).Ok?
    ensures Approve(resolver, guards) == Ok(forall i :: 0 <= i < |guards| ==> Evaluate(resolver, guards[i]).value)
  {
    ApproveTrueIff(resolver, guards);
    if Approve(resolver, guards) != Ok(true) {
      RefusalHasACause(resolver, guards);
    }
  }

  /** One guard that refuses is enough to withhold approval, whatever the others
      answer. */
  lemma GrumpyGuardVetoes(resolver: Resolver, guards: seq<Guard>, i: nat)
    requires i < |guards| && Evaluate(resolver, guards[i]) == Ok(false)
    ensures Approve(resolver, guards) != Ok(true)
  {
    ApproveTrueIff(resolver, guards);
  }

  /** Asking two lists in turn is asking their concatenation. */
  lemma {:induction false} ApproveConcat(resolver: Resolver, a: seq<Guard>, b: seq<Guard>)
    ensures Approve(resolver, a + b) ==
      if Approve(resolver, a) == Ok(true) then Approve(resolver, b) else Approve(resolver, a)
    decreases |a|
  {
    if a == [] {
      assert a + b == b;
    } else {
      assert (a + b)[0] == a[0];
      assert (a + b)[1..] == a[1..] + b;
      ApproveConcat(resolver, a[1..], b);
    }
  }

  /** Only the answers matter: guards that answer alike, position by position,
      give the same approval, whatever their representations. */
  lemma {:induction false} ApproveByAnswers(resolver: Resolver, a: seq<Guard>, b: seq<Guard>)
    requires |a| == |b|
    requires forall i :: 0 <= i < |a| ==> Evaluate(resolver, a[i]) == Evaluate(resolver, b[i])
    ensures Approve(resolver, a) == Approve(resolver, b)
    decreases |a|
  {
    if a != [] {
      assert forall i :: 0 <= i < |a| - 1 ==> a[1..][i] == a[i + 1] && b[1..][i] == b[i + 1];
      ApproveByAnswers(resolver, a[1..], b[1..]);
    }
  }

  /** Replacing one guard by another that answers alike, whatever its
      representation, never changes the answer of Approve. */
  lemma ReplaceGuard(resolver: Resolver, guards: seq<Guard>, i: nat, g: Guard)
    requires i < |guards| && Evaluate(resolver, g) == Evaluate(resolver, guards[i])
    ensures Approve(resolver, guards[i := g]) == Approve(resolver, guards)
  {
    ApproveByAnswers(resolver, guards[i := g], guards);
  }

  /** A guard answering b as a predicate, as a guard type or as a guard
      instance. */
  predicate Answers(g: Guard, b: bool) {
    g == Predicate(b) || g == TypeGuard(ConstantGuard(b)) || g == InstanceGuard(GuardObject(b))
  }

  /** The three representations of a guard that answers b are interchangeable
      anywhere in a list, under every injector. */
  lemma RepresentationsInterchangeable(resolver: Resolver, guards: seq<Guard>, i: nat, g: Guard, b: bool)
    requires i < |guards| && Answers(guards[i], b) && Answers(g, b)
    ensures Approve(resolver, guards[i := g]) == Approve(resolver, guards)
  {
    ReplaceGuard(resolver, guards, i, g);
  }

  /** A guard that needs no injection answers the same with or without an
      injector. */
  predicate NeedsNoInjection(g: Guard) {
    !(g.TypeGuard? && g.guardType.DelegatingGuard?)
  }

  /** Without delegating guards the injector is irrelevant. */
  lemma {:induction false} InjectorIrrelevant(r1: Resolver, r2: Resolver, guards: seq<Guard>)
    requires forall i :: 0 <= i < |guards| ==> NeedsNoInjection(guards[i])
    ensures Approve(r1, guards) == Approve(r2, guards)
    decreases |guards|
  {
    if guards != [] {
      assert forall i :: 0 <= i < |guards| - 1 ==> guards[1..][i] == guards[i + 1];
      InjectorIrrelevant(r1, r2, guards[1..]);
    }
  }

  /** A single guard, passed alone or as a one-element array, answers for itself. */
  lemma ApproveOne(resolver: Resolver, g: Guard)
    ensures Approve(resolver, [g]) == Evaluate(resolver, g)
  {
    assert [g][1..] == [];
  }

  /** The guard approval test fixture: a happy guard approves, a grumpy guard
      refuses, through every representation; a middle-man guard answers for the
      boss guard mapped in the injector; a grumpy guard among happy ones refuses;
      an object with no approve method is an error. */
  lemma GuardsApproveFixture(boss: Token, bossApproves: bool)
    ensures Approve(NoResolver, [Predicate(false)]) == Ok(false)
    ensures Approve(NoResolver, [Predicate(true)]) == Ok(true)
    ensures Approve(NoResolver, [TypeGuard(ConstantGuard(false))]) == Ok(false)
    ensures Approve(NoResolver, [TypeGuard(ConstantGuard(true))]) == Ok(true)
    ensures Approve(NoResolver, [InstanceGuard(GuardObject(false))]) == Ok(false)
    ensures Approve(NoResolver, [InstanceGuard(GuardObject(true))]) == Ok(true)
    ensures Approve(Resolver(map[boss := bossApproves]), [TypeGuard(DelegatingGuard(boss))]) == Ok(bossApproves)
    ensures Approve(NoResolver, [TypeGuard(ConstantGuard(true)), TypeGuard(ConstantGuard(false))]) == Ok(false)
    ensures Approve(NoResolver, [InstanceGuard(GuardObject(true)), InstanceGuard(GuardObject(false))]) == Ok(false)
    ensures Approve(NoResolver, [Predicate(true), Predicate(false)]) == Ok(false)
    ensures Approve(NoResolver, [InstanceGuard(PlainObject)]) == Err(NoApprove)
  {
    var happyThenGrumpy := [Predicate(true), Predicate(false)];
    FirstRefusalDecides(NoResolver, happyThenGrumpy, 1);
    FirstRefusalDecides(NoResolver, [TypeGuard(ConstantGuard(true)), TypeGuard(ConstantGuard(false))], 1);
    FirstRefusalDecides(NoResolver, [InstanceGuard(GuardObject(true)), InstanceGuard(GuardObject(false))], 1);
    ApproveOne(NoResolver, InstanceGuard(PlainObject));
  }
}
