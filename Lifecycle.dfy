/** The lifecycle of a robotlegs context: its states, the four transitions a
    caller can request, and the twelve notifications those transitions raise. */
module Lifecycle {

  datatype Option<T> = None | Some(value: T)

  /** Every value the lifecycle state of a context can take. */
  datatype State =
    | Uninitialized
    | Initializing
    | Active
    | Suspending
    | Suspended
    | Resuming
    | Destroying
    | Destroyed

  /** The transitions requested by Initialize(), Suspend(), Resume() and Destroy(). */
  datatype Transition = Initialize | Suspend | Resume | Destroy

  /** The three notifications of one transition: PRE_X, X and POST_X. */
  datatype Stage = Pre | During | Post

  datatype Event = Event(stage: Stage, transition: Transition)

  /** The states a context rests in between two calls. */
  predicate Resting(s: State) {
    s == Uninitialized || s == Active || s == Suspended || s == Destroyed
  }

  /** The states from which a transition may be requested. */
  predicate CanEnter(t: Transition, s: State) {
    match t
    case Initialize => s == Uninitialized
    case Suspend => s == Active
    case Resume => s == Suspended
    case Destroy => s == Active || s == Suspended
  }

  /** The in-between state a context passes through during a transition; it is
      never a state the context rests in. */
  function Transient(t: Transition): (s: State)
    ensures !Resting(s)
  {
    match t
    case Initialize => Initializing
    case Suspend => Suspending
    case Resume => Resuming
    case Destroy => Destroying
  }

  /** The state a context rests in once a transition is over. */
  function Target(t: Transition): (s: State)
    ensures Resting(s) && s != Uninitialized
    ensures s == Destroyed <==> t == Destroy
  {
    match t
    case Initialize => Active
    case Suspend => Suspended
    case Resume => Active
    case Destroy => Destroyed
  }

  /** The notifications one transition raises, in the order they fire. */
  function Events(t: Transition): seq<Event> {
    [Event(Pre, t), Event(During, t), Event(Post, t)]
  }

  /** The notifications a sequence of transitions raises, in the order they fire. */
  function EventsOf(ts: seq<Transition>): seq<Event> {
    if ts == [] then [] else EventsOf(ts[..|ts| - 1]) + Events(ts[|ts| - 1])
  }

  /** The name under which the context exposes a notification, e.g. PRE_SUSPEND. */
  function Name(e: Event): string {
    match e
    case Event(Pre, Initialize) => "PRE_INITIALIZE"
    case Event(During, Initialize) => "INITIALIZE"
    case Event(Post, Initialize) => "POST_INITIALIZE"
    case Event(Pre, Suspend) => "PRE_SUSPEND"
    case Event(During, Suspend) => "SUSPEND"
    case Event(Post, Suspend) => "POST_SUSPEND"
    case Event(Pre, Resume) => "PRE_RESUME"
    case Event(During, Resume) => "RESUME"
    case Event(Post, Resume) => "POST_RESUME"
    case Event(Pre, Destroy) => "PRE_DESTROY"
    case Event(During, Destroy) => "DESTROY"
    case Event(Post, Destroy) => "POST_DESTROY"
  }

  function Names(es: seq<Event>): (r: seq<string>)
    ensures |r| == |es|
    ensures forall k :: 0 <= k < |es| ==> r[k] == Name(es[k])
  {
    if es == [] then [] else Names(es[..|es| - 1]) + [Name(es[|es| - 1])]
  }

  /** The state reached by requesting the transitions ts in order from s, or None
      as soon as one of them is requested from a state that does not allow it. */
  function Run(s: State, ts: seq<Transition>): Option<State>
    decreases |ts|
  {
    if ts == [] then Some(s)
    else if CanEnter(ts[0], s) then Run(Target(ts[0]), ts[1..])
    else None
  }

  /** The cycle the context test drives: Initialize, Suspend, Resume, Destroy. */
  function FullCycle(): seq<Transition> {
    [Initialize, Suspend, Resume, Destroy]
  }

  lemma {:induction false} EventsOfAppend(a: seq<Transition>, b: seq<Transition>)
    ensures EventsOf(a + b) == EventsOf(a) + EventsOf(b)
    decreases |b|
  {
    if b == [] {
      assert a + b == a;
    } else {
      var n := |b| - 1;
      assert (a + b)[..|a + b| - 1] == a + b[..n];
      assert (a + b)[|a + b| - 1] == b[n];
      EventsOfAppend(a, b[..n]);
    }
  }

  /** Each transition contributes exactly its own three notifications, PRE_X then
      X then POST_X, at its own place in the sequence, and nothing else. */
  lemma {:induction false} EventsOfAt(ts: seq<Transition>, k: nat)
    requires k < |ts|
    ensures |EventsOf(ts)| == 3 * |ts|
    ensures EventsOf(ts)[3 * k] == Event(Pre, ts[k])
    ensures EventsOf(ts)[3 * k + 1] == Event(During, ts[k])
    ensures EventsOf(ts)[3 * k + 2] == Event(Post, ts[k])
    decreases |ts|
  {
    var n := |ts| - 1;
    if k < n {
      EventsOfAt(ts[..n], k);
    } else if n > 0 {
      EventsOfAt(ts[..n], 0);
    }
  }

  /** The twelve notifications of the full cycle, in the order they fire. */
  lemma FullCycleEvents()
    ensures EventsOf(FullCycle()) ==
      [Event(Pre, Initialize), Event(During, Initialize), Event(Post, Initialize),
       Event(Pre, Suspend), Event(During, Suspend), Event(Post, Suspend),
       Event(Pre, Resume), Event(During, Resume), Event(Post, Resume),
       Event(Pre, Destroy), Event(During, Destroy), Event(Post, Destroy)]
  {
    var c := FullCycle();
    EventsOfAt(c, 0);
    EventsOfAt(c, 1);
    EventsOfAt(c, 2);
    EventsOfAt(c, 3);
  }

  /** No notification fires twice in the full cycle. */
  lemma FullCycleDistinct()
    ensures forall i, j :: 0 <= i < j < |EventsOf(FullCycle())| ==> EventsOf(FullCycle())[i] != EventsOf(FullCycle())[j]
  {
    FullCycleEvents();
  }

  /** The twelve names the full cycle pushes, in the order they are expected. */
  lemma FullCycleNames()
    ensures Names(EventsOf(FullCycle())) ==
      ["PRE_INITIALIZE", "INITIALIZE", "POST_INITIALIZE",
       "PRE_SUSPEND", "SUSPEND", "POST_SUSPEND",
       "PRE_RESUME", "RESUME", "POST_RESUME",
       "PRE_DESTROY", "DESTROY", "POST_DESTROY"]
  {
    FullCycleEvents();
  }

  /** The full cycle is legal from a fresh context and ends destroyed. */
  lemma FullCycleIsLegal()
    ensures Run(Uninitialized, FullCycle()) == Some(Destroyed)
  {
  }

  /** Between calls a context is never left in a transient state. */
  lemma {:induction false} RunRests(s: State, ts: seq<Transition>)
    requires Resting(s)
    ensures Run(s, ts).Some? ==> Resting(Run(s, ts).value)
    decreases |ts|
  {
    if ts != [] && CanEnter(ts[0], s) {
      RunRests(Target(ts[0]), ts[1..]);
    }
  }

  /** Once a context has left UNINITIALIZED no legal run initializes it again. */
  lemma {:induction false} NoReinitialize(s: State, ts: seq<Transition>)
    requires s != Uninitialized
    requires Run(s, ts).Some?
    ensures forall k :: 0 <= k < |ts| ==> ts[k] != Initialize
    decreases |ts|
  {
    if ts != [] {
      NoReinitialize(Target(ts[0]), ts[1..]);
      assert forall k :: 1 <= k < |ts| ==> ts[k] == ts[1..][k - 1];
    }
  }

  /** A legal run from a fresh context starts with Initialize and never repeats it. */
  lemma InitializeFirstAndOnce(ts: seq<Transition>)
    requires Run(Uninitialized, ts).Some?
    ensures |ts| > 0 ==> ts[0] == Initialize
    ensures forall k :: 0 < k < |ts| ==> ts[k] != Initialize
  {
    if |ts| > 0 {
      NoReinitialize(Target(ts[0]), ts[1..]);
      assert forall k :: 0 < k < |ts| ==> ts[k] == ts[1..][k - 1];
    }
  }

  /** DESTROYED is terminal: a legal run that destroys the context ends there. */
  lemma {:induction false} DestroyIsLast(s: State, ts: seq<Transition>, k: nat)
    requires Run(s, ts).Some?
    requires k < |ts| && ts[k] == Destroy
    ensures k == |ts| - 1
    ensures Run(s, ts) == Some(Destroyed)
    decreases |ts|
  {
    if k > 0 {
      DestroyIsLast(Target(ts[0]), ts[1..], k - 1);
    }
  }
}
