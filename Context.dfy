/** The robotlegs Context: installs extensions, defers configs until it is
    initialized, detains and releases instances, and steps through its
    lifecycle, raising PRE_X, X and POST_X for every transition. Everything a
    context does that an observer can see is recorded, in order, in its log. */
module Contexts {
  import opened Lifecycle

  /** An opaque object handed to a context: an extension, a config or an instance. */
  type Token = nat

  /** The notifications a context raises. */
  datatype Notification =
    | Phase(event: Event)
    | Detained(instance: Token)
    | Released(instance: Token)

  /** One observable effect of a context, in the order it happened. */
  datatype Entry =
    | ExtensionInvoked(extension: Token, receiver: Context)
    | ConfigInvoked(config: Token)
    | Raised(notification: Notification)

  /** A handler attached to a lifecycle notification that appends a fixed value
      to a shared list each time the notification fires. */
  datatype Listener = Listener(on: Event, value: string)

  /** No token occurs twice in s. */
  predicate Distinct(s: seq<Token>) {
    DistinctUpTo(s, |s|)
  }

  /** No token occurs twice among the first n tokens of s. */
  predicate DistinctUpTo(s: seq<Token>, n: nat)
    requires n <= |s|
  {
    n == 0 || (AbsentUpTo(s, s[n - 1], n - 1) && DistinctUpTo(s, n - 1))
  }

  /** x is none of the first k tokens of s. */
  predicate AbsentUpTo(s: seq<Token>, x: Token, k: nat)
    requires k <= |s|
  {
    k == 0 || (s[k - 1] != x && AbsentUpTo(s, x, k - 1))
  }

  lemma {:induction false} AbsentUpToIff(s: seq<Token>, x: Token, k: nat)
    requires k <= |s|
    ensures AbsentUpTo(s, x, k) <==> x !in s[..k]
  {
    if k > 0 {
      AbsentUpToIff(s, x, k - 1);
      assert s[..k] == s[..k - 1] + [s[k - 1]];
    }
  }

  /** Tokens added after the first n leave what is said about those n unchanged. */
  lemma {:induction false} DistinctUpToPrefix(s: seq<Token>, t: seq<Token>, n: nat)
    requires n <= |s|
    ensures DistinctUpTo(s + t, n) == DistinctUpTo(s, n)
  {
    if n > 0 {
      AbsentUpToPrefix(s, t, s[n - 1], n - 1);
      DistinctUpToPrefix(s, t, n - 1);
    }
  }

  lemma {:induction false} AbsentUpToPrefix(s: seq<Token>, t: seq<Token>, x: Token, k: nat)
    requires k <= |s|
    ensures AbsentUpTo(s + t, x, k) == AbsentUpTo(s, x, k)
  {
    if k > 0 {
      AbsentUpToPrefix(s, t, x, k - 1);
    }
  }

  /** The tokens of a list without repetitions, but the last, are without
      repetitions, and the last is none of them. */
  lemma DistinctInit(s: seq<Token>)
    requires s != []
    ensures Distinct(s) ==> Distinct(s[..|s| - 1]) && s[|s| - 1] !in s[..|s| - 1]
  {
    var n := |s| - 1;
    assert s == s[..n] + [s[n]];
    DistinctUpToPrefix(s[..n], [s[n]], n);
    AbsentUpToPrefix(s[..n], [s[n]], s[n], n);
    AbsentUpToIff(s[..n], s[n], n);
    assert s[..n][..n] == s[..n];
  }

  /** The values the listeners ls push when e fires: those attached to e, in
      the order they were attached. */
  function Pushes(ls: seq<Listener>, e: Event): seq<string> {
    PushesUpTo(ls, e, |ls|)
  }

  /** The values the first n listeners of ls push when e fires. */
  function PushesUpTo(ls: seq<Listener>, e: Event, n: nat): seq<string>
    requires n <= |ls|
  {
    if n == 0 then []
    else PushesUpTo(ls, e, n - 1) + (if ls[n - 1].on == e then [ls[n - 1].value] else [])
  }

  /** The values pushed while a transition raises its three notifications. */
  function Fired(ls: seq<Listener>, t: Transition): seq<string> {
    Pushes(ls, Event(Pre, t)) + Pushes(ls, Event(During, t)) + Pushes(ls, Event(Post, t))
  }

  /** Pushing a transition's notifications one by one pushes what it fires. */
  lemma PushFired(pushed: seq<string>, ls: seq<Listener>, t: Transition)
    ensures pushed + Pushes(ls, Event(Pre, t)) + Pushes(ls, Event(During, t)) + Pushes(ls, Event(Post, t))
      == pushed + Fired(ls, t)
  {
    var p1, p2, p3 := Pushes(ls, Event(Pre, t)), Pushes(ls, Event(During, t)), Pushes(ls, Event(Post, t));
    assert pushed + p1 + p2 + p3 == pushed + (p1 + p2 + p3);
  }

  /** The values pushed while the notifications es fire one after the other. */
  function Delivered(ls: seq<Listener>, es: seq<Event>): seq<string> {
    if es == [] then [] else Delivered(ls, es[..|es| - 1]) + Pushes(ls, es[|es| - 1])
  }

  /** The context the most recent invocation of extension x received, if any. */
  function Receiver(log: seq<Entry>, x: Token): Option<Context> {
    if log == [] then None
    else match log[|log| - 1]
      case ExtensionInvoked(y, c) => if y == x then Some(c) else Receiver(log[..|log| - 1], x)
      case _ => Receiver(log[..|log| - 1], x)
  }

  /** The payload of the most recent "Detained" notification, if any. */
  function LastDetained(log: seq<Entry>): Option<Token> {
    if log == [] then None
    else match log[|log| - 1]
      case Raised(Detained(x)) => Some(x)
      case _ => LastDetained(log[..|log| - 1])
  }

  /** The payload of the most recent "Released" notification, if any. */
  function LastReleased(log: seq<Entry>): Option<Token> {
    if log == [] then None
    else match log[|log| - 1]
      case Raised(Released(x)) => Some(x)
      case _ => LastReleased(log[..|log| - 1])
  }

  function Note(stage: Stage, t: Transition): Entry {
    Raised(Phase(Event(stage, t)))
  }

  /** The entries that running the configs cs in order logs. */
  function ConfigEntries(cs: seq<Token>): seq<Entry> {
    if cs == [] then [] else ConfigEntries(cs[..|cs| - 1]) + [ConfigInvoked(cs[|cs| - 1])]
  }

  /** The entries that releasing the instances xs in order logs. */
  function ReleaseEntries(xs: seq<Token>): seq<Entry> {
    if xs == [] then [] else ReleaseEntries(xs[..|xs| - 1]) + [Raised(Released(xs[|xs| - 1]))]
  }

  /** The configs the entries of log ran, in the order they ran. */
  function ConfigRuns(log: seq<Entry>): seq<Token> {
    RunsUpTo(log, |log|)
  }

  /** The configs the first n entries of log ran. */
  function RunsUpTo(log: seq<Entry>, n: nat): seq<Token>
    requires n <= |log|
  {
    if n == 0 then [] else RunsUpTo(log, n - 1) + (if log[n - 1].ConfigInvoked? then [log[n - 1].config] else [])
  }

  /** The extensions the entries of log invoked, in the order they were invoked. */
  function Installs(log: seq<Entry>): seq<Token> {
    InstallsUpTo(log, |log|)
  }

  /** The extensions the first n entries of log invoked. */
  function InstallsUpTo(log: seq<Entry>, n: nat): seq<Token>
    requires n <= |log|
  {
    if n == 0 then [] else InstallsUpTo(log, n - 1) + (if log[n - 1].ExtensionInvoked? then [log[n - 1].extension] else [])
  }

  /** A config has run exactly when the log shows it run. */
  lemma ConfigRunsIn(log: seq<Entry>)
    ensures forall x :: x in ConfigRuns(log) <==> ConfigInvoked(x) in log
  {
    RunsUpToIn(log, |log|);
    assert log[..|log|] == log;
  }

  lemma {:induction false} RunsUpToIn(log: seq<Entry>, n: nat)
    requires n <= |log|
    ensures forall x :: x in RunsUpTo(log, n) <==> ConfigInvoked(x) in log[..n]
  {
    if n > 0 {
      RunsUpToIn(log, n - 1);
      assert log[..n] == log[..n - 1] + [log[n - 1]];
    }
  }

  /** An extension has been installed exactly when the log shows a context it
      was invoked with. */
  lemma InstallsIn(log: seq<Entry>)
    ensures forall x :: x in Installs(log) <==> Receiver(log, x).Some?
  {
    InstallsUpToIn(log, |log|);
    assert log[..|log|] == log;
  }

  lemma {:induction false} InstallsUpToIn(log: seq<Entry>, n: nat)
    requires n <= |log|
    ensures forall x :: x in InstallsUpTo(log, n) <==> Receiver(log[..n], x).Some?
  {
    if n > 0 {
      InstallsUpToIn(log, n - 1);
      assert log[..n][..n - 1] == log[..n - 1];
    }
  }

  /** Entries added after the first n leave what those n ran unchanged. */
  lemma {:induction false} UpToPrefix(a: seq<Entry>, b: seq<Entry>, n: nat)
    requires n <= |a|
    ensures RunsUpTo(a + b, n) == RunsUpTo(a, n) && InstallsUpTo(a + b, n) == InstallsUpTo(a, n)
  {
    if n > 0 {
      UpToPrefix(a, b, n - 1);
    }
  }

  lemma {:induction false} UpToAppend(a: seq<Entry>, b: seq<Entry>, k: nat)
    requires k <= |b|
    ensures RunsUpTo(a + b, |a| + k) == ConfigRuns(a) + RunsUpTo(b, k)
    ensures InstallsUpTo(a + b, |a| + k) == Installs(a) + InstallsUpTo(b, k)
  {
    if k == 0 {
      UpToPrefix(a, b, |a|);
    } else {
      UpToAppend(a, b, k - 1);
    }
  }

  /** The configs and extensions two stretches of a log run are those of the
      first stretch followed by those of the second. */
  lemma ProjectAppend(a: seq<Entry>, b: seq<Entry>)
    ensures ConfigRuns(a + b) == ConfigRuns(a) + ConfigRuns(b)
    ensures Installs(a + b) == Installs(a) + Installs(b)
  {
    UpToAppend(a, b, |b|);
  }

  /** Notifications run no config and invoke no extension. */
  lemma {:induction false} QuietNotes(s: seq<Entry>)
    requires forall k :: 0 <= k < |s| ==> s[k].Raised?
    ensures ConfigRuns(s) == [] && Installs(s) == []
  {
    QuietUpTo(s, |s|);
  }

  lemma {:induction false} QuietUpTo(s: seq<Entry>, n: nat)
    requires n <= |s|
    requires forall k :: 0 <= k < |s| ==> s[k].Raised?
    ensures RunsUpTo(s, n) == [] && InstallsUpTo(s, n) == []
  {
    if n > 0 {
      QuietUpTo(s, n - 1);
    }
  }

  /** A notification in the log runs no config and invokes no extension. */
  lemma PushNote(log: seq<Entry>, n: Notification)
    ensures ConfigRuns(log + [Raised(n)]) == ConfigRuns(log)
    ensures Installs(log + [Raised(n)]) == Installs(log)
  {
    UpToPrefix(log, [Raised(n)], |log|);
  }

  /** A config run in the log adds itself to the configs run. */
  lemma PushConfig(log: seq<Entry>, x: Token)
    ensures ConfigRuns(log + [ConfigInvoked(x)]) == ConfigRuns(log) + [x]
    ensures Installs(log + [ConfigInvoked(x)]) == Installs(log)
  {
    UpToPrefix(log, [ConfigInvoked(x)], |log|);
  }

  /** An extension invocation in the log adds the extension to those installed. */
  lemma PushExtension(log: seq<Entry>, x: Token, c: Context)
    ensures ConfigRuns(log + [ExtensionInvoked(x, c)]) == ConfigRuns(log)
    ensures Installs(log + [ExtensionInvoked(x, c)]) == Installs(log) + [x]
  {
    UpToPrefix(log, [ExtensionInvoked(x, c)], |log|);
  }

  /** Running the configs cs logs runs of exactly cs, and no extension. */
  lemma {:induction false} ConfigEntriesRun(cs: seq<Token>)
    ensures ConfigRuns(ConfigEntries(cs)) == cs && Installs(ConfigEntries(cs)) == []
    decreases |cs|
  {
    if cs != [] {
      var n := |cs| - 1;
      ConfigEntriesRun(cs[..n]);
      PushConfig(ConfigEntries(cs[..n]), cs[n]);
      assert cs == cs[..n] + [cs[n]];
    }
  }

  /** Releasing instances logs only notifications. */
  lemma {:induction false} ReleaseEntriesQuiet(xs: seq<Token>)
    ensures ConfigRuns(ReleaseEntries(xs)) == [] && Installs(ReleaseEntries(xs)) == []
    decreases |xs|
  {
    if xs != [] {
      ReleaseEntriesQuiet(xs[..|xs| - 1]);
      PushNote(ReleaseEntries(xs[..|xs| - 1]), Released(xs[|xs| - 1]));
    }
  }

  /** Initialize runs exactly the configs it runs between INITIALIZE and
      POST_INITIALIZE, and invokes no extension. */
  lemma InitializeProjects(log: seq<Entry>, cs: seq<Token>)
    ensures ConfigRuns(log + [Note(Pre, Initialize), Note(During, Initialize)] + ConfigEntries(cs) + [Note(Post, Initialize)])
      == ConfigRuns(log) + cs
    ensures Installs(log + [Note(Pre, Initialize), Note(During, Initialize)] + ConfigEntries(cs) + [Note(Post, Initialize)])
      == Installs(log)
  {
    var pre, post := [Note(Pre, Initialize), Note(During, Initialize)], [Note(Post, Initialize)];
    ProjectAppend(log, pre);
    ProjectAppend(log + pre, ConfigEntries(cs));
    ProjectAppend(log + pre + ConfigEntries(cs), post);
    QuietNotes(pre);
    QuietNotes(post);
    ConfigEntriesRun(cs);
  }

  /** A transition other than Initialize, followed by the releases rel, runs no
      config and invokes no extension. */
  lemma TransitionProjects(log: seq<Entry>, t: Transition, rel: seq<Token>)
    ensures ConfigRuns(log + [Note(Pre, t), Note(During, t)] + [Note(Post, t)] + ReleaseEntries(rel)) == ConfigRuns(log)
    ensures Installs(log + [Note(Pre, t), Note(During, t)] + [Note(Post, t)] + ReleaseEntries(rel)) == Installs(log)
    ensures ConfigRuns(log + [Note(Pre, t), Note(During, t)] + [Note(Post, t)]) == ConfigRuns(log)
    ensures Installs(log + [Note(Pre, t), Note(During, t)] + [Note(Post, t)]) == Installs(log)
  {
    var pre, post := [Note(Pre, t), Note(During, t)], [Note(Post, t)];
    ProjectAppend(log, pre);
    ProjectAppend(log + pre, post);
    ProjectAppend(log + pre + post, ReleaseEntries(rel));
    QuietNotes(pre);
    QuietNotes(post);
    ReleaseEntriesQuiet(rel);
  }

  /** s without x, the others kept in their order. */
  function Remove(s: seq<Token>, x: Token): (r: seq<Token>)
    ensures forall y :: y in r <==> y in s && y != x
    ensures Distinct(s) ==> Distinct(r)
    ensures Distinct(s) && x in s ==> |r| == |s| - 1
    ensures x !in s ==> r == s
  {
    if s == [] then []
    else
      var init, last := s[..|s| - 1], s[|s| - 1];
      assert s == init + [last];
      DistinctInit(s);
      var rest := Remove(init, x);
      if last == x then rest
      else
        DistinctAppend(rest, last);
        rest + [last]
  }

  lemma DistinctAppend(s: seq<Token>, x: Token)
    ensures Distinct(s) && x !in s ==> Distinct(s + [x])
  {
    DistinctUpToPrefix(s, [x], |s|);
    AbsentUpToPrefix(s, [x], x, |s|);
    AbsentUpToIff(s, x, |s|);
    assert s[..|s|] == s;
  }

  /** Removing x from a list that holds it once keeps the others in their
      order. */
  lemma RemoveLast(s: seq<Token>, y: Token, x: Token)
    ensures Remove(s + [y], x) == if y == x then Remove(s, x) else Remove(s, x) + [y]
  {
    assert (s + [y])[..|s|] == s;
  }

  lemma {:induction false} RemoveKeepsOrder(a: seq<Token>, x: Token, b: seq<Token>)
    requires x !in a && x !in b
    ensures Remove(a + [x] + b, x) == a + b
    decreases |b|
  {
    if b == [] {
      RemoveLast(a, x, x);
      assert a + [x] + b == a + [x] && a + b == a;
    } else {
      var n := |b| - 1;
      assert a + [x] + b == (a + [x] + b[..n]) + [b[n]];
      RemoveLast(a + [x] + b[..n], b[n], x);
      RemoveKeepsOrder(a, x, b[..n]);
      assert a + b == a + b[..n] + [b[n]];
    }
  }

  lemma {:induction false} DeliveredAppend(ls: seq<Listener>, a: seq<Event>, b: seq<Event>)
    ensures Delivered(ls, a + b) == Delivered(ls, a) + Delivered(ls, b)
    decreases |b|
  {
    if b == [] {
      assert a + b == a;
    } else {
      var n := |b| - 1;
      var ab := a + b;
      assert ab[..|ab| - 1] == a + b[..n];
      DeliveredAppend(ls, a, b[..n]);
      calc {
        Delivered(ls, ab);
        Delivered(ls, a + b[..n]) + Pushes(ls, b[n]);
        Delivered(ls, a) + Delivered(ls, b[..n]) + Pushes(ls, b[n]);
      }
    }
  }

  lemma DeliveredEvents(ls: seq<Listener>, t: Transition)
    ensures Delivered(ls, Events(t)) == Fired(ls, t)
  {
    var es := Events(t);
    assert es[..2][..1][..0] == [];
    assert Delivered(ls, es[..2][..1]) == Pushes(ls, Event(Pre, t));
  }

  /** The values pushed over a run of transitions: what the run's notifications
      deliver, one transition after the other. */
  lemma {:induction false} DeliveredCycle(ls: seq<Listener>, ts: seq<Transition>)
    requires ts != []
    ensures Delivered(ls, EventsOf(ts)) == Delivered(ls, EventsOf(ts[..|ts| - 1])) + Fired(ls, ts[|ts| - 1])
  {
    DeliveredAppend(ls, EventsOf(ts[..|ts| - 1]), Events(ts[|ts| - 1]));
    DeliveredEvents(ls, ts[|ts| - 1]);
  }

  /** Listeners attached one per notification, each pushing that notification's
      name, in the order of es. */
  function NamePushers(es: seq<Event>): (r: seq<Listener>)
    ensures |r| == |es| && forall k :: 0 <= k < |es| ==> r[k] == Listener(es[k], Name(es[k]))
  {
    seq(|es|, k requires 0 <= k < |es| => Listener(es[k], Name(es[k])))
  }

  /** When no two listeners are attached to the same notification, the first n
      listeners push, for e, the value of the one attached to e, or nothing. */
  lemma {:induction false} SoleListenerUpTo(ls: seq<Listener>, e: Event, n: nat)
    requires n <= |ls|
    requires forall i, j :: 0 <= i < j < |ls| ==> ls[i].on != ls[j].on
    ensures forall k :: 0 <= k < n && ls[k].on == e ==> PushesUpTo(ls, e, n) == [ls[k].value]
    ensures (forall k :: 0 <= k < n ==> ls[k].on != e) ==> PushesUpTo(ls, e, n) == []
  {
    if n > 0 {
      SoleListenerUpTo(ls, e, n - 1);
    }
  }

  /** With exactly one name pusher per notification, each notification pushes its
      own name once, and a notification nobody listens to pushes nothing. */
  lemma NamePushersPush(es: seq<Event>, e: Event)
    requires forall i, j :: 0 <= i < j < |es| ==> es[i] != es[j]
    ensures Pushes(NamePushers(es), e) == if e in es then [Name(e)] else []
  {
    var ls := NamePushers(es);
    SoleListenerUpTo(ls, e, |ls|);
    if e in es {
      var k :| 0 <= k < |es| && es[k] == e;
      assert ls[k].on == e;
    }
  }

  /** When every notification in es pushes exactly its own name, the shared list
      receives the names of es in the order they fired. */
  lemma {:induction false} DeliveredNames(ls: seq<Listener>, es: seq<Event>)
    requires forall k :: 0 <= k < |es| ==> Pushes(ls, es[k]) == [Name(es[k])]
    ensures Delivered(ls, es) == Names(es)
    decreases |es|
  {
    if es != [] {
      var n := |es| - 1;
      assert forall k :: 0 <= k < n ==> es[..n][k] == es[k];
      DeliveredNames(ls, es[..n]);
    }
  }

  /** With one name pusher per notification, any run of the notifications they
      listen to pushes the names of those notifications, in the order they fire. */
  lemma NamePushersDeliver(es: seq<Event>, fired: seq<Event>)
    requires forall i, j :: 0 <= i < j < |es| ==> es[i] != es[j]
    requires forall k :: 0 <= k < |fired| ==> fired[k] in es
    ensures Delivered(NamePushers(es), fired) == Names(fired)
  {
    forall k | 0 <= k < |fired|
      ensures Pushes(NamePushers(es), fired[k]) == [Name(fired[k])]
    {
      NamePushersPush(es, fired[k]);
    }
    DeliveredNames(NamePushers(es), fired);
  }

  /** What the full cycle pushes, transition by transition. */
  lemma DeliveredFullCycle(ls: seq<Listener>)
    ensures Delivered(ls, EventsOf(FullCycle())) ==
      [] + Fired(ls, Initialize) + Fired(ls, Suspend) + Fired(ls, Resume) + Fired(ls, Destroy)
  {
    var c := FullCycle();
    assert c[..3][..2][..1][..0] == [];
    assert [] + Fired(ls, Initialize) == Fired(ls, Initialize);
    DeliveredCycle(ls, c);
    DeliveredCycle(ls, c[..3]);
    DeliveredCycle(ls, c[..3][..2]);
    DeliveredCycle(ls, c[..3][..2][..1]);
  }

  /** One name pusher per notification of the full cycle: the full cycle pushes
      the twelve names, in order. */
  lemma FullCyclePushes(ls: seq<Listener>)
    requires ls == NamePushers(EventsOf(FullCycle()))
    ensures [] + Fired(ls, Initialize) + Fired(ls, Suspend) + Fired(ls, Resume) + Fired(ls, Destroy) ==
      ["PRE_INITIALIZE", "INITIALIZE", "POST_INITIALIZE",
       "PRE_SUSPEND", "SUSPEND", "POST_SUSPEND",
       "PRE_RESUME", "RESUME", "POST_RESUME",
       "PRE_DESTROY", "DESTROY", "POST_DESTROY"]
  {
    var es := EventsOf(FullCycle());
    FullCycleDistinct();
    NamePushersDeliver(es, es);
    DeliveredFullCycle(ls);
    FullCycleNames();
  }

  class Context {
    var state: State
    /** Installed extensions, in installation order. */
    var extensions: seq<Token>
    /** Registered configs, in registration order. */
    var configs: seq<Token>
    /** Configs registered before Initialize and not yet run. */
    var pending: seq<Token>
    /** Configs that have run, in the order they ran. */
    var ran: seq<Token>
    /** Detained instances, in the order they were first detained. */
    var detained: seq<Token>
    /** Handlers attached to lifecycle notifications, in attachment order. */
    var listeners: seq<Listener>
    /** Everything the context did that an observer can see, in order. */
    var log: seq<Entry>
    /** The shared list the listeners push their values to. */
    var pushed: seq<string>

    /** A context at rest. No extension, config or instance is held twice.
        Until the context is initialized every config waits and none has run;
        from then on every config has run exactly once, in registration order,
        and none waits. The log shows exactly the configs that have run and the
        extensions installed, in order. */
    ghost predicate Valid()
      reads this
    {
      && Resting(state)
      && Distinct(extensions) && Distinct(configs) && Distinct(detained)
      && pending == (if state == Uninitialized then configs else [])
      && ran == (if state == Uninitialized then [] else configs)
      && ConfigRuns(log) == ran && Installs(log) == extensions
    }

    /** What the log shows of the configs: none has run before Initialize;
        from then on exactly the registered configs have run, in registration
        order, each of them once. */
    lemma ConfigsLogged()
      requires Valid()
      ensures state == Uninitialized ==> forall x :: ConfigInvoked(x) !in log
      ensures state != Uninitialized ==> ConfigRuns(log) == configs
      ensures state != Uninitialized ==> forall x :: ConfigInvoked(x) in log <==> x in configs
      ensures Distinct(ConfigRuns(log))
    {
      ConfigRunsIn(log);
    }

    /** What the log shows of the extensions: exactly the installed ones have
        been invoked, in installation order, each of them once. */
    lemma ExtensionsLogged()
      requires Valid()
      ensures Installs(log) == extensions && Distinct(Installs(log))
      ensures forall x :: Receiver(log, x).Some? <==> x in extensions
    {
      InstallsIn(log);
    }

    constructor ()
      ensures Valid() && state == Uninitialized
      ensures extensions == [] && configs == [] && pending == [] && ran == [] && detained == []
      ensures listeners == [] && log == [] && pushed == []
    {
      state := Uninitialized;
      extensions, configs, pending, ran, detained := [], [], [], [], [];
      listeners, log, pushed := [], [], [];
    }

    /** Installs an extension: it is invoked at once, with this context. An
        extension already installed is not invoked again. */
    method Install(x: Token)
      requires Valid() && state != Destroyed
      modifies this`extensions, this`log
      ensures Valid()
      ensures if x in old(extensions) then extensions == old(extensions) && log == old(log)
              else extensions == old(extensions) + [x] && log == old(log) + [ExtensionInvoked(x, this)]
    {
      if x !in extensions {
        DistinctAppend(extensions, x);
        PushExtension(log, x, this);
        extensions := extensions + [x];
        log := log + [ExtensionInvoked(x, this)];
      }
    }

    /** Registers a config. Before Initialize it waits; once the context is
        initialized it runs at once. A config already registered is ignored. */
    method Configure(x: Token)
      requires Valid() && state != Destroyed
      modifies this`configs, this`pending, this`ran, this`log
      ensures Valid()
      ensures if x in old(configs) then
                configs == old(configs) && pending == old(pending) && ran == old(ran) && log == old(log)
              else if state == Uninitialized then
                configs == old(configs) + [x] && pending == old(pending) + [x] && ran == old(ran) && log == old(log)
              else
                configs == old(configs) + [x] && pending == [] && ran == old(ran) + [x] && log == old(log) + [ConfigInvoked(x)]
    {
      if x !in configs {
        DistinctAppend(configs, x);
        PushConfig(log, x);
        if state == Uninitialized {
          configs, pending := configs + [x], pending + [x];
        } else {
          configs, ran, log := configs + [x], ran + [x], log + [ConfigInvoked(x)];
        }
      }
    }

    /** Attaches a handler to notification e that pushes value to the shared list. */
    method AddValuePusher(e: Event, value: string)
      modifies this`listeners
      ensures listeners == old(listeners) + [Listener(e, value)]
    {
      listeners := listeners + [Listener(e, value)];
    }

    /** Detains an instance and raises "Detained" with it, every time. */
    method Detain(x: Token)
      requires Valid() && state != Destroyed
      modifies this`detained, this`log
      ensures Valid()
      ensures detained == if x in old(detained) then old(detained) else old(detained) + [x]
      ensures log == old(log) + [Raised(Detained(x))]
    {
      if x !in detained {
        DistinctAppend(detained, x);
      }
      PushNote(log, Detained(x));
      detained, log := if x in detained then detained else detained + [x], log + [Raised(Detained(x))];
    }

    /** Releases a detained instance and raises "Released" with it; an instance
        that is not detained is ignored. */
    method Release(x: Token)
      requires Valid() && state != Destroyed
      modifies this`detained, this`log
      ensures Valid()
      ensures x in old(detained) ==> detained == Remove(old(detained), x) && log == old(log) + [Raised(Released(x))]
      ensures x !in old(detained) ==> detained == old(detained) && log == old(log)
    {
      if x in detained {
        detained := Remove(detained, x);
        PushNote(log, Released(x));
        log := log + [Raised(Released(x))];
      }
    }

    /** Raises a lifecycle notification: logs it, then calls every listener
        attached to it, in the order they were attached. */
    method Raise(e: Event)
      modifies this`log, this`pushed
      ensures log == old(log) + [Raised(Phase(e))]
      ensures pushed == old(pushed) + Pushes(listeners, e)
    {
      log := log + [Raised(Phase(e))];
      var i := 0;
      while i < |listeners|
        invariant 0 <= i <= |listeners|
        invariant log == old(log) + [Raised(Phase(e))]
        invariant pushed == old(pushed) + PushesUpTo(listeners, e, i)
      {
        if listeners[i].on == e {
          pushed := pushed + [listeners[i].value];
        }
        i := i + 1;
      }
    }

    /** The first two thirds of a transition: enter the transient state, raise
        PRE_X, enter the target state, raise X. A step of the transitions
        below, not called on its own. */
    method Begin(t: Transition)
      requires CanEnter(t, state)
      modifies this`state, this`log, this`pushed
      ensures state == Target(t)
      ensures log == old(log) + [Note(Pre, t), Note(During, t)]
      ensures pushed == old(pushed) + Pushes(listeners, Event(Pre, t)) + Pushes(listeners, Event(During, t))
    {
      state := Transient(t);
      Raise(Event(Pre, t));
      state := Target(t);
      Raise(Event(During, t));
    }

    /** Runs the pending configs in registration order: the step of Initialize
        after INITIALIZE has fired. */
    method RunPending()
      requires state == Target(Transition.Initialize)
      modifies this`pending, this`ran, this`log
      ensures pending == []
      ensures ran == old(ran) + old(pending)
      ensures log == old(log) + ConfigEntries(old(pending))
    {
      var i := 0;
      while i < |pending|
        invariant 0 <= i <= |pending|
        invariant pending == old(pending)
        invariant ran == old(ran) + pending[..i]
        invariant log == old(log) + ConfigEntries(pending[..i])
      {
        assert pending[..i + 1][..i] == pending[..i];
        ran := ran + [pending[i]];
        log := log + [ConfigInvoked(pending[i])];
        i := i + 1;
      }
      assert pending[..i] == pending;
      pending := [];
    }

    /** Releases every detained instance in the order it was detained: the
        last step of Destroy. */
    method ReleaseAll()
      requires state == Target(Transition.Destroy)
      modifies this`detained, this`log
      ensures detained == []
      ensures log == old(log) + ReleaseEntries(old(detained))
    {
      var i := 0;
      while i < |detained|
        invariant 0 <= i <= |detained|
        invariant detained == old(detained)
        invariant log == old(log) + ReleaseEntries(detained[..i])
      {
        assert detained[..i + 1][..i] == detained[..i];
        log := log + [Raised(Released(detained[i]))];
        i := i + 1;
      }
      assert detained[..i] == detained;
      detained := [];
    }

    /** PRE_INITIALIZE, INITIALIZE, then every registered config in
        registration order, then POST_INITIALIZE. */
    method Initialize()
      requires Valid() && CanEnter(Transition.Initialize, state)
      modifies this`state, this`pending, this`ran, this`log, this`pushed
      ensures Valid() && state == Target(Transition.Initialize)
      ensures log == old(log) + [Note(Pre, Transition.Initialize), Note(During, Transition.Initialize)]
                     + ConfigEntries(old(configs)) + [Note(Post, Transition.Initialize)]
      ensures pushed == old(pushed) + Fired(listeners, Transition.Initialize)
      ensures pending == [] && ran == configs
    {
      assert ran + pending == configs;
      InitializeProjects(log, pending);
      RunInitialize();
    }

    /** The steps of Initialize: PRE_INITIALIZE, INITIALIZE, the pending configs
        in registration order, POST_INITIALIZE. */
    method RunInitialize()
      requires CanEnter(Transition.Initialize, state)
      modifies this`state, this`pending, this`ran, this`log, this`pushed
      ensures state == Target(Transition.Initialize)
      ensures log == old(log) + [Note(Pre, Transition.Initialize), Note(During, Transition.Initialize)]
                     + ConfigEntries(old(pending)) + [Note(Post, Transition.Initialize)]
      ensures pushed == old(pushed) + Fired(listeners, Transition.Initialize)
      ensures pending == [] && ran == old(ran) + old(pending)
    {
      PushFired(pushed, listeners, Transition.Initialize);
      Begin(Transition.Initialize);
      RunPending();
      Raise(Event(Post, Transition.Initialize));
    }

    /** PRE_SUSPEND, SUSPEND, POST_SUSPEND. */
    method Suspend()
      requires Valid() && CanEnter(Transition.Suspend, state)
      modifies this`state, this`log, this`pushed
      ensures Valid() && state == Target(Transition.Suspend)
      ensures log == old(log) + [Note(Pre, Transition.Suspend), Note(During, Transition.Suspend)] + [Note(Post, Transition.Suspend)]
      ensures pushed == old(pushed) + Fired(listeners, Transition.Suspend)
    {
      PushFired(pushed, listeners, Transition.Suspend);
      TransitionProjects(log, Transition.Suspend, []);
      Begin(Transition.Suspend);
      Raise(Event(Post, Transition.Suspend));
    }

    /** PRE_RESUME, RESUME, POST_RESUME. */
    method Resume()
      requires Valid() && CanEnter(Transition.Resume, state)
      modifies this`state, this`log, this`pushed
      ensures Valid() && state == Target(Transition.Resume)
      ensures log == old(log) + [Note(Pre, Transition.Resume), Note(During, Transition.Resume)] + [Note(Post, Transition.Resume)]
      ensures pushed == old(pushed) + Fired(listeners, Transition.Resume)
    {
      PushFired(pushed, listeners, Transition.Resume);
      TransitionProjects(log, Transition.Resume, []);
      Begin(Transition.Resume);
      Raise(Event(Post, Transition.Resume));
    }

    /** PRE_DESTROY, DESTROY, POST_DESTROY, then a "Released" notification for
        every instance still detained, in the order they were detained. */
    method Destroy()
      requires Valid() && CanEnter(Transition.Destroy, state)
      modifies this`state, this`detained, this`log, this`pushed
      ensures Valid() && state == Target(Transition.Destroy)
      ensures log == old(log) + [Note(Pre, Transition.Destroy), Note(During, Transition.Destroy)] + [Note(Post, Transition.Destroy)]
                     + ReleaseEntries(old(detained))
      ensures pushed == old(pushed) + Fired(listeners, Transition.Destroy)
      ensures detained == []
    {
      PushFired(pushed, listeners, Transition.Destroy);
      TransitionProjects(log, Transition.Destroy, detained);
      Begin(Transition.Destroy);
      Raise(Event(Post, Transition.Destroy));
      ReleaseAll();
    }
  }
}
