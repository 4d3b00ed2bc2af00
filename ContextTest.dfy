/** The context test fixture: each test is a method that builds a fresh context,
    drives it the way the test does and returns what the test observes. */
module ContextTest {
  import opened Lifecycle
  import opened Contexts

  /** An installed extension is invoked at once, and the context it receives is
      the context that installed it. */
  method ExtensionsAreInstalled(x: Token) returns (context: Context, actual: Option<Context>)
    ensures actual == Some(context)
  {
    context := new Context();
    context.Install(x);
    actual := Receiver(context.log, x);
  }

  /** A config registered before Initialize has run by the time Initialize
      returns, between INITIALIZE and POST_INITIALIZE. */
  method ConfigsAreInstalled(config: Token) returns (installed: bool, log: seq<Entry>)
    ensures installed
    ensures log == [Note(Pre, Initialize), Note(During, Initialize), ConfigInvoked(config), Note(Post, Initialize)]
  {
    var context := new Context();
    context.Configure(config);
    context.Initialize();
    log := context.log;
    OneConfigLog(config);
    installed := ConfigInvoked(config) in log;
  }

  /** The "Detained" notification carries the detained instance. */
  method DetainStoresTheInstance(expected: Token) returns (actual: Option<Token>)
    ensures actual == Some(expected)
  {
    var context := new Context();
    context.Detain(expected);
    actual := LastDetained(context.log);
  }

  /** Releasing a detained instance raises "Released" with that instance. */
  method ReleaseFreesUpTheInstance(expected: Token) returns (actual: Option<Token>, held: seq<Token>)
    ensures actual == Some(expected)
    ensures held == []
  {
    var context := new Context();
    context.Detain(expected);
    context.Release(expected);
    actual := LastReleased(context.log);
    held := context.detained;
    DetainReleaseOnce(expected);
  }

  /** The detained list and the log of ReleaseFreesUpTheInstance, written out
      from the contracts of Detain and Release on an empty start: the list is
      empty again and the last "Released" payload is x. */
  lemma DetainReleaseOnce(x: Token)
    ensures Remove(if x in [] then [] else [] + [x], x) == []
    ensures LastReleased([] + [Raised(Detained(x))] + [Raised(Released(x))]) == Some(x)
  {
    assert [] + [x] == [x];
  }

  /** One value pusher per lifecycle notification, then the full cycle: the
      shared list holds the twelve names in the order the notifications fire,
      and the context raised those twelve notifications and nothing else. */
  method LifecycleEventsArePropagated() returns (actual: seq<string>, log: seq<Entry>)
    ensures actual ==
      ["PRE_INITIALIZE", "INITIALIZE", "POST_INITIALIZE",
       "PRE_SUSPEND", "SUSPEND", "POST_SUSPEND",
       "PRE_RESUME", "RESUME", "POST_RESUME",
       "PRE_DESTROY", "DESTROY", "POST_DESTROY"]
    ensures log ==
      [Note(Pre, Initialize), Note(During, Initialize), Note(Post, Initialize),
       Note(Pre, Suspend), Note(During, Suspend), Note(Post, Suspend),
       Note(Pre, Resume), Note(During, Resume), Note(Post, Resume),
       Note(Pre, Destroy), Note(During, Destroy), Note(Post, Destroy)]
  {
    var context := new Context();
    AttachNamePushers(context);
    context.Initialize();
    context.Suspend();
    context.Resume();
    context.Destroy();
    actual := context.pushed;
    log := context.log;
    FullCyclePushes(context.listeners);
    FullCycleLog();
  }

  /** Attaches to every lifecycle notification a value pusher that pushes the
      name of that notification. */
  method AttachNamePushers(context: Context)
    requires context.listeners == []
    modifies context`listeners
    ensures context.listeners == NamePushers(EventsOf(FullCycle()))
  {
    context.AddValuePusher(Event(Pre, Initialize), "PRE_INITIALIZE");
    context.AddValuePusher(Event(During, Initialize), "INITIALIZE");
    context.AddValuePusher(Event(Post, Initialize), "POST_INITIALIZE");
    context.AddValuePusher(Event(Pre, Suspend), "PRE_SUSPEND");
    context.AddValuePusher(Event(During, Suspend), "SUSPEND");
    context.AddValuePusher(Event(Post, Suspend), "POST_SUSPEND");
    context.AddValuePusher(Event(Pre, Resume), "PRE_RESUME");
    context.AddValuePusher(Event(During, Resume), "RESUME");
    context.AddValuePusher(Event(Post, Resume), "POST_RESUME");
    context.AddValuePusher(Event(Pre, Destroy), "PRE_DESTROY");
    context.AddValuePusher(Event(During, Destroy), "DESTROY");
    context.AddValuePusher(Event(Post, Destroy), "POST_DESTROY");
    FullCycleListeners();
  }

  /** The log of ConfigsAreInstalled, written out from the contracts of
      Configure and Initialize on an empty start, equals the four entries the
      test expects. */
  lemma OneConfigLog(config: Token)
    ensures [] + [Note(Pre, Initialize), Note(During, Initialize)] + ConfigEntries([] + [config]) + [Note(Post, Initialize)]
      == [Note(Pre, Initialize), Note(During, Initialize), ConfigInvoked(config), Note(Post, Initialize)]
  {
    assert [] + [config] == [config];
    assert ConfigEntries([config]) == [ConfigInvoked(config)];
  }

  /** The log of LifecycleEventsArePropagated, written out from the contracts of
      the four transitions on an empty start with no config and no detained
      instance, equals the twelve notifications in order. */
  lemma FullCycleLog()
    ensures [] + [Note(Pre, Initialize), Note(During, Initialize)] + ConfigEntries([]) + [Note(Post, Initialize)]
      + [Note(Pre, Suspend), Note(During, Suspend)] + [Note(Post, Suspend)]
      + [Note(Pre, Resume), Note(During, Resume)] + [Note(Post, Resume)]
      + [Note(Pre, Destroy), Note(During, Destroy)] + [Note(Post, Destroy)] + ReleaseEntries([])
      == [Note(Pre, Initialize), Note(During, Initialize), Note(Post, Initialize),
          Note(Pre, Suspend), Note(During, Suspend), Note(Post, Suspend),
          Note(Pre, Resume), Note(During, Resume), Note(Post, Resume),
          Note(Pre, Destroy), Note(During, Destroy), Note(Post, Destroy)]
  {
    assert ConfigEntries([]) == [] && ReleaseEntries([]) == [];
  }

  /** The twelve pushers the test attaches are one name pusher per notification
      of the full cycle, in the order those notifications fire. */
  lemma FullCycleListeners()
    ensures [] + [Listener(Event(Pre, Initialize), "PRE_INITIALIZE")] + [Listener(Event(During, Initialize), "INITIALIZE")]
      + [Listener(Event(Post, Initialize), "POST_INITIALIZE")] + [Listener(Event(Pre, Suspend), "PRE_SUSPEND")]
      + [Listener(Event(During, Suspend), "SUSPEND")] + [Listener(Event(Post, Suspend), "POST_SUSPEND")]
      + [Listener(Event(Pre, Resume), "PRE_RESUME")] + [Listener(Event(During, Resume), "RESUME")]
      + [Listener(Event(Post, Resume), "POST_RESUME")] + [Listener(Event(Pre, Destroy), "PRE_DESTROY")]
      + [Listener(Event(During, Destroy), "DESTROY")] + [Listener(Event(Post, Destroy), "POST_DESTROY")]
      == NamePushers(EventsOf(FullCycle()))
  {
    FullCycleEvents();
  }
}
