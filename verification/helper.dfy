/**
  `CustomTabActivityHelper`: the bookkeeping of one binding to a Custom Tabs
  browser service. The four nullable fields of the Java class become the
  `Option` fields of the immutable record `Helper`; every public method and
  every service notification becomes a pure transition returning the new
  record, the method's answer and the effects it caused, in order.
*/
module CustomTabActivityHelper {
  import opened Wrappers
  import opened Handles

  /** The value put under the background-interaction extra to switch it off. */
  const BackgroundInteractOffValue: int := 2

  /** The argument of `warmup`. */
  const WarmupFlags: int := 0

  /** `CustomTabsIntent.ACTIVITY_HEIGHT_DEFAULT` of the vendor library. */
  const ActivityHeightDefault: int := 0

  const InitialHeightPxKey: string := "androidx.browser.customtabs.extra.INITIAL_ACTIVITY_HEIGHT_IN_PIXEL"
  const CornerRadiusPxKey: string := "androidx.browser.customtabs.extra.TOOLBAR_CORNER_RADIUS_IN_PIXEL"

  /** `CustomTabsIntent.EXTRA_ACTIVITY_HEIGHT_RESIZE_BEHAVIOR` of the vendor library. */
  const ResizeBehaviorKey: string := "androidx.browser.customtabs.extra.ACTIVITY_HEIGHT_RESIZE_BEHAVIOR"

  /** The background-interaction key exactly as the helper spells it. */
  const BackgroundInteractionKeyAsWritten: string := "androix.browser.customtabs.extra.ENABLE_BACKGROUND_INTERACTION"

  /** The background-interaction key the browser reads. */
  const BackgroundInteractionKey: string := "androidx.browser.customtabs.extra.ENABLE_BACKGROUND_INTERACTION"

  /**
    The helper's fields. `created` counts the `ServiceConnection` objects
    created so far, so that `Connection(created)` is a fresh object.
  */
  datatype Helper = Helper(
    session: Option<Session>,
    client: Option<Client>,
    connection: Option<Connection>,
    callback: Option<ConnectionCallback>,
    created: nat)

  /** A transition: the new fields, the method's answer, the effects in order. */
  datatype Outcome<R> = Outcome(state: Helper, result: R, effects: seq<Effect>)

  /** A freshly constructed helper: every field null. */
  const Initial: Helper := Helper(None, None, None, None, 0)

  /** `c` was created by some earlier successful bind. */
  predicate Allocated(h: Helper, c: Connection) {
    c.id < h.created
  }

  /**
    The helper's invariant: a session is never held without a client, and
    the held connection is one the helper created.
  */
  predicate Valid(h: Helper) {
    && (h.session.Some? ==> h.client.Some?)
    && (h.connection.Some? ==> Allocated(h, h.connection.value))
  }

  /**
    `bindCustomTabsService`. Refuses when a client is already held or no
    browser package resolves; otherwise creates a new connection, replacing
    any connection still held, and asks the platform to bind it.
  */
  function Bind(h: Helper, host: Host): (o: Outcome<bool>)
    ensures !o.result <==> h.client.Some? || host.preferredPackage.None?
    ensures !o.result ==> o.state == h && o.effects == []
    ensures o.result ==>
      && o.state.connection.Some?
      && !Allocated(h, o.state.connection.value)
      && o.state.session == h.session && o.state.client == h.client && o.state.callback == h.callback
      && o.effects == [BindService(host, host.preferredPackage.value, o.state.connection.value)]
    ensures Valid(h) ==> Valid(o.state)
  {
    if h.client.Some? then Outcome(h, false, [])
    else
      match host.preferredPackage
      case None => Outcome(h, false, [])
      case Some(pkg) =>
        var c := Connection(h.created);
        Outcome(h.(connection := Some(c), created := h.created + 1), true, [BindService(host, pkg, c)])
  }

  /**
    `unbindCustomTabsService`. Without a connection it does nothing;
    otherwise it releases the binding and drops client, session and
    connection together.
  */
  function Unbind(h: Helper, host: Host): (o: Outcome<()>)
    ensures h.connection.None? ==> o.state == h && o.effects == []
    ensures h.connection.Some? ==>
      && o.state.client.None? && o.state.session.None? && o.state.connection.None?
      && o.state.callback == h.callback && o.state.created == h.created
      && o.effects == [UnbindService(host, h.connection.value)]
    ensures Valid(h) ==> Valid(o.state)
  {
    match h.connection
    case None => Outcome(h, (), [])
    case Some(c) =>
      Outcome(h.(client := None, session := None, connection := None), (), [UnbindService(host, c)])
  }

  /**
    `getSession`. Without a client the cached session is dropped and null is
    returned; with a client the cached session is returned, or, when none is
    cached, a new one is requested once and cached, even when it is null.
  */
  function GetSession(h: Helper, tabsCallback: Option<TabsCallback>, env: Environment): (o: Outcome<Option<Session>>)
    ensures o.state.session == o.result
    ensures o.state.(session := h.session) == h
    ensures h.client.None? ==> o.result.None? && o.effects == []
    ensures h.client.Some? && h.session.Some? ==> o.result == h.session && o.effects == []
    ensures h.client.Some? && h.session.None? ==>
      && o.result == env.newSession(h.client.value, tabsCallback)
      && o.effects == [NewSession(h.client.value, tabsCallback)]
    ensures Valid(h) ==> Valid(o.state)
  {
    if h.client.None? then Outcome(h.(session := None), None, [])
    else if h.session.None? then
      var s := env.newSession(h.client.value, tabsCallback);
      Outcome(h.(session := s), s, [NewSession(h.client.value, tabsCallback)])
    else Outcome(h, h.session, [])
  }

  /**
    `mayLaunchUrl`. False without a client, or when no session can be
    obtained; otherwise the browser's answer to the prefetch hint, forwarded
    through the (possibly just created) session.
  */
  function MayLaunchUrl(h: Helper, uri: Uri, extras: Option<Bundle>, others: Option<seq<Bundle>>, env: Environment): (o: Outcome<bool>)
    ensures h.client.None? ==> o.state == h && !o.result && o.effects == []
    ensures h.client.Some? ==> o.state == GetSession(h, None, env).state
    ensures o.result ==> o.state.session.Some? && env.mayLaunchUrl(o.state.session.value, uri, extras, others)
    ensures h.client.Some? && o.state.session.Some? ==>
      o.result == env.mayLaunchUrl(o.state.session.value, uri, extras, others)
    ensures Count(o.effects, IsPrefetch) == if h.client.Some? && o.state.session.Some? then 1 else 0
    ensures h.client.Some? ==>
      o.effects == GetSession(h, None, env).effects
                   + (if o.state.session.Some? then [Prefetch(o.state.session.value, uri, extras, others)] else [])
    ensures Valid(h) ==> Valid(o.state)
  {
    if h.client.None? then Outcome(h, false, [])
    else
      var g := GetSession(h, None, env);
      match g.result
      case None => Outcome(g.state, false, g.effects)
      case Some(s) =>
        Outcome(g.state, env.mayLaunchUrl(s, uri, extras, others), g.effects + [Prefetch(s, uri, extras, others)])
  }

  /**
    `onServiceConnected`. Stores the client (keeping any cached session and
    the connection), warms the browser up once and tells the registered
    callback, if there is one.
  */
  function OnServiceConnected(h: Helper, client: Client): (o: Outcome<()>)
    ensures o.state.client == Some(client)
    ensures o.state.(client := h.client) == h
    ensures |o.effects| >= 1 && o.effects[0] == Warmup(client, WarmupFlags)
    ensures Count(o.effects, IsWarmup) == 1
    ensures |o.effects| == 1 + (if h.callback.Some? then 1 else 0)
    ensures Count(o.effects, IsNotification) == if h.callback.Some? then 1 else 0
    ensures forall e :: e in o.effects && IsNotification(e) ==> e.NotifyConnected? && h.callback == Some(e.target)
    ensures Valid(h) ==> Valid(o.state)
  {
    var notify := match h.callback
      case None => []
      case Some(cb) => [NotifyConnected(cb)];
    Outcome(h.(client := Some(client)), (), [Warmup(client, WarmupFlags)] + notify)
  }

  /**
    `onServiceDisconnected`. Drops client and session, keeps the connection,
    and tells the registered callback, if there is one.
  */
  function OnServiceDisconnected(h: Helper): (o: Outcome<()>)
    ensures o.state.client.None? && o.state.session.None?
    ensures o.state.connection == h.connection && o.state.callback == h.callback
    ensures o.state.created == h.created
    ensures Count(o.effects, IsNotification) == if h.callback.Some? then 1 else 0
    ensures forall e :: e in o.effects ==> e.NotifyDisconnected? && h.callback == Some(e.target)
    ensures Valid(h) ==> Valid(o.state)
  {
    var notify := match h.callback
      case None => []
      case Some(cb) => [NotifyDisconnected(cb)];
    Outcome(h.(client := None, session := None), (), notify)
  }

  /** `setConnectionCallback`: replaces the registered callback; None silences it. */
  function SetConnectionCallback(h: Helper, callback: Option<ConnectionCallback>): (o: Outcome<()>)
    ensures o.state.callback == callback
    ensures o.state.(callback := h.callback) == h
    ensures o.effects == []
    ensures Valid(h) ==> Valid(o.state)
  {
    Outcome(h.(callback := callback), (), [])
  }

  /**
    `openCustomTab` with an optional prepared intent. Without a browser
    package nothing happens and the answer is false; otherwise the intent
    (the caller's, or a plain one over the helper's session) is targeted at
    that package and launched once.
  */
  function OpenCustomTab(h: Helper, host: Host, intent: Option<Intent>, uri: Uri, env: Environment): (o: Outcome<bool>)
    ensures o.result <==> host.preferredPackage.Some?
    ensures !o.result ==> o.state == h && o.effects == []
    ensures o.result ==>
      && |o.effects| >= 1
      && Count(o.effects, IsLaunch) == 1
      && var last := o.effects[|o.effects| - 1];
         && last.Launch? && last.host == host && last.uri == uri
         && last.intent.package == host.preferredPackage
         && (intent.Some? ==> last.intent == intent.value.(package := host.preferredPackage))
         && (intent.None? ==> last.intent == PlainIntent(o.state.session).(package := host.preferredPackage))
    ensures o.result && intent.Some? ==> |o.effects| == 1
    ensures o.result && intent.None? ==>
      && o.state == GetSession(h, None, env).state
      && o.effects[..|o.effects| - 1] == GetSession(h, None, env).effects
    ensures intent.Some? ==> o.state == h
    ensures o.state.(session := h.session) == h
    ensures Valid(h) ==> Valid(o.state)
  {
    match host.preferredPackage
    case None => Outcome(h, false, [])
    case Some(pkg) =>
      match intent
      case Some(i) => Outcome(h, true, [Launch(host, i.(package := Some(pkg)), uri)])
      case None =>
        var g := GetSession(h, None, env);
        Outcome(g.state, true, g.effects + [Launch(host, PlainIntent(g.result).(package := Some(pkg)), uri)])
  }

  /** The arguments of `openPartialCustomTab` apart from the activity and the URI. */
  datatype PartialRequest = PartialRequest(
    resizeBehavior: int,
    initialHeightPx: int,
    toolbarCornerRadiusDp: int,
    toolbarCornerRadiusPx: int,
    enableBackgroundInteract: bool)

  /**
    The extras `openPartialCustomTab` puts on its intent, with the
    background-interaction extra stored under `backgroundKey`: the height
    and corner radius in pixels always, the resize behaviour only when it is
    not the default, the background-interaction switch only when
    interaction is disabled.
  */
  function PartialExtras(req: PartialRequest, backgroundKey: string): (m: map<string, int>)
    requires backgroundKey !in {InitialHeightPxKey, CornerRadiusPxKey, ResizeBehaviorKey}
    ensures m.Keys <= {InitialHeightPxKey, CornerRadiusPxKey, ResizeBehaviorKey, backgroundKey}
    ensures InitialHeightPxKey in m && m[InitialHeightPxKey] == req.initialHeightPx
    ensures CornerRadiusPxKey in m && m[CornerRadiusPxKey] == req.toolbarCornerRadiusPx
    ensures ResizeBehaviorKey in m <==> req.resizeBehavior != ActivityHeightDefault
    ensures ResizeBehaviorKey in m ==> m[ResizeBehaviorKey] == req.resizeBehavior
    ensures backgroundKey in m <==> !req.enableBackgroundInteract
    ensures backgroundKey in m ==> m[backgroundKey] == BackgroundInteractOffValue
  {
    var base := map[InitialHeightPxKey := req.initialHeightPx, CornerRadiusPxKey := req.toolbarCornerRadiusPx];
    var sized := if req.resizeBehavior != ActivityHeightDefault then base[ResizeBehaviorKey := req.resizeBehavior] else base;
    if !req.enableBackgroundInteract then sized[backgroundKey := BackgroundInteractOffValue] else sized
  }

  /**
    `openPartialCustomTab` with the background-interaction extra stored
    under `backgroundKey`. It builds the intent over the helper's session,
    without consulting package resolution and without a target package,
    and launches it exactly once.
  */
  function PartialLaunch(h: Helper, host: Host, req: PartialRequest, uri: Uri, env: Environment, backgroundKey: string): (o: Outcome<()>)
    requires backgroundKey !in {InitialHeightPxKey, CornerRadiusPxKey, ResizeBehaviorKey}
    ensures o.state == GetSession(h, None, env).state
    ensures |o.effects| >= 1 && Count(o.effects, IsLaunch) == 1
    ensures o.effects[..|o.effects| - 1] == GetSession(h, None, env).effects
    ensures var last := o.effects[|o.effects| - 1];
      && last.Launch? && last.host == host && last.uri == uri
      && last.intent.session == o.state.session
      && last.intent.package.None?
      && last.intent.initialHeightPx == Some(req.initialHeightPx)
      && last.intent.resizeBehavior == Some(req.resizeBehavior)
      && last.intent.toolbarCornerRadiusDp == Some(req.toolbarCornerRadiusDp)
      && last.intent.extras == PartialExtras(req, backgroundKey)
    ensures Valid(h) ==> Valid(o.state)
  {
    var g := GetSession(h, None, env);
    var intent := PlainIntent(g.result).(
      initialHeightPx := Some(req.initialHeightPx),
      resizeBehavior := Some(req.resizeBehavior),
      toolbarCornerRadiusDp := Some(req.toolbarCornerRadiusDp),
      extras := PartialExtras(req, backgroundKey));
    CountAppend(g.effects, [Launch(host, intent, uri)], IsLaunch);
    Outcome(g.state, (), g.effects + [Launch(host, intent, uri)])
  }

  /** `openPartialCustomTab` as written, with the misspelled key. */
  function OpenPartialCustomTab(h: Helper, host: Host, req: PartialRequest, uri: Uri, env: Environment): (o: Outcome<()>)
    ensures |o.effects| >= 1 && o.effects[|o.effects| - 1].Launch?
    ensures var extras := o.effects[|o.effects| - 1].intent.extras;
      && InitialHeightPxKey in extras && CornerRadiusPxKey in extras
      && (ResizeBehaviorKey in extras <==> req.resizeBehavior != ActivityHeightDefault)
      && (BackgroundInteractionKeyAsWritten in extras <==> !req.enableBackgroundInteract)
      && BackgroundInteractionKey !in extras
  {
    PartialLaunch(h, host, req, uri, env, BackgroundInteractionKeyAsWritten)
  }

  /** `openPartialCustomTab` with the key the browser reads. */
  function OpenPartialCustomTabCorrected(h: Helper, host: Host, req: PartialRequest, uri: Uri, env: Environment): (o: Outcome<()>)
    ensures |o.effects| >= 1 && o.effects[|o.effects| - 1].Launch?
    ensures var extras := o.effects[|o.effects| - 1].intent.extras;
      && (BackgroundInteractionKey in extras <==> !req.enableBackgroundInteract)
      && (BackgroundInteractionKey in extras ==> extras[BackgroundInteractionKey] == BackgroundInteractOffValue)
  {
    PartialLaunch(h, host, req, uri, env, BackgroundInteractionKey)
  }

  /**
    The corrected bind: refuses also while a connection is still held, so a
    binding is never overwritten before it has been released.
  */
  function BindGuarded(h: Helper, host: Host): (o: Outcome<bool>)
    ensures !o.result <==> h.client.Some? || h.connection.Some? || host.preferredPackage.None?
    ensures !o.result ==> o.state == h && o.effects == []
    ensures o.result ==>
      && h.connection.None? && o.state.connection.Some?
      && !Allocated(h, o.state.connection.value)
      && o.state.session == h.session && o.state.client == h.client && o.state.callback == h.callback
      && o.effects == [BindService(host, host.preferredPackage.value, o.state.connection.value)]
    ensures Valid(h) ==> Valid(o.state)
  {
    if h.connection.Some? then Outcome(h, false, []) else Bind(h, host)
  }

  // ---------------------------------------------------------------------------
  // Properties relating several calls

  /** Unbinding twice is unbinding once: the second call does nothing. */
  lemma UnbindIdempotent(h: Helper, host: Host, host': Host)
    ensures var first := Unbind(h, host);
      Unbind(first.state, host') == Outcome(first.state, (), [])
  {
  }

  /** A second `getSession` under a client returns the identical session and changes nothing. */
  lemma GetSessionStable(h: Helper, cb: Option<TabsCallback>, cb': Option<TabsCallback>, env: Environment)
    requires h.client.Some?
    ensures var first := GetSession(h, cb, env);
      var second := GetSession(first.state, cb', env);
      first.result.Some? ==> second == Outcome(first.state, first.result, [])
  {
  }

  /**
    The guard looks only at the client: a second bind before the service
    connects succeeds and replaces the first connection with a new one.
  */
  lemma SecondBindOverwritesConnection(h: Helper, host: Host)
    requires Valid(h) && h.client.None? && host.preferredPackage.Some?
    ensures var first := Bind(h, host);
      var second := Bind(first.state, host);
      first.result && second.result
      && second.state.connection.Some? && second.state.connection != first.state.connection
  {
  }

  /**
    A reconnect does not drop the cached session: after
    `onServiceConnected(c)` the session obtained from the previous client is
    still returned by `getSession`.
  */
  lemma SessionSurvivesReconnect(h: Helper, c: Client, cb: Option<TabsCallback>, env: Environment)
    requires h.client.Some? && h.session.Some?
    ensures var r := OnServiceConnected(h, c);
      GetSession(r.state, cb, env).result == h.session
  {
  }
}
