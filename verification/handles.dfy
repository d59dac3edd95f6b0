/**
  The platform and vendor objects the helper talks to, reduced to opaque
  handles, and the side effects it can cause on them.

  Nothing here has behaviour of its own: the Custom Tabs client library, the
  Android service-binding primitive and the package-resolution helper are
  outside the model. Their answers enter as data (`Host.preferredPackage`)
  or as oracle functions (`Environment`), and their invocations leave as
  `Effect` values.
*/
module Handles {
  import opened Wrappers

  type PackageName = string
  type Uri = string

  /** A `CustomTabsClient` delivered by the service connection. */
  datatype Client = Client(id: nat)

  /** A `CustomTabsSession` created by `CustomTabsClient.newSession`. */
  datatype Session = Session(id: nat)

  /** A `ServiceConnection` object; `id` stands for Java object identity. */
  datatype Connection = Connection(id: nat)

  /** The registered `ConnectionCallback` (the UI owner). */
  datatype ConnectionCallback = ConnectionCallback(id: nat)

  /** A `CustomTabsCallback` receiving navigation events for a session. */
  datatype TabsCallback = TabsCallback(id: nat)

  /** An opaque Android `Bundle` passed through to the browser. */
  datatype Bundle = Bundle(id: nat)

  /**
    The host Activity. `preferredPackage` is what the package-resolution
    helper (`CustomTabsHelper.getPackageNameToUse`) answers for it: the
    browser package supporting Custom Tabs, or None when no such browser is
    installed.
  */
  datatype Host = Host(id: nat, preferredPackage: Option<PackageName>)

  /**
    A `CustomTabsIntent`. The fields `initialHeightPx`, `resizeBehavior` and
    `toolbarCornerRadiusDp` record what was handed to the vendor builder;
    `extras` holds only the extras the helper itself puts on the intent, and
    `package` the target set by `setPackage`.
  */
  datatype Intent = Intent(
    session: Option<Session>,
    initialHeightPx: Option<int>,
    resizeBehavior: Option<int>,
    toolbarCornerRadiusDp: Option<int>,
    extras: map<string, int>,
    package: Option<PackageName>)

  /** `new CustomTabsIntent.Builder(session).build()` with no settings. */
  function PlainIntent(session: Option<Session>): (i: Intent)
    ensures i.session == session && i.extras == map[] && i.package.None?
    ensures i.initialHeightPx.None? && i.resizeBehavior.None? && i.toolbarCornerRadiusDp.None?
  {
    Intent(session, None, None, None, map[], None)
  }

  /**
    The answers of the vendor library, as oracles:
    `newSession` is `CustomTabsClient.newSession` (None models a null
    return), `mayLaunchUrl` is `CustomTabsSession.mayLaunchUrl`.
  */
  datatype Environment = Environment(
    newSession: (Client, Option<TabsCallback>) -> Option<Session>,
    mayLaunchUrl: (Session, Uri, Option<Bundle>, Option<seq<Bundle>>) -> bool)

  /** What the helper asks of the platform, the vendor library or its owner. */
  datatype Effect =
    | BindService(host: Host, package: PackageName, connection: Connection)
    | UnbindService(host: Host, connection: Connection)
    | NewSession(client: Client, tabsCallback: Option<TabsCallback>)
    | Warmup(client: Client, flags: int)
    | Prefetch(session: Session, uri: Uri, extras: Option<Bundle>, others: Option<seq<Bundle>>)
    | NotifyConnected(target: ConnectionCallback)
    | NotifyDisconnected(target: ConnectionCallback)
    | Launch(host: Host, intent: Intent, uri: Uri)

  /** The number of effects among `effects` that satisfy `p`. */
  function Count(effects: seq<Effect>, p: Effect -> bool): (n: nat)
    ensures n <= |effects|
    ensures n == 0 <==> forall i :: 0 <= i < |effects| ==> !p(effects[i])
  {
    if effects == [] then 0
    else (if p(effects[0]) then 1 else 0) + Count(effects[1..], p)
  }

  /** The concatenation law of `Count`. */
  lemma {:induction false} CountAppend(a: seq<Effect>, b: seq<Effect>, p: Effect -> bool)
    ensures Count(a + b, p) == Count(a, p) + Count(b, p)
  {
    if a == [] {
      assert a + b == b;
    } else {
      assert (a + b)[1..] == a[1..] + b;
      CountAppend(a[1..], b, p);
    }
  }

  /** Kinds of effect, for use with `Count`. */
  predicate IsLaunch(e: Effect) { e.Launch? }
  predicate IsPrefetch(e: Effect) { e.Prefetch? }
  /** A call into the registered connection callback. */
  predicate IsNotification(e: Effect) { e.NotifyConnected? || e.NotifyDisconnected? }
  predicate IsWarmup(e: Effect) { e.Warmup? }
}
