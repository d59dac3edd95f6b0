# Custom Tabs connection helper, modelled in Dafny

This project models `CustomTabActivityHelper`, the class of the Custom Tabs
demo application that manages one binding to a browser's Custom Tabs
service. The helper keeps four nullable references: the session, the client,
the service connection and the registered connection callback. It reacts to
its public calls and to the service's connect/disconnect notifications.

The model is a functional state machine:

- `Handles` (`handles.dfy`) holds the platform and vendor objects as opaque
  handles. External answers enter as oracles: `Host.preferredPackage` is
  package resolution, and the `Environment` record carries
  `CustomTabsClient.newSession` and `CustomTabsSession.mayLaunchUrl`. Every
  request the helper makes leaves as an `Effect`: bind, unbind, new session,
  warmup, prefetch, connected/disconnected notification, launch.
- `CustomTabActivityHelper` (`helper.dfy`) holds the record `Helper`, one
  pure transition per public method and per service notification, and
  lemmas about pairs of calls. Each transition returns
  `Outcome(state, result, effects)`. The counter `created` stands for Java
  object identity, so each `new ServiceConnection` gets a fresh handle.
- `HelperTrace` (`trace.dfy`) runs arbitrary sequences of calls and
  notifications. It proves the invariants that hold over every sequence,
  plus the end-to-end scenarios.
- `Bindings` (`bindings.dfy`) counts the platform bindings left open by a
  sequence of effects. It backs the first finding below.

`HelperTrace.Step` takes a `Build`. `AsWritten` runs the helper as the
source has it. `Corrected` swaps in the two corrected definitions from
"## Findings". The invariants in `HelperTrace` are proved for both builds.

Two behaviours of the code are easy to misread, and the model keeps them:

- `getSession` without a client clears any cached session and returns null
  (CustomTabActivityHelper.java:137-139). It never hands back a cached
  session once the client is gone.
- `openPartialCustomTab` (CustomTabActivityHelper.java:67-94) never consults
  package resolution, sets no target package and has no fallback. Its doc
  comment (CustomTabActivityHelper.java:56-57) speaks of a WebView fallback
  that the method does not implement.

## Model

| member | source | states |
|---|---|---|
| `CustomTabActivityHelper.Bind` | app/src/main/java/org/chromium/customtabsdemos/CustomTabActivityHelper.java:159-174 | Refuses (false, state and effects unchanged) exactly when a client is held or no package resolves. On success it installs a connection never created before, emits one bind request for the resolved package, and leaves session, client and callback untouched. |
| `CustomTabActivityHelper.Unbind` | app/src/main/java/org/chromium/customtabsdemos/CustomTabActivityHelper.java:123-129 | With no connection: no change, no effect. Otherwise exactly one unbind of the held connection, after which client, session and connection are all absent and the callback is kept. |
| `CustomTabActivityHelper.UnbindIdempotent` | app/src/main/java/org/chromium/customtabsdemos/CustomTabActivityHelper.java:123-129 | A second unbind after any unbind changes nothing and emits nothing. |
| `CustomTabActivityHelper.GetSession` | app/src/main/java/org/chromium/customtabsdemos/CustomTabActivityHelper.java:136-145 | The returned session is the one cached afterwards. With no client: null. With a cached session: that session, no effect. Otherwise exactly one `newSession` with the caller's callback, whose answer (possibly null) is cached. Only the session field can change. |
| `CustomTabActivityHelper.GetSessionStable` | app/src/main/java/org/chromium/customtabsdemos/CustomTabActivityHelper.java:136-145 | Under a client, once a session has been obtained, a second call returns the identical session and changes nothing. |
| `CustomTabActivityHelper.MayLaunchUrl` | app/src/main/java/org/chromium/customtabsdemos/CustomTabActivityHelper.java:180-195 | Without a client: false, no change. Otherwise the state is that of `getSession(null)`. The answer is true only if a session was obtained and the browser accepted the hint, and then it equals the browser's answer. With a client, the effects are exactly those of `getSession(null)`, followed by one prefetch of the URI when a session was obtained. |
| `CustomTabActivityHelper.OnServiceConnected` | app/src/main/java/org/chromium/customtabsdemos/CustomTabActivityHelper.java:197-207 | Stores the client and changes nothing else, so session and connection are kept. Emits exactly one warmup with flags 0, first. Emits one connected notification, to the registered callback, if and only if one is registered. Nothing else is emitted. |
| `CustomTabActivityHelper.OnServiceDisconnected` | app/src/main/java/org/chromium/customtabsdemos/CustomTabActivityHelper.java:209-219 | Clears client and session. Keeps the connection and the callback. Emits one disconnected notification, to the registered callback, if and only if one is registered, and nothing else. |
| `CustomTabActivityHelper.SetConnectionCallback` | app/src/main/java/org/chromium/customtabsdemos/CustomTabActivityHelper.java:150-152 | Replaces the registered callback (null silences it), changes nothing else and emits nothing. |
| `CustomTabActivityHelper.OpenCustomTab` | app/src/main/java/org/chromium/customtabsdemos/CustomTabActivityHelper.java:103-117 | Returns true exactly when a package resolves. If none resolves: no change and no effect. Otherwise exactly one launch of the URI on the host, targeted at that package. With a caller intent, the state is unchanged, the launch is the only effect and that intent is launched. Without one, state and preceding effects are exactly those of `getSession(null)`, and a plain intent over the session it returned is launched. Only the session field can change. |
| `CustomTabActivityHelper.PartialExtras` | app/src/main/java/org/chromium/customtabsdemos/CustomTabActivityHelper.java:78-92 | Height-px and corner-radius-px extras are always present with the given values. The resize-behaviour extra is present iff the behaviour is not the default. The background-interaction extra is present iff interaction is disabled, with value 2. No other key. |
| `CustomTabActivityHelper.PartialLaunch` | app/src/main/java/org/chromium/customtabsdemos/CustomTabActivityHelper.java:67-94 | The state is that of `getSession(null)`, and so are all effects but the last. Exactly one launch, last. Its intent carries the helper's session, no target package, the builder's height, resize behaviour and corner radius in dp, and exactly the extras above. |
| `CustomTabActivityHelper.OpenPartialCustomTab` | app/src/main/java/org/chromium/customtabsdemos/CustomTabActivityHelper.java:67-94 | As written: both pixel extras are present. Resize iff not default. The misspelled "androix" key is present iff interaction is disabled. The key the browser reads is never present. |
| `CustomTabActivityHelper.OpenPartialCustomTabCorrected` | app/src/main/java/org/chromium/customtabsdemos/CustomTabActivityHelper.java:88-92 | With the corrected key: the browser's background-interaction extra is present iff interaction is disabled, with value 2. |
| `CustomTabActivityHelper.BindGuarded` | app/src/main/java/org/chromium/customtabsdemos/CustomTabActivityHelper.java:159-174 | Corrected bind: refuses also while a connection is held, so it never replaces a held connection. Otherwise it behaves as `Bind`: it installs a connection never created before and emits one bind request for the resolved package, leaving session, client and callback untouched. |
| `CustomTabActivityHelper.SecondBindOverwritesConnection` | app/src/main/java/org/chromium/customtabsdemos/CustomTabActivityHelper.java:160-173 | The guard only looks at the client: two binds before any connect both succeed, and the second replaces the connection with a different one. |
| `CustomTabActivityHelper.SessionSurvivesReconnect` | app/src/main/java/org/chromium/customtabsdemos/CustomTabActivityHelper.java:197-201 | A connect notification while a session is cached keeps that session, and `getSession` returns it under the new client. |
| `HelperTrace.Step` | app/src/main/java/org/chromium/customtabsdemos/CustomTabActivityHelper.java:123-219 | Every event preserves the invariant (session ⇒ client; held connection was created by the helper). Only `setConnectionCallback` changes the callback. Every notification goes to the registered callback. Only bind and unbind events emit bind/unbind requests. |
| `HelperTrace.Run` | app/src/main/java/org/chromium/customtabsdemos/CustomTabActivityHelper.java:103-219 | One reply per event. From a valid helper, every helper reachable by any sequence of calls and notifications is valid, so a session is never held without a client. |
| `HelperTrace.ReachableValid` | app/src/main/java/org/chromium/customtabsdemos/CustomTabActivityHelper.java:39-42 | Every helper reachable from a fresh one (all fields null) satisfies the invariant. |
| `HelperTrace.UnregisteredNeverNotified` | app/src/main/java/org/chromium/customtabsdemos/CustomTabActivityHelper.java:150-219 | A callback that is not registered, and that no event registers, receives no notification over any sequence. This covers the previous owner after `setConnectionCallback(null)`. |
| `HelperTrace.SilencedEmitsNoNotification` | app/src/main/java/org/chromium/customtabsdemos/CustomTabActivityHelper.java:150-219 | With no callback registered, and none registered along the way, no notification at all is emitted. |
| `HelperTrace.ClientHeldUntilReleased` | app/src/main/java/org/chromium/customtabsdemos/CustomTabActivityHelper.java:197-213 | A held client stays held through any sequence without an unbind or a disconnect. |
| `HelperTrace.NotReadyBeforeConnect` | app/src/main/java/org/chromium/customtabsdemos/CustomTabActivityHelper.java:136-195 | Until a connect notification: no client and no session, every `getSession` answers null and every `mayLaunchUrl` answers false. |
| `HelperTrace.BindWithoutBrowserFails` | app/src/main/java/org/chromium/customtabsdemos/CustomTabActivityHelper.java:165-170 | With no compatible browser, bind on a fresh helper answers false and leaves it untouched, with no effect. |
| `HelperTrace.NoSessionAfterDisconnect` | app/src/main/java/org/chromium/customtabsdemos/CustomTabActivityHelper.java:136-145 | bind, connect, disconnect, then `getSession` answers null. |
| `HelperTrace.LaunchAfterConnect` | app/src/main/java/org/chromium/customtabsdemos/CustomTabActivityHelper.java:103-117 | bind, connect, then `openCustomTab` with no intent answers true and exactly one launch is dispatched. |
| `HelperTrace.SessionReusedWhileBound` | app/src/main/java/org/chromium/customtabsdemos/CustomTabActivityHelper.java:136-145 | bind, connect, then two `getSession` calls: once the browser grants a session, both return it. |
| `Bindings.CorrectedBindingsBalanced` | app/src/main/java/org/chromium/customtabsdemos/CustomTabActivityHelper.java:159-174 | With the corrected guard, over any sequence, the open platform bindings are exactly the connection the helper holds. |
| `Bindings.CorrectedAtMostOneBinding` | app/src/main/java/org/chromium/customtabsdemos/CustomTabActivityHelper.java:159-174 | From a fresh corrected helper, at most one binding is ever open, and it is the held one. |
| `Bindings.NeverReleased` | app/src/main/java/org/chromium/customtabsdemos/CustomTabActivityHelper.java:123-129 | Unbind only ever releases the connection currently held, so a connection the helper created but no longer holds is never unbound by any later sequence of events, in either build. |
| `Bindings.AsWrittenLeaksOnDoubleBind` | app/src/main/java/org/chromium/customtabsdemos/CustomTabActivityHelper.java:160-173 | As written, bind, bind, unbind all succeed, yet the first connection's binding stays open while the helper holds no connection, and no sequence of later events ever unbinds it. |
| `Bindings.AsWrittenLeaksOnRebindAfterDisconnect` | app/src/main/java/org/chromium/customtabsdemos/CustomTabActivityHelper.java:209-213 | As written, bind, connect, disconnect, bind, unbind: the rebind succeeds because disconnect clears only the client, and the first binding stays open: no sequence of later events ever unbinds it. |

## Left out

- `openSimpleCustomTab`: a pass-through launch that neither reads nor changes the helper's fields.
- Logging (`log`, `logd`, `loge` and the `DEBUG` switch): no observable behaviour beyond the log.
- The vendor library is not part of this model: `CustomTabsClient`, `CustomTabsSession`, `CustomTabsIntent` and its builder. The builder's settings are recorded as fields of `Intent` and are not expanded into the extras the library adds itself. `ActivityHeightDefault` (0) and `ResizeBehaviorKey` are the published values of that library's constants.
- `CustomTabsHelper.getPackageNameToUse` is not part of this model. Its answer for a host is the field `Host.preferredPackage`.
- The result of `warmup`, and remote failures (`RemoteException`, `UnsupportedOperationException`): the helper ignores the first, and the second only occurs in the Activities.
- The oracles do not vary over time: `Environment.newSession` and `Environment.mayLaunchUrl` are fixed functions of their arguments. A `getSession` retried after a null `newSession` with the same client and callback gets null again, and sessions created after a reconnect that delivers the same `Client` value share identity; in the source each call is a fresh remote call. No property proved here depends on this.
- Which connection delivers a notification. Connect and disconnect notifications may arrive in any order, including while no connection is held. The model does not tie a notification to the `ServiceConnection` that delivered it.
- Java `int` width: the pixel, dp and behaviour values are passed through without arithmetic.
- The Activities, the notification construction, the engagement and navigation callbacks, and the dp-to-pixel conversion are UI or platform code outside the helper.
- `OpenCustomTab`: the caller's intent is launched as a retargeted copy. The source calls `setPackage` on the caller's own object (CustomTabActivityHelper.java:114), so the caller sees the package afterwards; the model has no shared mutable intents and does not show that aliasing.
- The two-argument `openCustomTab` used by the Activities is not defined in the helper's source. Only the three-argument form, with an optional intent, is modelled.

## Findings

| source | as written | input that shows it | evidently intended | confidence | as-written member | corrected member |
|---|---|---|---|---|---|---|
| app/src/main/java/org/chromium/customtabsdemos/CustomTabActivityHelper.java:160 | The double-bind guard tests only the client. A bind succeeds while a connection is still held and overwrites it without unbinding it. | bind, bind, unbind; or bind, connect, disconnect, bind, unbind. Either way the first connection stays bound and can never be released. | Also refuse while a connection is held. | medium; not executed | `CustomTabActivityHelper.Bind`, shown by `Bindings.AsWrittenLeaksOnDoubleBind` and `Bindings.NeverReleased` | `CustomTabActivityHelper.BindGuarded`, proved by `Bindings.CorrectedBindingsBalanced` |
| app/src/main/java/org/chromium/customtabsdemos/CustomTabActivityHelper.java:90 | The background-interaction extra is put under "androix.browser.customtabs.extra.ENABLE_BACKGROUND_INTERACTION". | Any `openPartialCustomTab` call with background interaction disabled. The intent never carries the "androidx." key, so the switch has no effect. | The key "androidx.browser.customtabs.extra.ENABLE_BACKGROUND_INTERACTION". | medium; not executed | `CustomTabActivityHelper.OpenPartialCustomTab` | `CustomTabActivityHelper.OpenPartialCustomTabCorrected` |
