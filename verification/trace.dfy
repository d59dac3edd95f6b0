/**
  Arbitrary sequences of calls and service notifications on one helper.
  All calls run on the UI thread, in the order given; the service's
  connect and disconnect notifications are interleaved freely.
*/
module HelperTrace {
  import opened Wrappers
  import opened Handles
  import opened CustomTabActivityHelper

  /** One public call or one notification from the service connection. */
  datatype Event =
    | BindCall(host: Host)
    | UnbindCall(host: Host)
    | GetSessionCall(tabsCallback: Option<TabsCallback>)
    | MayLaunchUrlCall(uri: Uri, extras: Option<Bundle>, others: Option<seq<Bundle>>)
    | ServiceConnected(client: Client)
    | ServiceDisconnected
    | SetConnectionCallbackCall(callback: Option<ConnectionCallback>)
    | OpenCustomTabCall(host: Host, intent: Option<Intent>, uri: Uri)
    | OpenPartialCustomTabCall(host: Host, request: PartialRequest, uri: Uri)

  /** The answer of one event: void, a boolean or a nullable session. */
  datatype Reply = Done | Flag(value: bool) | MaybeSession(session: Option<Session>)

  /** Which definition of bind and of the partial launch the helper uses. */
  datatype Build = AsWritten | Corrected

  /** One event applied to the helper. */
  function Step(h: Helper, ev: Event, env: Environment, build: Build): (o: Outcome<Reply>)
    ensures Valid(h) ==> Valid(o.state)
    ensures o.state.callback == h.callback || ev.SetConnectionCallbackCall?
    ensures forall e :: e in o.effects && IsNotification(e) ==> h.callback == Some(e.target)
    ensures !ev.BindCall? && !ev.UnbindCall? ==>
      forall e :: e in o.effects ==> !e.BindService? && !e.UnbindService?
  {
    match ev
    case BindCall(host) =>
      var r := if build == AsWritten then Bind(h, host) else BindGuarded(h, host);
      Outcome(r.state, Flag(r.result), r.effects)
    case UnbindCall(host) =>
      var r := Unbind(h, host);
      Outcome(r.state, Done, r.effects)
    case GetSessionCall(cb) =>
      var r := GetSession(h, cb, env);
      Outcome(r.state, MaybeSession(r.result), r.effects)
    case MayLaunchUrlCall(uri, extras, others) =>
      var r := MayLaunchUrl(h, uri, extras, others, env);
      Outcome(r.state, Flag(r.result), r.effects)
    case ServiceConnected(client) =>
      var r := OnServiceConnected(h, client);
      Outcome(r.state, Done, r.effects)
    case ServiceDisconnected =>
      var r := OnServiceDisconnected(h);
      Outcome(r.state, Done, r.effects)
    case SetConnectionCallbackCall(cb) =>
      var r := SetConnectionCallback(h, cb);
      Outcome(r.state, Done, r.effects)
    case OpenCustomTabCall(host, intent, uri) =>
      var r := OpenCustomTab(h, host, intent, uri, env);
      Outcome(r.state, Flag(r.result), r.effects)
    case OpenPartialCustomTabCall(host, req, uri) =>
      var r := if build == AsWritten then OpenPartialCustomTab(h, host, req, uri, env)
               else OpenPartialCustomTabCorrected(h, host, req, uri, env);
      Outcome(r.state, Done, r.effects)
  }

  /**
    A sequence of events applied in order: the final helper, one reply per
    event, and all effects in the order they happened. From a valid helper
    every reachable helper is valid; in particular a session is never held
    without a client.
  */
  function Run(h: Helper, evs: seq<Event>, env: Environment, build: Build): (o: Outcome<seq<Reply>>)
    ensures |o.result| == |evs|
    ensures Valid(h) ==> Valid(o.state)
    decreases |evs|
  {
    if evs == [] then Outcome(h, [], [])
    else
      var first := Step(h, evs[0], env, build);
      var rest := Run(first.state, evs[1..], env, build);
      Outcome(rest.state, [first.result] + rest.result, first.effects + rest.effects)
  }

  /** The helper starts out valid, so every helper reachable from it is valid. */
  lemma ReachableValid(evs: seq<Event>, env: Environment, build: Build)
    ensures Valid(Run(Initial, evs, env, build).state)
  {
  }

  /**
    A callback that is not registered, and that no event registers, is never
    notified. In particular, after `setConnectionCallback(null)` the previous
    owner hears nothing more.
  */
  lemma {:induction false} UnregisteredNeverNotified(h: Helper, evs: seq<Event>, env: Environment, build: Build, target: ConnectionCallback)
    requires h.callback != Some(target)
    requires forall i :: 0 <= i < |evs| ==> evs[i] != SetConnectionCallbackCall(Some(target))
    ensures forall e :: e in Run(h, evs, env, build).effects && IsNotification(e) ==> e.target != target
    decreases |evs|
  {
    if evs != [] {
      var first := Step(h, evs[0], env, build);
      UnregisteredNeverNotified(first.state, evs[1..], env, build, target);
    }
  }

  /**
    With no callback registered and none registered along the way, no
    notification is emitted at all.
  */
  lemma {:induction false} SilencedEmitsNoNotification(h: Helper, evs: seq<Event>, env: Environment, build: Build)
    requires h.callback.None?
    requires forall i :: 0 <= i < |evs| ==> !(evs[i].SetConnectionCallbackCall? && evs[i].callback.Some?)
    ensures forall e :: e in Run(h, evs, env, build).effects ==> !IsNotification(e)
    decreases |evs|
  {
    if evs != [] {
      var first := Step(h, evs[0], env, build);
      SilencedEmitsNoNotification(first.state, evs[1..], env, build);
    }
  }

  /** A held client stays held until an unbind or a disconnect. */
  lemma {:induction false} ClientHeldUntilReleased(h: Helper, evs: seq<Event>, env: Environment, build: Build)
    requires h.client.Some?
    requires forall i :: 0 <= i < |evs| ==> !evs[i].UnbindCall? && !evs[i].ServiceDisconnected?
    ensures Run(h, evs, env, build).state.client.Some?
    decreases |evs|
  {
    if evs != [] {
      ClientHeldUntilReleased(Step(h, evs[0], env, build).state, evs[1..], env, build);
    }
  }

  /**
    Until the service connects, the helper is not ready: no client, no
    session, every `getSession` answers null and every `mayLaunchUrl`
    answers false.
  */
  lemma {:induction false} NotReadyBeforeConnect(h: Helper, evs: seq<Event>, env: Environment, build: Build)
    requires Valid(h) && h.client.None?
    requires forall i :: 0 <= i < |evs| ==> !evs[i].ServiceConnected?
    ensures var o := Run(h, evs, env, build);
      && o.state.client.None? && o.state.session.None?
      && (forall i :: 0 <= i < |evs| && evs[i].GetSessionCall? ==> o.result[i] == MaybeSession(None))
      && (forall i :: 0 <= i < |evs| && evs[i].MayLaunchUrlCall? ==> o.result[i] == Flag(false))
    decreases |evs|
  {
    if evs != [] {
      var first := Step(h, evs[0], env, build);
      var rest := Run(first.state, evs[1..], env, build);
      NotReadyBeforeConnect(first.state, evs[1..], env, build);
      var o := Run(h, evs, env, build);
      assert o.result == [first.result] + rest.result;
      forall i | 1 <= i < |evs|
        ensures o.result[i] == rest.result[i - 1] && evs[i] == evs[1..][i - 1]
      {
      }
    }
  }

  // ---------------------------------------------------------------------------
  // Scenarios

  /** Running `ev` then `evs` is one step followed by the rest. */
  lemma RunCons(h: Helper, ev: Event, evs: seq<Event>, env: Environment, build: Build)
    ensures var first := Step(h, ev, env, build);
      var rest := Run(first.state, evs, env, build);
      Run(h, [ev] + evs, env, build) == Outcome(rest.state, [first.result] + rest.result, first.effects + rest.effects)
  {
    assert ([ev] + evs)[1..] == evs;
  }

  /** A successful bind, as one step. */
  lemma BindStep(h: Helper, host: Host, env: Environment, build: Build)
    requires h.client.None? && host.preferredPackage.Some?
    requires build == AsWritten || h.connection.None?
    ensures Step(h, BindCall(host), env, build)
      == Outcome(h.(connection := Some(Connection(h.created)), created := h.created + 1), Flag(true),
                 [BindService(host, host.preferredPackage.value, Connection(h.created))])
  {
  }

  /** An unbind that releases the held connection, as one step. */
  lemma UnbindStep(h: Helper, host: Host, env: Environment, build: Build)
    requires h.connection.Some?
    ensures Step(h, UnbindCall(host), env, build)
      == Outcome(h.(client := None, session := None, connection := None), Done, [UnbindService(host, h.connection.value)])
  {
  }

  /** A connect notification with no callback registered, as one step. */
  lemma ConnectStep(h: Helper, c: Client, env: Environment, build: Build)
    requires h.callback.None?
    ensures Step(h, ServiceConnected(c), env, build) == Outcome(h.(client := Some(c)), Done, [Warmup(c, WarmupFlags)])
  {
  }

  /** A disconnect notification with no callback registered, as one step. */
  lemma DisconnectStep(h: Helper, env: Environment, build: Build)
    requires h.callback.None?
    ensures Step(h, ServiceDisconnected, env, build) == Outcome(h.(client := None, session := None), Done, [])
  {
  }

  /** A `getSession` call, as one step. */
  lemma GetSessionStep(h: Helper, cb: Option<TabsCallback>, env: Environment, build: Build)
    ensures var r := GetSession(h, cb, env);
      Step(h, GetSessionCall(cb), env, build) == Outcome(r.state, MaybeSession(r.result), r.effects)
  {
  }

  const Browser: Host := Host(1, Some("com.android.chrome"))
  const NoBrowser: Host := Host(2, None)

  /** Binding with no compatible browser installed fails and leaves the helper untouched. */
  lemma BindWithoutBrowserFails(env: Environment, build: Build)
    ensures var o := Run(Initial, [BindCall(NoBrowser)], env, build);
      o.result == [Flag(false)] && o.state == Initial && o.effects == []
  {
    RunCons(Initial, BindCall(NoBrowser), [], env, build);
  }

  /** bind, connect, disconnect, then `getSession` answers null. */
  lemma NoSessionAfterDisconnect(c: Client, cb: Option<TabsCallback>, env: Environment, build: Build)
    ensures var o := Run(Initial, [BindCall(Browser), ServiceConnected(c), ServiceDisconnected, GetSessionCall(cb)], env, build);
      o.result[3] == MaybeSession(None)
  {
    BindStep(Initial, Browser, env, build);
    var s1 := Step(Initial, BindCall(Browser), env, build).state;
    ConnectStep(s1, c, env, build);
    var s2 := Step(s1, ServiceConnected(c), env, build).state;
    DisconnectStep(s2, env, build);
    var s3 := Step(s2, ServiceDisconnected, env, build).state;
    GetSessionStep(s3, cb, env, build);
    RunCons(s3, GetSessionCall(cb), [], env, build);
    RunCons(s2, ServiceDisconnected, [GetSessionCall(cb)], env, build);
    RunCons(s1, ServiceConnected(c), [ServiceDisconnected, GetSessionCall(cb)], env, build);
    RunCons(Initial, BindCall(Browser), [ServiceConnected(c), ServiceDisconnected, GetSessionCall(cb)], env, build);
  }

  /** The run of bind, connect, open a URL from a fresh helper. */
  lemma LaunchAfterConnectRun(c: Client, env: Environment, build: Build)
    ensures var sess := env.newSession(c, None);
      Run(Initial, [BindCall(Browser), ServiceConnected(c), OpenCustomTabCall(Browser, None, "https://example.com")], env, build)
      == Outcome(Helper(sess, Some(c), Some(Connection(0)), None, 1), [Flag(true), Done, Flag(true)],
                 [BindService(Browser, "com.android.chrome", Connection(0)), Warmup(c, WarmupFlags), NewSession(c, None),
                  Launch(Browser, PlainIntent(sess).(package := Browser.preferredPackage), "https://example.com")])
  {
    var open := OpenCustomTabCall(Browser, None, "https://example.com");
    BindStep(Initial, Browser, env, build);
    var s1 := Step(Initial, BindCall(Browser), env, build).state;
    ConnectStep(s1, c, env, build);
    var s2 := Step(s1, ServiceConnected(c), env, build).state;
    var t := OpenCustomTab(s2, Browser, None, "https://example.com", env);
    assert Step(s2, open, env, build) == Outcome(t.state, Flag(t.result), t.effects);
    RunCons(s2, open, [], env, build);
    RunCons(s1, ServiceConnected(c), [open], env, build);
    RunCons(Initial, BindCall(Browser), [ServiceConnected(c), open], env, build);
    assert [Flag(true), Done, Flag(true)] == [Flag(true)] + ([Done] + ([Flag(true)] + []));
  }

  /** bind, connect, then opening a URL succeeds and dispatches exactly one launch. */
  lemma LaunchAfterConnect(c: Client, env: Environment, build: Build)
    ensures var o := Run(Initial, [BindCall(Browser), ServiceConnected(c), OpenCustomTabCall(Browser, None, "https://example.com")], env, build);
      o.result[2] == Flag(true) && Count(o.effects, IsLaunch) == 1
  {
    LaunchAfterConnectRun(c, env, build);
    var o := Run(Initial, [BindCall(Browser), ServiceConnected(c), OpenCustomTabCall(Browser, None, "https://example.com")], env, build);
    CountAppend(o.effects[..3], o.effects[3..], IsLaunch);
    assert o.effects[..3] + o.effects[3..] == o.effects;
    assert Count(o.effects[..3], IsLaunch) == 0;
    assert Count(o.effects[3..], IsLaunch) == 1;
  }

  /**
    Two `getSession` calls while bound return the identical session, once
    the browser has granted one.
  */
  lemma SessionReusedWhileBound(c: Client, cb: Option<TabsCallback>, cb': Option<TabsCallback>, env: Environment, build: Build)
    requires env.newSession(c, cb).Some?
    ensures var o := Run(Initial, [BindCall(Browser), ServiceConnected(c), GetSessionCall(cb), GetSessionCall(cb')], env, build);
      o.result[2] == o.result[3] && o.result[2] == MaybeSession(env.newSession(c, cb))
  {
    BindStep(Initial, Browser, env, build);
    var s1 := Step(Initial, BindCall(Browser), env, build).state;
    ConnectStep(s1, c, env, build);
    var s2 := Step(s1, ServiceConnected(c), env, build).state;
    GetSessionStep(s2, cb, env, build);
    var s3 := Step(s2, GetSessionCall(cb), env, build).state;
    GetSessionStep(s3, cb', env, build);
    RunCons(s3, GetSessionCall(cb'), [], env, build);
    RunCons(s2, GetSessionCall(cb), [GetSessionCall(cb')], env, build);
    RunCons(s1, ServiceConnected(c), [GetSessionCall(cb), GetSessionCall(cb')], env, build);
    RunCons(Initial, BindCall(Browser), [ServiceConnected(c), GetSessionCall(cb), GetSessionCall(cb')], env, build);
  }
}
