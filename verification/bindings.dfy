/**
  Accounting of service bindings. Every `BindService` effect opens a
  binding on the platform and only an `UnbindService` for the same
  connection closes it; the helper can only ever release the connection it
  still holds. A binding that is open while the helper no longer holds its
  connection can never be released.
*/
module Bindings {
  import opened Wrappers
  import opened Handles
  import opened CustomTabActivityHelper
  import opened HelperTrace

  /** The open bindings after one effect. */
  function Apply(live: multiset<Connection>, e: Effect): multiset<Connection> {
    match e
    case BindService(_, _, c) => live + multiset{c}
    case UnbindService(_, c) => live - multiset{c}
    case _ => live
  }

  /** The open bindings after `effects`, starting from `live`. */
  function Live(live: multiset<Connection>, effects: seq<Effect>): multiset<Connection>
    decreases |effects|
  {
    if effects == [] then live else Live(Apply(live, effects[0]), effects[1..])
  }

  /** The bindings the helper can still release: its held connection. */
  function Held(h: Helper): (m: multiset<Connection>)
    ensures |m| <= 1
    ensures forall c :: c in m <==> h.connection == Some(c)
  {
    match h.connection
    case None => multiset{}
    case Some(c) => multiset{c}
  }

  /** Effects may be accounted piecewise. */
  lemma {:induction false} LiveAppend(live: multiset<Connection>, a: seq<Effect>, b: seq<Effect>)
    ensures Live(live, a + b) == Live(Live(live, a), b)
    decreases |a|
  {
    if a == [] {
      assert a + b == b;
    } else {
      assert (a + b)[0] == a[0];
      assert (a + b)[1..] == a[1..] + b;
      LiveAppend(Apply(live, a[0]), a[1..], b);
    }
  }

  /** One effect, accounted. */
  lemma LiveSingle(live: multiset<Connection>, e: Effect)
    ensures Live(live, [e]) == Apply(live, e)
  {
    assert [e][1..] == [];
  }

  /** Effects that neither bind nor unbind leave the open bindings alone. */
  lemma {:induction false} LiveUnchanged(live: multiset<Connection>, effects: seq<Effect>)
    requires forall e :: e in effects ==> !e.BindService? && !e.UnbindService?
    ensures Live(live, effects) == live
    decreases |effects|
  {
    if effects != [] {
      assert effects[0] in effects;
      assert forall e :: e in effects[1..] ==> e in effects;
      LiveUnchanged(live, effects[1..]);
    }
  }

  /** No effect among `effects` releases the binding of `c`. */
  predicate NeverUnbinds(effects: seq<Effect>, c: Connection) {
    forall e :: e in effects ==> !(e.UnbindService? && e.connection == c)
  }

  /**
    One event never releases a connection the helper created but no longer
    holds, and afterwards the helper still does not hold it.
  */
  lemma StepNeverReleases(h: Helper, ev: Event, env: Environment, build: Build, c: Connection)
    requires h.connection != Some(c) && Allocated(h, c)
    ensures var o := Step(h, ev, env, build);
      && NeverUnbinds(o.effects, c)
      && o.state.connection != Some(c) && Allocated(o.state, c)
  {
  }

  /**
    Whatever events follow, a connection the helper created but no longer
    holds is never unbound: its binding, if open, stays open for good.
  */
  lemma {:induction false} NeverReleased(h: Helper, evs: seq<Event>, env: Environment, build: Build, c: Connection)
    requires h.connection != Some(c) && Allocated(h, c)
    ensures NeverUnbinds(Run(h, evs, env, build).effects, c)
    decreases |evs|
  {
    if evs != [] {
      var first := Step(h, evs[0], env, build);
      var rest := Run(first.state, evs[1..], env, build);
      StepNeverReleases(h, evs[0], env, build, c);
      NeverReleased(first.state, evs[1..], env, build, c);
      assert Run(h, evs, env, build).effects == first.effects + rest.effects;
    }
  }

  /**
    One event of the corrected helper keeps the open bindings equal to the
    held connection.
  */
  lemma StepBalanced(h: Helper, ev: Event, env: Environment)
    ensures var o := Step(h, ev, env, Corrected);
      Live(Held(h), o.effects) == Held(o.state)
  {
    var o := Step(h, ev, env, Corrected);
    match ev
    case BindCall(host) =>
      var b := BindGuarded(h, host);
      assert o.state == b.state && o.effects == b.effects;
      if b.result {
        LiveSingle(Held(h), b.effects[0]);
      }
    case UnbindCall(host) =>
      var u := Unbind(h, host);
      assert o.state == u.state && o.effects == u.effects;
      if h.connection.Some? {
        LiveSingle(Held(h), u.effects[0]);
      }
    case _ =>
      LiveUnchanged(Held(h), o.effects);
      assert o.state.connection == h.connection;
  }

  /**
    The corrected helper never loses a binding: over any sequence of events
    the open bindings are exactly the connection it holds, so at most one
    binding is open and unbinding releases it.
  */
  lemma {:induction false} CorrectedBindingsBalanced(h: Helper, evs: seq<Event>, env: Environment)
    ensures var o := Run(h, evs, env, Corrected);
      Live(Held(h), o.effects) == Held(o.state)
    decreases |evs|
  {
    if evs != [] {
      var first := Step(h, evs[0], env, Corrected);
      var rest := Run(first.state, evs[1..], env, Corrected);
      StepBalanced(h, evs[0], env);
      CorrectedBindingsBalanced(first.state, evs[1..], env);
      LiveAppend(Held(h), first.effects, rest.effects);
    }
  }

  /** From a fresh helper, the corrected helper has at most one open binding, the held one. */
  lemma CorrectedAtMostOneBinding(evs: seq<Event>, env: Environment)
    ensures var o := Run(Initial, evs, env, Corrected);
      Live(multiset{}, o.effects) == Held(o.state) && |Live(multiset{}, o.effects)| <= 1
  {
    CorrectedBindingsBalanced(Initial, evs, env);
  }

  /**
    As written, bind, bind, unbind leaves the first binding open while the
    helper holds no connection: no later event ever releases it.
  */
  lemma AsWrittenLeaksOnDoubleBind(env: Environment)
    ensures var o := Run(Initial, [BindCall(Browser), BindCall(Browser), UnbindCall(Browser)], env, AsWritten);
      && o.result == [Flag(true), Flag(true), Done]
      && o.state.connection.None?
      && Live(multiset{}, o.effects) == multiset{Connection(0)}
      && forall more :: NeverUnbinds(Run(o.state, more, env, AsWritten).effects, Connection(0))
  {
    BindStep(Initial, Browser, env, AsWritten);
    var o1 := Step(Initial, BindCall(Browser), env, AsWritten);
    BindStep(o1.state, Browser, env, AsWritten);
    var o2 := Step(o1.state, BindCall(Browser), env, AsWritten);
    UnbindStep(o2.state, Browser, env, AsWritten);
    var o3 := Step(o2.state, UnbindCall(Browser), env, AsWritten);
    RunCons(o2.state, UnbindCall(Browser), [], env, AsWritten);
    RunCons(o1.state, BindCall(Browser), [UnbindCall(Browser)], env, AsWritten);
    RunCons(Initial, BindCall(Browser), [BindCall(Browser), UnbindCall(Browser)], env, AsWritten);
    LiveAppend(multiset{}, o1.effects, o2.effects + (o3.effects + []));
    LiveAppend(Live(multiset{}, o1.effects), o2.effects, o3.effects + []);
    LiveAppend(Live(Live(multiset{}, o1.effects), o2.effects), o3.effects, []);
    LiveSingle(multiset{}, o1.effects[0]);
    LiveSingle(multiset{Connection(0)}, o2.effects[0]);
    LiveSingle(multiset{Connection(0), Connection(1)}, o3.effects[0]);
    assert multiset{Connection(0), Connection(1)} - multiset{Connection(1)} == multiset{Connection(0)};
    var o := Run(Initial, [BindCall(Browser), BindCall(Browser), UnbindCall(Browser)], env, AsWritten);
    forall more
      ensures NeverUnbinds(Run(o.state, more, env, AsWritten).effects, Connection(0))
    {
      NeverReleased(o.state, more, env, AsWritten, Connection(0));
    }
  }

  /** The run of bind, connect, disconnect, bind, unbind on the helper as written. */
  lemma RebindAfterDisconnectRun(c: Client, env: Environment)
    ensures Run(Initial, [BindCall(Browser), ServiceConnected(c), ServiceDisconnected, BindCall(Browser), UnbindCall(Browser)], env, AsWritten)
      == Outcome(Initial.(created := 2), [Flag(true), Done, Done, Flag(true), Done],
                 [BindService(Browser, "com.android.chrome", Connection(0)), Warmup(c, WarmupFlags),
                  BindService(Browser, "com.android.chrome", Connection(1)), UnbindService(Browser, Connection(1))])
  {
    BindStep(Initial, Browser, env, AsWritten);
    var s1 := Step(Initial, BindCall(Browser), env, AsWritten).state;
    ConnectStep(s1, c, env, AsWritten);
    var s2 := Step(s1, ServiceConnected(c), env, AsWritten).state;
    DisconnectStep(s2, env, AsWritten);
    var s3 := Step(s2, ServiceDisconnected, env, AsWritten).state;
    BindStep(s3, Browser, env, AsWritten);
    var s4 := Step(s3, BindCall(Browser), env, AsWritten).state;
    UnbindStep(s4, Browser, env, AsWritten);
    RunCons(s4, UnbindCall(Browser), [], env, AsWritten);
    RunCons(s3, BindCall(Browser), [UnbindCall(Browser)], env, AsWritten);
    RunCons(s2, ServiceDisconnected, [BindCall(Browser), UnbindCall(Browser)], env, AsWritten);
    RunCons(s1, ServiceConnected(c), [ServiceDisconnected, BindCall(Browser), UnbindCall(Browser)], env, AsWritten);
    RunCons(Initial, BindCall(Browser), [ServiceConnected(c), ServiceDisconnected, BindCall(Browser), UnbindCall(Browser)], env, AsWritten);
    assert [Flag(true), Done, Done, Flag(true), Done] == [Flag(true)] + ([Done] + ([Done] + ([Flag(true)] + ([Done] + []))));
    var b0 := BindService(Browser, "com.android.chrome", Connection(0));
    var w := Warmup(c, WarmupFlags);
    var b1 := BindService(Browser, "com.android.chrome", Connection(1));
    var u1 := UnbindService(Browser, Connection(1));
    assert [b0, w, b1, u1] == [b0] + ([w] + ([] + ([b1] + ([u1] + []))));
  }

  /**
    As written, a bind after the service disconnected replaces the still
    open first connection, which no later event ever releases.
  */
  lemma AsWrittenLeaksOnRebindAfterDisconnect(c: Client, env: Environment)
    ensures var o := Run(Initial, [BindCall(Browser), ServiceConnected(c), ServiceDisconnected, BindCall(Browser), UnbindCall(Browser)], env, AsWritten);
      && o.result[3] == Flag(true)
      && o.state.connection.None?
      && Live(multiset{}, o.effects) == multiset{Connection(0)}
      && forall more :: NeverUnbinds(Run(o.state, more, env, AsWritten).effects, Connection(0))
  {
    RebindAfterDisconnectRun(c, env);
    var b0 := BindService(Browser, "com.android.chrome", Connection(0));
    var w := Warmup(c, WarmupFlags);
    var b1 := BindService(Browser, "com.android.chrome", Connection(1));
    var u1 := UnbindService(Browser, Connection(1));
    var m0: multiset<Connection> := multiset{};
    var m1 := multiset{Connection(0)};
    var m2 := multiset{Connection(0), Connection(1)};
    assert [b0, w, b1, u1] == [b0] + ([w] + ([b1] + [u1]));
    LiveAppend(m0, [b0], [w] + ([b1] + [u1]));
    LiveSingle(m0, b0);
    LiveAppend(m1, [w], [b1] + [u1]);
    LiveSingle(m1, w);
    LiveAppend(m1, [b1], [u1]);
    LiveSingle(m1, b1);
    LiveSingle(m2, u1);
    assert Apply(m0, b0) == m1;
    assert Apply(m1, w) == m1;
    assert Apply(m1, b1) == m2;
    assert Apply(m2, u1) == m1;
    var s := Initial.(created := 2);
    forall more
      ensures NeverUnbinds(Run(s, more, env, AsWritten).effects, Connection(0))
    {
      NeverReleased(s, more, env, AsWritten, Connection(0));
    }
  }
}
