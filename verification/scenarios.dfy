/** Worked scenarios of the relay, stated over every requester and decoder that behave as
    the scenario describes. */
module Scenarios {
  import opened Wrappers
  import opened Types
  import opened Delivery
  import Router
  import opened Dispatch
  import Connection
  import Plugin

  const HookA := Webhook(5, "a", "https://hook/a")
  const HookB := Webhook(5, "b", "https://hook/b")
  const HookC := Webhook(9, "c", "https://hook/c")

  /** A message of application 5 reaches exactly the two rules for 5, in table order, each
      with body content "hi"; the rule for application 9 is not attempted. */
  lemma TwoMatchingHooks(post: Requester)
    ensures var attempts := Router.ProcessWebhooks(post, [HookA, HookB, HookC], PluginMessage(5, "T", "hi", 0));
      |attempts| == 2 &&
      attempts[0].url == "https://hook/a" && attempts[1].url == "https://hook/b" &&
      attempts[0].body == Message("hi") && attempts[1].body == Message("hi")
  {
    var hooks := [HookA, HookB, HookC];
    assert hooks[1..] == [HookB, HookC];
    assert hooks[1..][1..] == [HookC];
    assert hooks[1..][1..][1..] == [];
  }

  /** A message of an application without a rule produces no attempt. */
  lemma UnknownApplication(post: Requester)
    ensures Router.ProcessWebhooks(post, [HookA, HookB, HookC], PluginMessage(42, "T", "hi", 0)) == []
  {
    Router.NoMatchNoAttempt(post, [HookA, HookB, HookC], PluginMessage(42, "T", "hi", 0));
  }

  /** The configuration of the scenarios: two rules for application 5, one for 9. */
  const ScenarioConfig := Config("https://x", "tok", [HookA, HookB, HookC])

  /** In a connected session, a webhook answering 500 to the first message is recorded as a
      failed delivery; the other rule for the same message is still attempted, the next
      frame is still routed and delivered, and the loop stops on Closed. */
  lemma RejectedDeliveryIsAbsorbed(dial: Connection.Dialer, decode: Decoder, post: Requester, f1: seq<byte>, f2: seq<byte>)
    requires dial(Plugin.StreamUrl(ScenarioConfig), 0).Dialed?
    requires post("https://hook/a", Message("hi")) == Response(500)
    requires decode(f1) == Unmarshalled(Fields(Some(5), Some("T"), Some("hi"), None), true)
    requires decode(f2).ok
    ensures var s := Plugin.HandleMessages(ScenarioConfig, dial, decode, post, [Frame(f1), Frame(f2), Closed]);
      && s.run.Some? && |s.run.value.routed| == 2 && s.run.value.stop == ChannelClosed
      && |s.deliveries| == 2 && |s.deliveries[0]| == 2
      && s.deliveries[0][0].url == "https://hook/a"
      && s.deliveries[0][0].result == Fail(UnexpectedStatus(500))
      && s.deliveries[0][1].url == "https://hook/b"
      && s.deliveries[1] == Router.ProcessWebhooks(post, ScenarioConfig.webhooks, s.run.value.routed[1])
    ensures decode(f2).written.appId.None? || decode(f2).written.appId == Some(5) ==>
      var s := Plugin.HandleMessages(ScenarioConfig, dial, decode, post, [Frame(f1), Frame(f2), Closed]);
      && |s.deliveries[1]| == 2
      && s.deliveries[1][0].url == "https://hook/a"
      && s.deliveries[1][1].url == "https://hook/b"
  {
    var events := [Frame(f1), Frame(f2), Closed];
    FrameStep(decode, ZeroMessage, events);
    var m1 := Merge(ZeroMessage, decode(f1).written);
    assert m1 == PluginMessage(5, "T", "hi", 0);
    assert events[1..] == [Frame(f2), Closed];
    FrameStep(decode, m1, events[1..]);
    assert events[1..][1..] == [Closed];
    TwoMatchingHooks(post);
    var m2 := Merge(m1, decode(f2).written);
    if decode(f2).written.appId.None? || decode(f2).written.appId == Some(5) {
      ApplicationFiveFansOut(post, m2);
    }
  }

  /** Any message of application 5 goes to hook/a and then hook/b, and to nothing else. */
  lemma ApplicationFiveFansOut(post: Requester, m: PluginMessage)
    requires m.appId == 5
    ensures var attempts := Router.ProcessWebhooks(post, [HookA, HookB, HookC], m);
      |attempts| == 2 && attempts[0].url == "https://hook/a" && attempts[1].url == "https://hook/b"
  {
    var hooks := [HookA, HookB, HookC];
    assert hooks[1..] == [HookB, HookC];
    assert hooks[1..][1..] == [HookC];
    assert hooks[1..][1..][1..] == [];
    assert Router.Matching(hooks[1..][1..][1..], 5) == [];
    assert Router.Matching(hooks[1..][1..], 5) == [];
    assert Router.Matching(hooks[1..], 5) == [HookB];
    assert Router.Matching(hooks, 5) == [HookA, HookB];
  }

  /** A malformed frame is skipped and the next frame is still routed. */
  lemma MalformedFrameThenGoodFrame(decode: Decoder, bad: seq<byte>, good: seq<byte>)
    requires decode(bad) == Unmarshalled(Fields(None, None, None, None), false)
    requires decode(good).ok
    ensures var r := ProcessMessages(decode, ZeroMessage, [Frame(bad), Frame(good), Closed]);
      r.routed == [Merge(ZeroMessage, decode(good).written)] && r.stop == ChannelClosed
  {
    var events := [Frame(bad), Frame(good), Closed];
    FrameStep(decode, ZeroMessage, events);
    assert Merge(ZeroMessage, decode(bad).written) == ZeroMessage;
    assert events[1..] == [Frame(good), Closed];
    FrameStep(decode, ZeroMessage, events[1..]);
    assert events[1..][1..] == [Closed];
  }
}
