/** Routing of one decoded message over the ordered table of webhooks (fan-out). */
module Router {
  import opened Types
  import opened Delivery

  /** The webhooks whose application id equals `appId`, in table order. */
  function Matching(hooks: seq<Webhook>, appId: int): (r: seq<Webhook>)
    ensures |r| <= |hooks|
    ensures forall w :: w in r <==> w in hooks && w.appId == appId
  {
    if |hooks| == 0 then []
    else (if hooks[0].appId == appId then [hooks[0]] else []) + Matching(hooks[1..], appId)
  }

  /** The positions of the table whose application id equals `appId`. */
  ghost function MatchIndices(hooks: seq<Webhook>, appId: int): set<int>
  {
    set j | 0 <= j < |hooks| && hooks[j].appId == appId
  }

  /** Filtering distributes over concatenation of tables: matches keep table order. */
  lemma {:induction false} MatchingAppend(h1: seq<Webhook>, h2: seq<Webhook>, appId: int)
    ensures Matching(h1 + h2, appId) == Matching(h1, appId) + Matching(h2, appId)
    decreases |h1|
  {
    if |h1| == 0 {
      assert h1 + h2 == h2;
    } else {
      assert (h1 + h2)[0] == h1[0];
      assert (h1 + h2)[1..] == h1[1..] + h2;
      MatchingAppend(h1[1..], h2, appId);
    }
  }

  /** Appending one webhook adds its position to the matching positions exactly when it matches. */
  lemma MatchIndicesSnoc(hooks: seq<Webhook>, appId: int)
    requires |hooks| > 0
    ensures var n := |hooks| - 1;
      MatchIndices(hooks, appId) ==
        MatchIndices(hooks[..n], appId) + (if hooks[n].appId == appId then {n} else {})
    ensures |hooks| - 1 !in MatchIndices(hooks[..|hooks| - 1], appId)
  {
  }

  /** As many webhooks match as there are matching positions in the table. */
  lemma {:induction false} MatchingCount(hooks: seq<Webhook>, appId: int)
    ensures |Matching(hooks, appId)| == |MatchIndices(hooks, appId)|
    decreases |hooks|
  {
    if |hooks| == 0 {
      assert MatchIndices(hooks, appId) == {};
    } else {
      var n := |hooks| - 1;
      var init := hooks[..n];
      assert hooks == init + [hooks[n]];
      MatchingAppend(init, [hooks[n]], appId);
      MatchingCount(init, appId);
      MatchIndicesSnoc(hooks, appId);
      assert [hooks[n]][1..] == [];
    }
  }

  /** The scan of the routing table: one send attempt per matching webhook, in table order.
      A failed attempt is only recorded; the scan carries on with the next webhook. */
  function ProcessWebhooks(post: Requester, hooks: seq<Webhook>, m: PluginMessage): (attempts: seq<Attempt>)
    ensures |attempts| == |Matching(hooks, m.appId)|
    ensures forall i :: 0 <= i < |attempts| ==> attempts[i] == SendToWebhook(post, Matching(hooks, m.appId)[i], m)
  {
    if |hooks| == 0 then []
    else
      var here := if hooks[0].appId == m.appId then [SendToWebhook(post, hooks[0], m)] else [];
      here + ProcessWebhooks(post, hooks[1..], m)
  }

  /** The number of send attempts equals the number of configured webhooks with the
      message's application id. */
  lemma AttemptCount(post: Requester, hooks: seq<Webhook>, m: PluginMessage)
    ensures |ProcessWebhooks(post, hooks, m)| == |MatchIndices(hooks, m.appId)|
  {
    MatchingCount(hooks, m.appId);
  }

  /** No matching webhook: no attempt, and nothing to report. */
  lemma NoMatchNoAttempt(post: Requester, hooks: seq<Webhook>, m: PluginMessage)
    requires forall j :: 0 <= j < |hooks| ==> hooks[j].appId != m.appId
    ensures ProcessWebhooks(post, hooks, m) == []
  {
  }

  /** Fan-out isolation: which webhooks are attempted, and with which body, does not depend
      on what any requester returns; every matching webhook is attempted whatever the
      earlier ones answered. */
  lemma FanOutIsolation(post1: Requester, post2: Requester, hooks: seq<Webhook>, m: PluginMessage)
    ensures |ProcessWebhooks(post1, hooks, m)| == |ProcessWebhooks(post2, hooks, m)|
    ensures forall i :: 0 <= i < |ProcessWebhooks(post1, hooks, m)| ==>
      ProcessWebhooks(post1, hooks, m)[i].url == ProcessWebhooks(post2, hooks, m)[i].url &&
      ProcessWebhooks(post1, hooks, m)[i].body == ProcessWebhooks(post2, hooks, m)[i].body
  {
  }

  /** Routing over a concatenated table is routing over each part, in order. */
  lemma {:induction false} ProcessWebhooksAppend(post: Requester, h1: seq<Webhook>, h2: seq<Webhook>, m: PluginMessage)
    ensures ProcessWebhooks(post, h1 + h2, m) == ProcessWebhooks(post, h1, m) + ProcessWebhooks(post, h2, m)
    decreases |h1|
  {
    if |h1| == 0 {
      assert h1 + h2 == h2;
    } else {
      assert (h1 + h2)[0] == h1[0];
      assert (h1 + h2)[1..] == h1[1..] + h2;
      ProcessWebhooksAppend(post, h1[1..], h2, m);
    }
  }
}
