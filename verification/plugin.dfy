/** The plugin entry points: the enable-time host check, the stream URL, and one relay
    session (connect, then run the dispatch loop over the events the connection yields). */
module Plugin {
  import opened Wrappers
  import opened Types
  import opened Delivery
  import opened Dispatch
  import Router
  import Connection

  /** The fixed path and query key appended to the host to reach the message stream. */
  const StreamPath := "/stream?token="

  /** The error Enable reports for a missing host. */
  const HostRequired := "gotify host is required"

  /** The stream URL: the host, then the stream path, then the client token. */
  function StreamUrl(cfg: Config): (url: string)
    ensures |url| == |cfg.gotifyHost| + |StreamPath| + |cfg.clientToken|
    ensures url[..|cfg.gotifyHost|] == cfg.gotifyHost
    ensures url[|cfg.gotifyHost|..|cfg.gotifyHost| + |StreamPath|] == StreamPath
    ensures url[|cfg.gotifyHost| + |StreamPath|..] == cfg.clientToken
  {
    cfg.gotifyHost + StreamPath + cfg.clientToken
  }

  /** For a given host, the token is recovered from the stream URL. */
  lemma StreamUrlDeterminesToken(c1: Config, c2: Config)
    requires c1.gotifyHost == c2.gotifyHost
    requires StreamUrl(c1) == StreamUrl(c2)
    ensures c1.clientToken == c2.clientToken
  {
    var n := |c1.gotifyHost| + |StreamPath|;
    assert c1.clientToken == StreamUrl(c1)[n..];
  }

  /** One relay session: the URL dialled, the connection outcome, once connected what the
      dispatch loop did with the events read from the connection, and the delivery attempts
      of each routed message. A panic leaves no run and no delivery. */
  datatype Session = Session(url: string, connection: Connection.ConnectResult, run: Option<Run>,
                             deliveries: seq<seq<Attempt>>)

  /** The message handler started by Enable: build the URL, connect (panicking after three
      failed dials), then run the loop from the zero message over the configured table. */
  function HandleMessages(cfg: Config, dial: Connection.Dialer, decode: Decoder, post: Requester,
                          events: seq<Event>): (s: Session)
    ensures s.url == StreamUrl(cfg)
    ensures s.connection == Connection.CreateWebsocketConnection(dial, s.url)
    ensures s.run.Some? <==> s.connection.Connected?
    ensures s.run.Some? ==> s.run.value == ProcessMessages(decode, ZeroMessage, events)
    ensures s.run.None? ==> s.deliveries == []
    ensures s.run.Some? ==>
      && |s.deliveries| == |s.run.value.routed|
      && forall i :: 0 <= i < |s.deliveries| ==>
           s.deliveries[i] == Router.ProcessWebhooks(post, cfg.webhooks, s.run.value.routed[i])
  {
    var url := StreamUrl(cfg);
    var c := Connection.CreateWebsocketConnection(dial, url);
    match c
    case Panicked(_, _) => Session(url, c, None, [])
    case Connected(_, _, _) =>
      var run := ProcessMessages(decode, ZeroMessage, events);
      var routed := run.routed;
      Session(url, c, Some(run), seq(|routed|, i requires 0 <= i < |routed| => Router.ProcessWebhooks(post, cfg.webhooks, routed[i])))
  }

  /** What Enable did: refused with an error, or started the message handler. */
  datatype EnableResult = Refused(reason: string) | Started(session: Session)

  /** Enable refuses an empty host and starts nothing; otherwise it starts the handler. No
      other configuration member is checked. */
  function Enable(cfg: Config, dial: Connection.Dialer, decode: Decoder, post: Requester,
                  events: seq<Event>): (r: EnableResult)
    ensures r.Refused? <==> cfg.gotifyHost == ""
    ensures r.Refused? ==> r.reason == HostRequired
    ensures r.Started? ==> r.session == HandleMessages(cfg, dial, decode, post, events)
  {
    if cfg.gotifyHost == "" then Refused(HostRequired)
    else Started(HandleMessages(cfg, dial, decode, post, events))
  }

  /** A session that panics while connecting routes nothing; a connected one delivers
      only the messages its loop routed. */
  lemma NoDeliveryWithoutConnection(cfg: Config, dial: Connection.Dialer, decode: Decoder, post: Requester,
                                    events: seq<Event>)
    requires forall k :: 0 <= k < Connection.MaxAttempts ==> dial(StreamUrl(cfg), k).DialFailed?
    ensures HandleMessages(cfg, dial, decode, post, events).run == None
    ensures HandleMessages(cfg, dial, decode, post, events).deliveries == []
    ensures HandleMessages(cfg, dial, decode, post, events).connection.Panicked?
  {
  }

  /** Delivery failures are absorbed by the router: what the loop consumes, routes and stops
      on is the same whatever the webhooks answer. */
  lemma DeliveryOutcomesDoNotReachLoop(cfg: Config, dial: Connection.Dialer, decode: Decoder,
                                       post1: Requester, post2: Requester, events: seq<Event>)
    ensures HandleMessages(cfg, dial, decode, post1, events).run == HandleMessages(cfg, dial, decode, post2, events).run
  {
  }
}
