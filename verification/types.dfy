/** The data shapes of the relay: configuration, routing rules and messages. */
module Types {

  /** One routing rule: messages of application `appId` are forwarded to `url`.
      `name` is informational only and never consulted by the relay. */
  datatype Webhook = Webhook(appId: int, name: string, url: string)

  /** The plugin configuration. `webhooks` is an ordered routing table; several rules
      may carry the same `appId` (fan-out). */
  datatype Config = Config(gotifyHost: string, clientToken: string, webhooks: seq<Webhook>)

  /** The body posted to a webhook. It has a single member, the content. */
  datatype Message = Message(content: string)

  /** A message read from the stream: the application id plus the members of the host's
      plugin message that JSON decoding can write. */
  datatype PluginMessage = PluginMessage(appId: int, title: string, message: string, priority: int)

  /** The zero value of a plugin message, the state the dispatch loop starts from. */
  const ZeroMessage := PluginMessage(0, "", "", 0)
}
