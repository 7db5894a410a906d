/**
 * The Lettermint client's fluent email builder, reduced to a record of the
 * calls it receives. The network request behind `send` is not modelled: its
 * reply is an input.
 */
module LettermintSdk {

  /** One builder call, with the arguments it was given. */
  datatype Call =
    | From(sender: string)
    | To(recipients: seq<string>)
    | Cc(recipients: seq<string>)
    | Bcc(recipients: seq<string>)
    | ReplyTo(address: string)
    | Subject(subject: string)
    | Html(html: string)
    | Text(text: string)
    | Route(route: string)
    | Send

  /** What `send()` does: return a response of the given truthiness, or throw with a message. */
  datatype Reply = Response(truthy: bool) | Raised(message: string)

  /** `$lettermint->email` of a client built with `apiToken`. */
  class EmailBuilder {
    const apiToken: string
    var calls: seq<Call>

    constructor (apiToken: string)
      ensures this.apiToken == apiToken && calls == []
    {
      this.apiToken := apiToken;
      calls := [];
    }

    /** A setter call (`from`, `to`, ..., `route`): the builder remembers it. */
    method Add(c: Call)
      requires c != Send
      modifies this
      ensures calls == old(calls) + [c]
    {
      calls := calls + [c];
    }

    /** `send()`: recorded, then answered by the provider's reply. */
    method SendRequest(reply: Reply) returns (r: Reply)
      modifies this
      ensures calls == old(calls) + [Send]
      ensures r == reply
    {
      calls := calls + [Send];
      r := reply;
    }
  }
}
