/** The world outside the process, as one ordered trace: every call into a WhatsApp
    client, every pause and every call of a live-update callback is appended to an
    `Outbox`. Whether a client rejects a request is an oracle fixed when the outbox is made. */
module Wire {
  import opened Util

  /** A request to a WhatsApp client; `to` is the `<number>@c.us` address. */
  datatype Request =
    | SendText(to: string, body: string)
    | SendImage(to: string, path: Option<string>, fileName: Option<string>, caption: string)
    | SendVoice(to: string, path: Option<string>)
    | SendFile(to: string, path: Option<string>, fileName: Option<string>, caption: string)

  /** The JSON objects handed to a live-update callback. */
  datatype Payload =
    | NovaMensagem(pedidoId: int)
    | PedidoAtualizado(pedidoId: int)

  datatype Event =
    /** A request made of the WhatsApp client with handle `client`. */
    | Call(client: nat, req: Request)
    /** A pause (`setTimeout`) of `ms` milliseconds. */
    | Sleep(ms: nat)
    /** A call `broadcast(userId, payload)`; the user id is null when an order has no tenant. */
    | Push(userId: Option<int>, payload: Payload)

  class Outbox {
    var events: seq<Event>
    /** Whether the client with a given handle rejects a given request. */
    const refuses: (nat, Request) -> bool

    constructor (refuses: (nat, Request) -> bool)
      ensures events == [] && this.refuses == refuses
    {
      events := [];
      this.refuses := refuses;
    }
  }
}
