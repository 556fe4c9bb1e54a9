/** The messages `fetch` exchanges with the back end, and the back end itself as an oracle:
  * a script of the deliveries it will make, in order. */
module Http {
  import opened Wrappers
  import opened Json

  /** A `FormData` entry: a text field or a file the user picked (known only by its name). */
  datatype FormValue = Field(text: string) | Upload(fileName: string)

  /** A request body: none, `JSON.stringify(value)`, a string sent as it is, or a `FormData`
    * in append order. */
  datatype Payload = NoBody | JsonBody(value: Json) | TextBody(text: string) | Form(entries: seq<(string, FormValue)>)

  /** The `fetch` options the client passes on: verb (the `method` option), headers and body. */
  datatype Options = Options(verb: string, headers: map<string, string>, body: Payload)

  /** One call of `fetch(url, options)`. */
  datatype Request = Request(url: string, options: Options)

  /** A response: its status, its body read with `res.text()`, and what `res.json()` makes of
    * that body (`None` when it is not JSON). */
  datatype Reply = Reply(status: int, text: string, json: Option<Json>) {
    /** `res.ok`. */
    predicate Ok() {
      200 <= status <= 299
    }
  }

  /** What the network does with one request: the server answers, or `fetch` rejects. */
  datatype Delivery = Delivered(reply: Reply) | Unreachable

  /** `options = {}`: a GET with no headers and no body. */
  const NoOptions := Options("GET", map[], NoBody)

  /** The next delivery of a script and what remains of it; an exhausted script is a
    * network failure. */
  function Next(script: seq<Delivery>): (r: (Delivery, seq<Delivery>))
    ensures script == [] ==> r == (Unreachable, [])
    ensures script != [] ==> r == (script[0], script[1..])
  {
    if script == [] then (Unreachable, []) else (script[0], script[1..])
  }

  /** The back end as seen from the browser: every request is recorded, and each is answered
    * by the next delivery of the script. */
  class Server {
    var sent: seq<Request>
    var script: seq<Delivery>

    constructor (deliveries: seq<Delivery>)
      ensures sent == [] && script == deliveries
    {
      sent := [];
      script := deliveries;
    }

    /** `await fetch(url, options)`. */
    method Fetch(req: Request) returns (d: Delivery)
      modifies this
      ensures sent == old(sent) + [req]
      ensures (d, script) == Next(old(script))
    {
      sent := sent + [req];
      if script == [] {
        d := Unreachable;
      } else {
        d := script[0];
        script := script[1..];
      }
    }
  }
}
