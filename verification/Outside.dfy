/**
 * Everything a host call can learn from outside the process: the clock, URL
 * parsing, the network and the model. Each host call is given its own `World`,
 * so nothing is assumed to stay the same from one call to the next.
 */
module Outside {
  import opened Basics
  import opened Abi

  datatype Url = Url(scheme: string, host: Option<string>, text: string)

  /** What sending a GET request came to; the body is `None` if reading it failed. */
  datatype HttpOutcome =
    | SendFailed
    | Responded(status: nat, location: Option<string>, body: Option<seq<byte>>)

  /** What asking the model came to, and how many requests went over the network for it. */
  datatype Completion = Completion(answer: Cap<LlmResponse>, requests: nat)

  datatype World = World(
    now: string,
    parseUrl: string -> Option<Url>,
    send: Url -> HttpOutcome,
    complete: LlmRequest -> Completion)
}
