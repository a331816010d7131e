/**
 * The HTTP collaborator, replaced by an oracle. `replies` is what the service
 * will answer, one reply per request, in order; `trace` records every request
 * (verb, URL, parameters) and every sleep, in the order they happen.
 */
module Transport {

  /** A keyword-argument value: Python's None, a string, or an integer. */
  datatype Value = Nil | Str(s: string) | Int(i: int)

  /** Python truthiness of a value (`not v` is false exactly when this holds). */
  predicate Truthy(v: Value) {
    match v
    case Nil => false
    case Str(s) => s != ""
    case Int(i) => i != 0
  }

  /** A parameter dictionary: keys are unique and order does not matter. */
  type Params = map<string, Value>

  datatype Verb = POST | GET

  datatype Event = Request(verb: Verb, url: string, params: Params) | Sleep(units: nat)

  /** What a request gets back: the response text, or a transport-level failure. */
  datatype Reply = Delivered(text: string) | Unreachable

  datatype Net = Net(replies: seq<Reply>, trace: seq<Event>)

  /** The reply the `i`-th next request receives; past the end of the oracle the network is down. */
  function ReplyAt(replies: seq<Reply>, i: nat): Reply {
    if i < |replies| then replies[i] else Unreachable
  }

  /** The oracle once `n` requests have been answered. */
  function Drop(replies: seq<Reply>, n: nat): seq<Reply> {
    if n <= |replies| then replies[n..] else []
  }

  /** One request: it is recorded, and it consumes the next reply. */
  function Call(net: Net, verb: Verb, url: string, params: Params): (Reply, Net) {
    (ReplyAt(net.replies, 0), Net(Drop(net.replies, 1), net.trace + [Request(verb, url, params)]))
  }

  /** `time.sleep(units)` / `asyncio.sleep(units)`: recorded, consumes nothing. */
  function Pause(net: Net, units: nat): Net {
    net.(trace := net.trace + [Sleep(units)])
  }

  /** Answering one request and then `n` more is answering `n + 1`. */
  lemma {:induction false} DropShift(replies: seq<Reply>, n: nat)
    ensures Drop(Drop(replies, 1), n) == Drop(replies, n + 1)
    ensures forall i: nat :: ReplyAt(Drop(replies, 1), i) == ReplyAt(replies, i + 1)
  {
    if n + 1 <= |replies| {
      assert replies[1..][n..] == replies[n + 1..];
    }
  }
}
