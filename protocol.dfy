/**
 * The submit / poll / result protocol shared by the blocking and the
 * cooperative client: parameter assembly and response-envelope handling for
 * the submission endpoint (`_in`) and the result endpoint (`_res`), and the
 * bounded poll of `get_solution`, as functions over the transport oracle.
 */
module Protocol {
  import opened Strings
  import opened Transport

  const Base := "https://2captcha.com"
  const InUrl := Base + "/in.php"
  const ResUrl := Base + "/res.php"
  /** The integration tag sent with every submission. */
  const SoftId := "2621"
  const ErrorMarker := "ERROR"
  const OkMarker := "OK|"
  /** The service's own spelling. */
  const NotReadyMarker := "CAPCHA_NOT_READY"
  const PollInterval: nat := 5
  const TimeoutMessage := "Did not recieve captcha solution in set time"

  datatype Option<T> = None | Some(value: T)

  /** The exceptions of the package (all subclasses of SolveCaptchaError), and a transport failure. */
  datatype Error =
    | CaptchaTimeoutError(message: string)
    | TwoCaptchaInputError(text: string)
    | TwoCaptchaResponseError(text: string)
    | TransportError

  datatype Result<T> = Success(value: T) | Failure(error: Error)

  /** `text.replace("OK|", "")` */
  function StripOk(text: string): string {
    RemoveAll(text, OkMarker)
  }

  // ---------------------------------------------------------------------------
  // Parameter maps

  /**
   * The form sent to the submission endpoint by `_in(method, **extras)`: the
   * fixed entries, "method" dropped when falsy, then the caller's keywords on
   * top (updating with an empty dictionary changes nothing).
   */
  function InParams(key: string, tag: Value, extras: Params): Params {
    var fixed := map["key" := Str(key), "method" := tag, "soft_id" := Str(SoftId)];
    (if Truthy(tag) then fixed else fixed - {"method"}) + extras
  }

  /** Which keys the submission form holds, and which value each one has. */
  lemma InParamsShape(key: string, tag: Value, extras: Params)
    ensures InParams(key, tag, extras).Keys == {"key", "soft_id"} + (if Truthy(tag) then {"method"} else {}) + extras.Keys
    ensures forall k :: k in extras ==> InParams(key, tag, extras)[k] == extras[k]
    ensures "key" !in extras ==> InParams(key, tag, extras)["key"] == Str(key)
    ensures "soft_id" !in extras ==> InParams(key, tag, extras)["soft_id"] == Str(SoftId)
    ensures "method" !in extras && Truthy(tag) ==> InParams(key, tag, extras)["method"] == tag
  {
    var fixed := map["key" := Str(key), "method" := tag, "soft_id" := Str(SoftId)];
    var params := if Truthy(tag) then fixed else fixed - {"method"};
    assert params.Keys == {"key", "soft_id"} + (if Truthy(tag) then {"method"} else {});
  }

  /** The query sent to the result endpoint by `_res(action, **extras)`. */
  function ResParams(key: string, action: string, extras: Params): Params {
    map["key" := Str(key), "action" := Str(action)] + extras
  }

  /** Which keys the result query holds, and which value each one has. */
  lemma ResParamsShape(key: string, action: string, extras: Params)
    ensures ResParams(key, action, extras).Keys == {"key", "action"} + extras.Keys
    ensures forall k :: k in extras ==> ResParams(key, action, extras)[k] == extras[k]
    ensures "key" !in extras ==> ResParams(key, action, extras)["key"] == Str(key)
    ensures "action" !in extras ==> ResParams(key, action, extras)["action"] == Str(action)
  {
  }

  // ---------------------------------------------------------------------------
  // Response envelopes

  /** How `_in` reads the submission endpoint's text. */
  function ClassifyIn(text: string): Result<string> {
    if Contains(text, ErrorMarker) then Failure(TwoCaptchaInputError(text)) else Success(StripOk(text))
  }

  /** How `_res` reads the result endpoint's text. */
  function ClassifyRes(text: string): Result<string> {
    if Contains(text, ErrorMarker) then Failure(TwoCaptchaResponseError(text)) else Success(StripOk(text))
  }

  /** "OK|" does not begin any occurrence of "ERROR", so prefixing it adds none. */
  lemma OkPrefixAddsNoError(t: string)
    ensures Contains(OkMarker + t, ErrorMarker) == Contains(t, ErrorMarker)
  {
    var s := OkMarker + t;
    var s1 := "K|" + t;
    var s2 := "|" + t;
    assert s[1..] == s1 && s1[1..] == s2 && s2[1..] == t;
    assert Contains(s, ErrorMarker) == Contains(s1, ErrorMarker) by {
      if |s| >= 5 { assert s[..5][0] == 'O'; }
    }
    assert Contains(s1, ErrorMarker) == Contains(s2, ErrorMarker) by {
      if |s1| >= 5 { assert s1[..5][0] == 'K'; }
    }
    assert Contains(s2, ErrorMarker) == Contains(t, ErrorMarker) by {
      if |s2| >= 5 { assert s2[..5][0] == '|'; }
    }
  }

  /** A success envelope `"OK|" + v` yields exactly `v`, from either endpoint. */
  lemma SuccessEnvelope(v: string)
    requires !Contains(v, OkMarker) && !Contains(v, ErrorMarker)
    ensures ClassifyIn(OkMarker + v) == Success(v)
    ensures ClassifyRes(OkMarker + v) == Success(v)
  {
    OkPrefixAddsNoError(v);
    RemoveAllLeading(OkMarker, v);
    RemoveAllAbsent(v, OkMarker);
  }

  /** "ERROR" anywhere in the text is an error carrying the whole text, whatever else it says. */
  lemma ErrorWins(pre: string, post: string)
    ensures ClassifyIn(pre + ErrorMarker + post) == Failure(TwoCaptchaInputError(pre + ErrorMarker + post))
    ensures ClassifyRes(pre + ErrorMarker + post) == Failure(TwoCaptchaResponseError(pre + ErrorMarker + post))
  {
    ContainsInfix(pre, ErrorMarker, post);
  }

  /** What the classification of a result-endpoint reply is, seen from the poll loop. */
  predicate NotReadyReply(r: Reply) {
    r.Delivered? && !Contains(r.text, ErrorMarker) && Contains(StripOk(r.text), NotReadyMarker)
  }

  predicate ReadyReply(r: Reply) {
    r.Delivered? && !Contains(r.text, ErrorMarker) && !Contains(StripOk(r.text), NotReadyMarker)
  }

  predicate FailedReply(r: Reply) {
    r.Unreachable? || Contains(r.text, ErrorMarker)
  }

  /** The error a failed result-endpoint reply raises. */
  function ResFailure(r: Reply): Error
    requires FailedReply(r)
  {
    if r.Unreachable? then TransportError else TwoCaptchaResponseError(r.text)
  }

  /** The error a failed submission reply raises. */
  function InFailure(r: Reply): Error
    requires FailedReply(r)
  {
    if r.Unreachable? then TransportError else TwoCaptchaInputError(r.text)
  }

  // ---------------------------------------------------------------------------
  // The two endpoints

  /** `_in(method, **extras)`: one POST to the submission endpoint; the task id or an error. */
  function Submit(net: Net, key: string, tag: Value, extras: Params): (out: (Result<string>, Net))
    ensures out.1 == Net(Drop(net.replies, 1), net.trace + [Request(POST, InUrl, InParams(key, tag, extras))])
    ensures FailedReply(ReplyAt(net.replies, 0)) ==> out.0 == Failure(InFailure(ReplyAt(net.replies, 0)))
    ensures !FailedReply(ReplyAt(net.replies, 0)) ==> out.0 == Success(StripOk(ReplyAt(net.replies, 0).text))
  {
    var (reply, net') := Call(net, POST, InUrl, InParams(key, tag, extras));
    match reply
    case Unreachable => (Failure(TransportError), net')
    case Delivered(text) => (ClassifyIn(text), net')
  }

  /** `_res(action, **extras)`: one GET to the result endpoint; the stripped text or an error. */
  function Query(net: Net, key: string, action: string, extras: Params): (out: (Result<string>, Net))
    ensures out.1 == Net(Drop(net.replies, 1), net.trace + [Request(GET, ResUrl, ResParams(key, action, extras))])
    ensures FailedReply(ReplyAt(net.replies, 0)) ==> out.0 == Failure(ResFailure(ReplyAt(net.replies, 0)))
    ensures !FailedReply(ReplyAt(net.replies, 0)) ==> out.0 == Success(StripOk(ReplyAt(net.replies, 0).text))
  {
    var (reply, net') := Call(net, GET, ResUrl, ResParams(key, action, extras));
    match reply
    case Unreachable => (Failure(TransportError), net')
    case Delivered(text) => (ClassifyRes(text), net')
  }

  /** A feedback call (`report_good` / `report_bad`): one GET with the action and the task id. */
  function Report(net: Net, key: string, requestId: string, action: string): (out: (Result<()>, Net))
    ensures out.1.replies == Drop(net.replies, 1)
    ensures out.1.trace == net.trace + [Request(GET, ResUrl, map["key" := Str(key), "action" := Str(action), "id" := Str(requestId)])]
    ensures out.0.Failure? <==> FailedReply(ReplyAt(net.replies, 0))
    ensures out.0.Failure? ==> out.0.error == ResFailure(ReplyAt(net.replies, 0))
  {
    var (r, net') := Query(net, key, action, map["id" := Str(requestId)]);
    assert ResParams(key, action, map["id" := Str(requestId)])
      == map["key" := Str(key), "action" := Str(action), "id" := Str(requestId)];
    match r
    case Failure(e) => (Failure(e), net')
    case Success(_) => (Success(()), net')
  }

  // ---------------------------------------------------------------------------
  // The bounded poll

  /** `range(timeout // 5)`: how many result-endpoint calls `get_solution` may make. */
  function Attempts(timeout: int): (n: nat)
    ensures timeout < PollInterval ==> n == 0
    ensures timeout >= 0 ==> PollInterval * n <= timeout < PollInterval * (n + 1)
  {
    if timeout / PollInterval > 0 then timeout / PollInterval else 0
  }

  /** The request each poll attempt makes: `_res("get", id=id)`. */
  function GetRequest(key: string, id: string): Event {
    Request(GET, ResUrl, ResParams(key, "get", map["id" := Str(id)]))
  }

  /** What `get_solution`'s loop does with `attempts` iterations left: the solution text or an error. */
  function Poll(net: Net, key: string, id: string, attempts: nat): (Result<string>, Net)
    decreases attempts
  {
    if attempts == 0 then (Failure(CaptchaTimeoutError(TimeoutMessage)), net)
    else
      var (r, net1) := Query(net, key, "get", map["id" := Str(id)]);
      if r.Failure? then (r, net1)
      else if Contains(r.value, NotReadyMarker) then Poll(Pause(net1, PollInterval), key, id, attempts - 1)
      else (r, net1)
  }

  /** `k` not-ready exchanges: each request followed by a five-unit sleep. */
  function Waiting(req: Event, k: nat): seq<Event> {
    if k == 0 then [] else [req, Sleep(PollInterval)] + Waiting(req, k - 1)
  }

  /** `Waiting(req, k)` alternates the request and a five-unit sleep, `k` times each. */
  lemma {:induction false} WaitingShape(req: Event, k: nat)
    ensures |Waiting(req, k)| == 2 * k
    ensures forall j :: 0 <= j < 2 * k ==> Waiting(req, k)[j] == if j % 2 == 0 then req else Sleep(PollInterval)
  {
    if k > 0 {
      WaitingShape(req, k - 1);
      var w := Waiting(req, k);
      forall j | 0 <= j < 2 * k ensures w[j] == if j % 2 == 0 then req else Sleep(PollInterval) {
        if j >= 2 {
          assert w[j] == Waiting(req, k - 1)[j - 2];
        }
      }
    }
  }

  /** A not-ready reply costs one call and one sleep and leaves one attempt fewer. */
  lemma PollStep(net: Net, key: string, id: string, attempts: nat)
    requires attempts > 0
    requires NotReadyReply(ReplyAt(net.replies, 0))
    ensures Poll(net, key, id, attempts)
         == Poll(Net(Drop(net.replies, 1), net.trace + [GetRequest(key, id), Sleep(PollInterval)]), key, id, attempts - 1)
  {
    var req := GetRequest(key, id);
    assert net.trace + [req] + [Sleep(PollInterval)] == net.trace + [req, Sleep(PollInterval)];
  }

  /** Trace bookkeeping for one more not-ready exchange in front. */
  lemma WaitingCons(trace: seq<Event>, req: Event, k: nat, tail: seq<Event>)
    requires k > 0
    ensures trace + [req, Sleep(PollInterval)] + Waiting(req, k - 1) + tail == trace + Waiting(req, k) + tail
  {
  }

  /** A ready first reply ends the poll after one call. */
  lemma PollFirstReady(net: Net, key: string, id: string, attempts: nat)
    requires attempts > 0
    requires ReadyReply(ReplyAt(net.replies, 0))
    ensures Poll(net, key, id, attempts)
         == (Success(StripOk(ReplyAt(net.replies, 0).text)), Net(Drop(net.replies, 1), net.trace + [GetRequest(key, id)]))
  {
  }

  /** A failed first reply ends the poll after one call. */
  lemma PollFirstFails(net: Net, key: string, id: string, attempts: nat)
    requires attempts > 0
    requires FailedReply(ReplyAt(net.replies, 0))
    ensures Poll(net, key, id, attempts)
         == (Failure(ResFailure(ReplyAt(net.replies, 0))), Net(Drop(net.replies, 1), net.trace + [GetRequest(key, id)]))
  {
  }

  /** The transport after `k` not-ready exchanges: `k` replies consumed, `k` requests and sleeps recorded. */
  function Skipped(net: Net, key: string, id: string, k: nat): Net
    decreases k
  {
    if k == 0 then net
    else Skipped(Net(Drop(net.replies, 1), net.trace + [GetRequest(key, id), Sleep(PollInterval)]), key, id, k - 1)
  }

  lemma {:induction false} SkippedIs(net: Net, key: string, id: string, k: nat)
    ensures Skipped(net, key, id, k) == Net(Drop(net.replies, k), net.trace + Waiting(GetRequest(key, id), k))
    decreases k
  {
    var req := GetRequest(key, id);
    if k == 0 {
      assert Drop(net.replies, 0) == net.replies;
      assert net.trace + Waiting(req, 0) == net.trace;
    } else {
      var net2 := Net(Drop(net.replies, 1), net.trace + [req, Sleep(PollInterval)]);
      SkippedIs(net2, key, id, k - 1);
      DropShift(net.replies, k - 1);
      calc {
        net2.trace + Waiting(req, k - 1);
        net.trace + ([req, Sleep(PollInterval)] + Waiting(req, k - 1));
        net.trace + Waiting(req, k);
      }
    }
  }

  /** A not-ready reply in front of `n + 1` attempts, in the additive form the induction below uses. */
  lemma PollStepAhead(net: Net, key: string, id: string, n: nat)
    requires NotReadyReply(ReplyAt(net.replies, 0))
    ensures Poll(net, key, id, n + 1)
         == Poll(Net(Drop(net.replies, 1), net.trace + [GetRequest(key, id), Sleep(PollInterval)]), key, id, n)
  {
    PollStep(net, key, id, n + 1);
  }

  /** `k` not-ready replies in front cost `k` calls and `k` sleeps and leave the remaining attempts. */
  lemma {:induction false} PollSkipsAhead(net: Net, key: string, id: string, k: nat, left: nat)
    requires forall i: nat :: i < k ==> NotReadyReply(ReplyAt(net.replies, i))
    ensures Poll(net, key, id, k + left) == Poll(Skipped(net, key, id, k), key, id, left)
    decreases k
  {
    if k > 0 {
      var net2 := Net(Drop(net.replies, 1), net.trace + [GetRequest(key, id), Sleep(PollInterval)]);
      PollStepAhead(net, key, id, (k - 1) + left);
      DropShift(net.replies, k - 1);
      PollSkipsAhead(net2, key, id, k - 1, left);
    }
  }

  lemma PollSkips(net: Net, key: string, id: string, attempts: nat, k: nat)
    requires k <= attempts
    requires forall i: nat :: i < k ==> NotReadyReply(ReplyAt(net.replies, i))
    ensures Poll(net, key, id, attempts)
         == Poll(Net(Drop(net.replies, k), net.trace + Waiting(GetRequest(key, id), k)), key, id, attempts - k)
  {
    PollSkipsAhead(net, key, id, k, attempts - k);
    SkippedIs(net, key, id, k);
  }

  /** The oracle after `k` replies, then its next one. */
  lemma DropNext(replies: seq<Reply>, k: nat)
    ensures ReplyAt(Drop(replies, k), 0) == ReplyAt(replies, k)
    ensures Drop(Drop(replies, k), 1) == Drop(replies, k + 1)
  {
    if k + 1 <= |replies| {
      assert replies[k..][1..] == replies[k + 1..];
    }
  }

  /** The first reply that is not "not ready" ends the poll with its stripped text, after exactly `k + 1` calls. */
  lemma PollReady(net: Net, key: string, id: string, attempts: nat, k: nat)
    requires k < attempts
    requires forall i: nat :: i < k ==> NotReadyReply(ReplyAt(net.replies, i))
    requires ReadyReply(ReplyAt(net.replies, k))
    ensures Poll(net, key, id, attempts)
         == (Success(StripOk(ReplyAt(net.replies, k).text)),
             Net(Drop(net.replies, k + 1), net.trace + Waiting(GetRequest(key, id), k) + [GetRequest(key, id)]))
  {
    var rest := Net(Drop(net.replies, k), net.trace + Waiting(GetRequest(key, id), k));
    PollSkips(net, key, id, attempts, k);
    DropNext(net.replies, k);
    PollFirstReady(rest, key, id, attempts - k);
  }

  /** A reply that fails (an "ERROR" text, or the network) ends the poll with no further calls. */
  lemma PollFails(net: Net, key: string, id: string, attempts: nat, k: nat)
    requires k < attempts
    requires forall i: nat :: i < k ==> NotReadyReply(ReplyAt(net.replies, i))
    requires FailedReply(ReplyAt(net.replies, k))
    ensures Poll(net, key, id, attempts)
         == (Failure(ResFailure(ReplyAt(net.replies, k))),
             Net(Drop(net.replies, k + 1), net.trace + Waiting(GetRequest(key, id), k) + [GetRequest(key, id)]))
  {
    var rest := Net(Drop(net.replies, k), net.trace + Waiting(GetRequest(key, id), k));
    PollSkips(net, key, id, attempts, k);
    DropNext(net.replies, k);
    PollFirstFails(rest, key, id, attempts - k);
  }

  /** When every permitted reply is "not ready", the poll times out after exactly `attempts` calls and sleeps. */
  lemma PollTimesOut(net: Net, key: string, id: string, attempts: nat)
    requires forall i: nat :: i < attempts ==> NotReadyReply(ReplyAt(net.replies, i))
    ensures Poll(net, key, id, attempts)
         == (Failure(CaptchaTimeoutError(TimeoutMessage)),
             Net(Drop(net.replies, attempts), net.trace + Waiting(GetRequest(key, id), attempts)))
  {
    PollSkips(net, key, id, attempts, attempts);
  }
}
