/**
 * The cooperative client of solvecaptcha/aiotwocaptcha.py: the handle
 * `AIOTwoCaptchaResponse`, whose `get_solution` fills in `solution` and
 * returns the handle itself, and the orchestrator `AIOTwoCaptcha`, whose
 * solve methods either return the unresolved handle or drive it to a solution.
 * Each suspension point (`await`) is a step in the transport trace.
 */
module Cooperative {
  import opened Strings
  import opened Transport
  import opened Protocol
  import Blocking

  /** As the blocking solve methods, plus the `wait` flag. */
  const CaptchaKeywords := Blocking.CaptchaKeywords + {"wait"}
  const TextCaptchaKeywords := Blocking.TextCaptchaKeywords + {"wait"}
  const RecaptchaV2Keywords := Blocking.RecaptchaV2Keywords + {"wait"}
  const HCaptchaKeywords := Blocking.HCaptchaKeywords + {"wait"}
  const CapyKeywords := Blocking.CapyKeywords + {"wait"}

  /** The observable fields of a handle. */
  datatype HandleState = HandleState(key: string, requestId: string, timeout: int, solution: Option<string>)

  /** What one `get_solution` call does to a handle: poll afresh, and on success replace the solution. */
  function Refresh(h: HandleState, net: Net): (Result<HandleState>, Net) {
    var (polled, n) := Poll(net, h.key, h.requestId, Attempts(h.timeout));
    if polled.Failure? then (Failure(polled.error), n)
    else (Success(h.(solution := Some(polled.value))), n)
  }

  /**
   * What a solve method does: submit once and build an unresolved handle; with
   * `wait`, sleep `grace` and refresh it.
   */
  function AsyncSolved(net: Net, key: string, timeout: int, tag: Value, fields: Params, grace: nat, wait: bool)
    : (Result<HandleState>, Net)
  {
    var (submitted, n1) := Submit(net, key, tag, fields);
    if submitted.Failure? then (Failure(submitted.error), n1)
    else
      var h := HandleState(key, submitted.value, timeout, None);
      if wait then Refresh(h, Pause(n1, grace)) else (Success(h), n1)
  }

  class AIOTwoCaptchaResponse {
    const key: string
    const requestId: string
    const timeout: int
    var solution: Option<string>

    constructor(key: string, requestId: string, timeout: int)
      ensures State() == HandleState(key, requestId, timeout, None)
    {
      this.key := key;
      this.requestId := requestId;
      this.timeout := timeout;
      solution := None;
    }

    function State(): HandleState
      reads this
    {
      HandleState(key, requestId, timeout, solution)
    }

    /**
     * `get_solution()`: polls whether or not a solution is already held; on success
     * sets `solution` and returns this handle; on an error or a timeout leaves it as it was.
     */
    method GetSolution(net: Net) returns (r: Result<AIOTwoCaptchaResponse>, net': Net)
      modifies this
      ensures var (s, n) := Refresh(old(State()), net);
              && net' == n
              && (s.Success? ==> r == Success(this) && State() == s.value)
              && (s.Failure? ==> r == Failure(s.error) && State() == old(State()))
    {
      var attempts := Attempts(timeout);
      net' := net;
      for i := 0 to attempts
        invariant Poll(net, key, requestId, attempts) == Poll(net', key, requestId, attempts - i)
        invariant solution == old(solution)
      {
        var (res, next) := Query(net', key, "get", map["id" := Str(requestId)]);
        if res.Failure? {
          return Failure(res.error), next;
        }
        if Contains(res.value, NotReadyMarker) {
          net' := Pause(next, PollInterval);
          continue;
        }
        solution := Some(res.value);
        return Success(this), next;
      }
      r := Failure(CaptchaTimeoutError(TimeoutMessage));
    }

    /** `report_good`: one result-endpoint call with this handle's id; its errors propagate. */
    function ReportGood(net: Net): (out: (Result<()>, Net))
      ensures out.1.replies == Drop(net.replies, 1)
      ensures out.1.trace == net.trace + [Request(GET, ResUrl, map["key" := Str(key), "action" := Str("reportgood"), "id" := Str(requestId)])]
      ensures out.0.Failure? <==> FailedReply(ReplyAt(net.replies, 0))
    {
      Report(net, key, requestId, "reportgood")
    }

    /** `report_bad`: the same call with the action "reportbad". */
    function ReportBad(net: Net): (out: (Result<()>, Net))
      ensures out.1.replies == Drop(net.replies, 1)
      ensures out.1.trace == net.trace + [Request(GET, ResUrl, map["key" := Str(key), "action" := Str("reportbad"), "id" := Str(requestId)])]
      ensures out.0.Failure? <==> FailedReply(ReplyAt(net.replies, 0))
    {
      Report(net, key, requestId, "reportbad")
    }
  }

  class AIOTwoCaptcha {
    const key: string
    const timeout: int

    constructor(key: string, timeout: int)
      ensures this.key == key && this.timeout == timeout
    {
      this.key := key;
      this.timeout := timeout;
    }

    /** `captcha`: a base64 image with instructions for the worker. */
    method Captcha(net: Net, encodedString: string, textInstructions: string, wait: bool, extras: Params)
      returns (r: Result<AIOTwoCaptchaResponse>, net': Net)
      requires extras.Keys !! CaptchaKeywords
      ensures var (s, n) := AsyncSolved(net, key, timeout, Str("base64"), Blocking.CaptchaFields(encodedString, textInstructions) + extras, Blocking.ShortGrace, wait);
              net' == n && Agrees(r, s)
      ensures r.Success? ==> fresh(r.value)
    {
      var (submitted, n1) := Submit(net, key, Str("base64"), Blocking.CaptchaFields(encodedString, textInstructions) + extras);
      if submitted.Failure? {
        return Failure(submitted.error), n1;
      }
      var response := new AIOTwoCaptchaResponse(key, submitted.value, timeout);
      if wait {
        var n2 := Pause(n1, Blocking.ShortGrace);
        r, net' := response.GetSolution(n2);
        return;
      }
      r, net' := Success(response), n1;
    }

    /** `textcaptcha`: a question in words; `lang` is accepted and never sent. */
    method TextCaptcha(net: Net, text: string, lang: string, language: int, wait: bool, extras: Params)
      returns (r: Result<AIOTwoCaptchaResponse>, net': Net)
      requires extras.Keys !! TextCaptchaKeywords
      ensures var (s, n) := AsyncSolved(net, key, timeout, Blocking.TextCaptchaTag(extras), Blocking.TextCaptchaFields(text, language, extras), Blocking.ShortGrace, wait);
              net' == n && Agrees(r, s)
      ensures r.Success? ==> fresh(r.value)
    {
      var (submitted, n1) := Submit(net, key, Blocking.TextCaptchaTag(extras), Blocking.TextCaptchaFields(text, language, extras));
      if submitted.Failure? {
        return Failure(submitted.error), n1;
      }
      var response := new AIOTwoCaptchaResponse(key, submitted.value, timeout);
      if wait {
        var n2 := Pause(n1, Blocking.ShortGrace);
        r, net' := response.GetSolution(n2);
        return;
      }
      r, net' := Success(response), n1;
    }

    /** `recaptcha_v2`: a site key and the page it is on. */
    method RecaptchaV2(net: Net, googlekey: string, pageurl: string, wait: bool, extras: Params)
      returns (r: Result<AIOTwoCaptchaResponse>, net': Net)
      requires extras.Keys !! RecaptchaV2Keywords
      ensures var (s, n) := AsyncSolved(net, key, timeout, Str("userrecaptcha"), Blocking.RecaptchaV2Fields(googlekey, pageurl) + extras, Blocking.LongGrace, wait);
              net' == n && Agrees(r, s)
      ensures r.Success? ==> fresh(r.value)
    {
      var (submitted, n1) := Submit(net, key, Str("userrecaptcha"), Blocking.RecaptchaV2Fields(googlekey, pageurl) + extras);
      if submitted.Failure? {
        return Failure(submitted.error), n1;
      }
      var response := new AIOTwoCaptchaResponse(key, submitted.value, timeout);
      if wait {
        var n2 := Pause(n1, Blocking.LongGrace);
        r, net' := response.GetSolution(n2);
        return;
      }
      r, net' := Success(response), n1;
    }

    /** `hcaptcha`: a site key and the page it is on. */
    method HCaptcha(net: Net, sitekey: string, pageurl: string, wait: bool, extras: Params)
      returns (r: Result<AIOTwoCaptchaResponse>, net': Net)
      requires extras.Keys !! HCaptchaKeywords
      ensures var (s, n) := AsyncSolved(net, key, timeout, Str("hcaptcha"), Blocking.HCaptchaFields(sitekey, pageurl) + extras, Blocking.LongGrace, wait);
              net' == n && Agrees(r, s)
      ensures r.Success? ==> fresh(r.value)
    {
      var (submitted, n1) := Submit(net, key, Str("hcaptcha"), Blocking.HCaptchaFields(sitekey, pageurl) + extras);
      if submitted.Failure? {
        return Failure(submitted.error), n1;
      }
      var response := new AIOTwoCaptchaResponse(key, submitted.value, timeout);
      if wait {
        var n2 := Pause(n1, Blocking.LongGrace);
        r, net' := response.GetSolution(n2);
        return;
      }
      r, net' := Success(response), n1;
    }

    /** `capy`: the puzzle key, the page and the API server. */
    method Capy(net: Net, captchakey: string, pageurl: string, apiserver: string, wait: bool, extras: Params)
      returns (r: Result<AIOTwoCaptchaResponse>, net': Net)
      requires extras.Keys !! CapyKeywords
      ensures var (s, n) := AsyncSolved(net, key, timeout, Str("capy"), Blocking.CapyFields(captchakey, pageurl, apiserver) + extras, Blocking.LongGrace, wait);
              net' == n && Agrees(r, s)
      ensures r.Success? ==> fresh(r.value)
    {
      var (submitted, n1) := Submit(net, key, Str("capy"), Blocking.CapyFields(captchakey, pageurl, apiserver) + extras);
      if submitted.Failure? {
        return Failure(submitted.error), n1;
      }
      var response := new AIOTwoCaptchaResponse(key, submitted.value, timeout);
      if wait {
        var n2 := Pause(n1, Blocking.LongGrace);
        r, net' := response.GetSolution(n2);
        return;
      }
      r, net' := Success(response), n1;
    }
  }

  /** A returned handle shows the state the specification gives; an error is the specification's error. */
  ghost predicate Agrees(r: Result<AIOTwoCaptchaResponse>, s: Result<HandleState>)
    reads if r.Success? then {r.value} else {}
  {
    && r.Success? == s.Success?
    && (r.Success? ==> r.value.State() == s.value)
    && (r.Failure? ==> r.error == s.error)
  }

  // ---------------------------------------------------------------------------
  // Properties of the cooperative protocol

  /** Without `wait`, an accepted submission gives an unresolved handle after one POST and no result-endpoint call. */
  lemma NoWaitIsPending(net: Net, key: string, timeout: int, tag: Value, fields: Params, grace: nat)
    requires !FailedReply(ReplyAt(net.replies, 0))
    ensures AsyncSolved(net, key, timeout, tag, fields, grace, false)
         == (Success(HandleState(key, StripOk(ReplyAt(net.replies, 0).text), timeout, None)),
             Net(Drop(net.replies, 1), net.trace + [Request(POST, InUrl, InParams(key, tag, fields))]))
  {
  }

  /** With `wait`, the cooperative solve makes the same calls and sleeps as the blocking one and ends the same way. */
  lemma WaitMatchesBlocking(net: Net, key: string, timeout: int, tag: Value, fields: Params, grace: nat)
    ensures var (a, na) := AsyncSolved(net, key, timeout, tag, fields, grace, true);
            var (b, nb) := Blocking.Solved(net, key, timeout, tag, fields, grace);
            && na == nb
            && a.Success? == b.Success?
            && (a.Success? ==> a.value == HandleState(b.value.key, b.value.requestId, timeout, b.value.solution))
            && (a.Failure? ==> a.error == b.error)
  {
  }

  /** An unresolved handle refreshed later runs the same poll the `wait` path runs, minus the grace sleep. */
  lemma DeferredRefresh(net: Net, key: string, timeout: int, tag: Value, fields: Params, grace: nat)
    requires !FailedReply(ReplyAt(net.replies, 0))
    ensures var (pending, n1) := AsyncSolved(net, key, timeout, tag, fields, grace, false);
            && pending.Success?
            && Refresh(pending.value, Pause(n1, grace)) == AsyncSolved(net, key, timeout, tag, fields, grace, true)
  {
  }

  /** No caching: the solution a handle already holds has no influence on what a refresh does or yields. */
  lemma RefreshIgnoresSolution(h: HandleState, held: Option<string>, net: Net)
    ensures Refresh(h.(solution := held), net).1 == Refresh(h, net).1
    ensures Refresh(h.(solution := held), net).0.Success? == Refresh(h, net).0.Success?
    ensures Refresh(h, net).0.Success? ==> Refresh(h.(solution := held), net).0 == Refresh(h, net).0
  {
  }

  /** A refresh that succeeds sets the solution and changes nothing else about the handle. */
  lemma RefreshChangesOnlySolution(h: HandleState, net: Net)
    ensures var (s, _) := Refresh(h, net);
            s.Success? ==> s.value.solution.Some? && s.value == h.(solution := s.value.solution)
  {
  }
}
