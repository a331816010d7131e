/**
 * The blocking client of solvecaptcha/twocaptcha.py: the orchestrator
 * `TwoCaptcha` (its poll loop and its five solve methods) and the result
 * value `TwoCaptchaResponse` with its feedback calls.
 */
module Blocking {
  import opened Strings
  import opened Transport
  import opened Protocol

  /** The timeout `TwoCaptcha` is given when the caller names none. */
  const DefaultTimeout := 300

  /** The sleep between submission and the first poll: image and text captchas. */
  const ShortGrace: nat := 5
  /** The sleep between submission and the first poll: reCAPTCHA v2, hCaptcha, Capy. */
  const LongGrace: nat := 20

  /**
   * Keywords a solve method's `**kwargs` can never carry to `_in`: its own
   * parameter names (Python binds them to the parameter) and the keywords it
   * passes to `_in` itself (Python raises `TypeError` on the repeat).
   */
  const CaptchaKeywords := {"self", "encoded_string", "textinstructions", "body", "method"}
  const TextCaptchaKeywords := {"self", "text", "lang", "language", "textcaptcha"}
  const RecaptchaV2Keywords := {"self", "googlekey", "pageurl", "method"}
  const HCaptchaKeywords := {"self", "sitekey", "pageurl", "method"}
  const CapyKeywords := {"self", "captchakey", "pageurl", "apiserver", "method"}

  function CaptchaFields(encodedString: string, textInstructions: string): Params {
    map["body" := Str(encodedString), "textinstructions" := Str(textInstructions)]
  }

  /** `textcaptcha` passes `**kwargs` to `_in`, so a "method" keyword binds to `_in`'s `method` parameter. */
  function TextCaptchaTag(extras: Params): Value {
    if "method" in extras then extras["method"] else Nil
  }

  function TextCaptchaFields(text: string, language: int, extras: Params): Params {
    map["textcaptcha" := Str(text), "language" := Int(language)] + (extras - {"method"})
  }

  function RecaptchaV2Fields(googlekey: string, pageurl: string): Params {
    map["googlekey" := Str(googlekey), "pageurl" := Str(pageurl)]
  }

  function HCaptchaFields(sitekey: string, pageurl: string): Params {
    map["sitekey" := Str(sitekey), "pageurl" := Str(pageurl)]
  }

  function CapyFields(captchakey: string, pageurl: string, apiserver: string): Params {
    map["captchakey" := Str(captchakey), "pageurl" := Str(pageurl), "apiserver" := Str(apiserver)]
  }

  /** The result of a solve: the credential, the task id and the solution text. */
  datatype TwoCaptchaResponse = TwoCaptchaResponse(key: string, requestId: string, solution: Option<string>) {

    /** `report_good`: one result-endpoint call, whatever `solution` holds; its errors propagate. */
    function ReportGood(net: Net): (out: (Result<()>, Net))
      ensures out.1.replies == Drop(net.replies, 1)
      ensures out.1.trace == net.trace + [Request(GET, ResUrl, map["key" := Str(key), "action" := Str("reportgood"), "id" := Str(requestId)])]
      ensures out.0.Failure? <==> FailedReply(ReplyAt(net.replies, 0))
    {
      Report(net, key, requestId, "reportgood")
    }

    /** `report_bad`: the same call with the action "reportbad". */
    function ReportBad(net: Net): (out: (Result<()>, Net))
      ensures out.1.replies == Drop(net.replies, 1)
      ensures out.1.trace == net.trace + [Request(GET, ResUrl, map["key" := Str(key), "action" := Str("reportbad"), "id" := Str(requestId)])]
      ensures out.0.Failure? <==> FailedReply(ReplyAt(net.replies, 0))
    {
      Report(net, key, requestId, "reportbad")
    }
  }

  /**
   * What a solve method does: submit once, sleep `grace`, poll, and wrap the
   * solution with the credential and the submitted id.
   */
  function Solved(net: Net, key: string, timeout: int, tag: Value, fields: Params, grace: nat): (Result<TwoCaptchaResponse>, Net) {
    var (submitted, n1) := Submit(net, key, tag, fields);
    if submitted.Failure? then (Failure(submitted.error), n1)
    else
      var id := submitted.value;
      var (polled, n2) := Poll(Pause(n1, grace), key, id, Attempts(timeout));
      if polled.Failure? then (Failure(polled.error), n2)
      else (Success(TwoCaptchaResponse(key, id, Some(polled.value))), n2)
  }

  class TwoCaptcha {
    const key: string
    const timeout: int

    constructor(key: string, timeout: int)
      ensures this.key == key && this.timeout == timeout
    {
      this.key := key;
      this.timeout := timeout;
    }

    /** `get_solution(id)`: at most `timeout // 5` polls, a five-unit sleep after each not-ready one. */
    method GetSolution(net: Net, id: string) returns (r: Result<string>, net': Net)
      ensures (r, net') == Poll(net, key, id, Attempts(timeout))
    {
      var attempts := Attempts(timeout);
      net' := net;
      for i := 0 to attempts
        invariant Poll(net, key, id, attempts) == Poll(net', key, id, attempts - i)
      {
        var (res, next) := Query(net', key, "get", map["id" := Str(id)]);
        if res.Failure? {
          return res, next;
        }
        if Contains(res.value, NotReadyMarker) {
          net' := Pause(next, PollInterval);
          continue;
        }
        return res, next;
      }
      r := Failure(CaptchaTimeoutError(TimeoutMessage));
    }

    /** `captcha`: a base64 image with instructions for the worker. */
    method Captcha(net: Net, encodedString: string, textInstructions: string, extras: Params)
      returns (r: Result<TwoCaptchaResponse>, net': Net)
      requires extras.Keys !! CaptchaKeywords
      ensures (r, net') == Solved(net, key, timeout, Str("base64"), CaptchaFields(encodedString, textInstructions) + extras, ShortGrace)
    {
      var (submitted, n1) := Submit(net, key, Str("base64"), CaptchaFields(encodedString, textInstructions) + extras);
      if submitted.Failure? {
        return Failure(submitted.error), n1;
      }
      var id := submitted.value;
      var n2 := Pause(n1, ShortGrace);
      var solution, n3 := GetSolution(n2, id);
      if solution.Failure? {
        return Failure(solution.error), n3;
      }
      r, net' := Success(TwoCaptchaResponse(key, id, Some(solution.value))), n3;
    }

    /** `textcaptcha`: a question in words; `lang` is accepted and never sent. */
    method TextCaptcha(net: Net, text: string, lang: string, language: int, extras: Params)
      returns (r: Result<TwoCaptchaResponse>, net': Net)
      requires extras.Keys !! TextCaptchaKeywords
      ensures (r, net') == Solved(net, key, timeout, TextCaptchaTag(extras), TextCaptchaFields(text, language, extras), ShortGrace)
    {
      var (submitted, n1) := Submit(net, key, TextCaptchaTag(extras), TextCaptchaFields(text, language, extras));
      if submitted.Failure? {
        return Failure(submitted.error), n1;
      }
      var id := submitted.value;
      var n2 := Pause(n1, ShortGrace);
      var solution, n3 := GetSolution(n2, id);
      if solution.Failure? {
        return Failure(solution.error), n3;
      }
      r, net' := Success(TwoCaptchaResponse(key, id, Some(solution.value))), n3;
    }

    /** `recaptcha_v2`: a site key and the page it is on. */
    method RecaptchaV2(net: Net, googlekey: string, pageurl: string, extras: Params)
      returns (r: Result<TwoCaptchaResponse>, net': Net)
      requires extras.Keys !! RecaptchaV2Keywords
      ensures (r, net') == Solved(net, key, timeout, Str("userrecaptcha"), RecaptchaV2Fields(googlekey, pageurl) + extras, LongGrace)
    {
      var (submitted, n1) := Submit(net, key, Str("userrecaptcha"), RecaptchaV2Fields(googlekey, pageurl) + extras);
      if submitted.Failure? {
        return Failure(submitted.error), n1;
      }
      var id := submitted.value;
      var n2 := Pause(n1, LongGrace);
      var solution, n3 := GetSolution(n2, id);
      if solution.Failure? {
        return Failure(solution.error), n3;
      }
      r, net' := Success(TwoCaptchaResponse(key, id, Some(solution.value))), n3;
    }

    /** `hcaptcha`: a site key and the page it is on. */
    method HCaptcha(net: Net, sitekey: string, pageurl: string, extras: Params)
      returns (r: Result<TwoCaptchaResponse>, net': Net)
      requires extras.Keys !! HCaptchaKeywords
      ensures (r, net') == Solved(net, key, timeout, Str("hcaptcha"), HCaptchaFields(sitekey, pageurl) + extras, LongGrace)
    {
      var (submitted, n1) := Submit(net, key, Str("hcaptcha"), HCaptchaFields(sitekey, pageurl) + extras);
      if submitted.Failure? {
        return Failure(submitted.error), n1;
      }
      var id := submitted.value;
      var n2 := Pause(n1, LongGrace);
      var solution, n3 := GetSolution(n2, id);
      if solution.Failure? {
        return Failure(solution.error), n3;
      }
      r, net' := Success(TwoCaptchaResponse(key, id, Some(solution.value))), n3;
    }

    /** `capy`: the puzzle key, the page and the API server; the solution is kept as the polled text. */
    method Capy(net: Net, captchakey: string, pageurl: string, apiserver: string, extras: Params)
      returns (r: Result<TwoCaptchaResponse>, net': Net)
      requires extras.Keys !! CapyKeywords
      ensures (r, net') == Solved(net, key, timeout, Str("capy"), CapyFields(captchakey, pageurl, apiserver) + extras, LongGrace)
    {
      var (submitted, n1) := Submit(net, key, Str("capy"), CapyFields(captchakey, pageurl, apiserver) + extras);
      if submitted.Failure? {
        return Failure(submitted.error), n1;
      }
      var id := submitted.value;
      var n2 := Pause(n1, LongGrace);
      var solution, n3 := GetSolution(n2, id);
      if solution.Failure? {
        return Failure(solution.error), n3;
      }
      r, net' := Success(TwoCaptchaResponse(key, id, Some(solution.value))), n3;
    }
  }

  // ---------------------------------------------------------------------------
  // What a solve does, stated over the oracle

  /** The task id an accepted first reply carries. */
  function SubmittedId(replies: seq<Reply>): string
    requires ReplyAt(replies, 0).Delivered?
  {
    StripOk(ReplyAt(replies, 0).text)
  }

  /** A rejected submission (an "ERROR" text, or the network) raises at once: one POST, no sleep, no poll. */
  lemma SolveRejected(net: Net, key: string, timeout: int, tag: Value, fields: Params, grace: nat)
    requires FailedReply(ReplyAt(net.replies, 0))
    ensures Solved(net, key, timeout, tag, fields, grace)
         == (Failure(InFailure(ReplyAt(net.replies, 0))),
             Net(Drop(net.replies, 1), net.trace + [Request(POST, InUrl, InParams(key, tag, fields))]))
  {
  }

  /**
   * An accepted submission followed by `k` not-ready replies and a ready one:
   * the response carries the submitted id and the stripped ready text, after
   * one POST, the grace sleep, and `k + 1` polls with a sleep after each of the first `k`.
   */
  lemma SolveReady(net: Net, key: string, timeout: int, tag: Value, fields: Params, grace: nat, k: nat)
    requires !FailedReply(ReplyAt(net.replies, 0))
    requires k < Attempts(timeout)
    requires forall i: nat :: i < k ==> NotReadyReply(ReplyAt(Drop(net.replies, 1), i))
    requires ReadyReply(ReplyAt(Drop(net.replies, 1), k))
    ensures Solved(net, key, timeout, tag, fields, grace)
         == (Success(TwoCaptchaResponse(key, SubmittedId(net.replies), Some(StripOk(ReplyAt(Drop(net.replies, 1), k).text)))),
             Net(Drop(Drop(net.replies, 1), k + 1),
                 net.trace + [Request(POST, InUrl, InParams(key, tag, fields)), Sleep(grace)]
                 + Waiting(GetRequest(key, SubmittedId(net.replies)), k) + [GetRequest(key, SubmittedId(net.replies))]))
  {
    var id := SubmittedId(net.replies);
    var post := Request(POST, InUrl, InParams(key, tag, fields));
    var n2 := Net(Drop(net.replies, 1), net.trace + [post, Sleep(grace)]);
    assert Pause(Submit(net, key, tag, fields).1, grace) == n2;
    PollReady(n2, key, id, Attempts(timeout), k);
  }

  /** An accepted submission and only not-ready replies: the timeout error after exactly `timeout // 5` polls and sleeps. */
  lemma SolveTimesOut(net: Net, key: string, timeout: int, tag: Value, fields: Params, grace: nat)
    requires !FailedReply(ReplyAt(net.replies, 0))
    requires forall i: nat :: i < Attempts(timeout) ==> NotReadyReply(ReplyAt(Drop(net.replies, 1), i))
    ensures Solved(net, key, timeout, tag, fields, grace)
         == (Failure(CaptchaTimeoutError(TimeoutMessage)),
             Net(Drop(Drop(net.replies, 1), Attempts(timeout)),
                 net.trace + [Request(POST, InUrl, InParams(key, tag, fields)), Sleep(grace)]
                 + Waiting(GetRequest(key, SubmittedId(net.replies)), Attempts(timeout))))
  {
    var id := SubmittedId(net.replies);
    var post := Request(POST, InUrl, InParams(key, tag, fields));
    var n2 := Net(Drop(net.replies, 1), net.trace + [post, Sleep(grace)]);
    assert Pause(Submit(net, key, tag, fields).1, grace) == n2;
    PollTimesOut(n2, key, id, Attempts(timeout));
  }

  /** An error during polling propagates and stops the solve: no call after the failing one. */
  lemma SolvePollFails(net: Net, key: string, timeout: int, tag: Value, fields: Params, grace: nat, k: nat)
    requires !FailedReply(ReplyAt(net.replies, 0))
    requires k < Attempts(timeout)
    requires forall i: nat :: i < k ==> NotReadyReply(ReplyAt(Drop(net.replies, 1), i))
    requires FailedReply(ReplyAt(Drop(net.replies, 1), k))
    ensures Solved(net, key, timeout, tag, fields, grace)
         == (Failure(ResFailure(ReplyAt(Drop(net.replies, 1), k))),
             Net(Drop(Drop(net.replies, 1), k + 1),
                 net.trace + [Request(POST, InUrl, InParams(key, tag, fields)), Sleep(grace)]
                 + Waiting(GetRequest(key, SubmittedId(net.replies)), k) + [GetRequest(key, SubmittedId(net.replies))]))
  {
    var id := SubmittedId(net.replies);
    var post := Request(POST, InUrl, InParams(key, tag, fields));
    var n2 := Net(Drop(net.replies, 1), net.trace + [post, Sleep(grace)]);
    assert Pause(Submit(net, key, tag, fields).1, grace) == n2;
    PollFails(n2, key, id, Attempts(timeout), k);
  }

  /** The form `textcaptcha` submits. */
  function TextCaptchaForm(key: string, text: string, language: int, extras: Params): Params {
    InParams(key, TextCaptchaTag(extras), TextCaptchaFields(text, language, extras))
  }

  /** The text captcha's form never holds "lang", and holds "method" only when the caller passes a truthy one. */
  lemma TextCaptchaOmits(key: string, text: string, language: int, extras: Params)
    requires extras.Keys !! TextCaptchaKeywords
    ensures "lang" !in TextCaptchaForm(key, text, language, extras)
    ensures "method" in TextCaptchaForm(key, text, language, extras) <==> "method" in extras && Truthy(extras["method"])
  {
    var fields := TextCaptchaFields(text, language, extras);
    assert "lang" !in fields && "method" !in fields;
    assert "lang" != "key" && "lang" != "soft_id";
    assert "lang" != "method" by { assert "lang"[0] != "method"[0]; }
  }

  /** The text captcha's form carries the question, the alphabet and every other caller keyword verbatim. */
  lemma TextCaptchaKeeps(key: string, text: string, language: int, extras: Params)
    requires extras.Keys !! TextCaptchaKeywords
    ensures TextCaptchaForm(key, text, language, extras)["textcaptcha"] == Str(text)
    ensures TextCaptchaForm(key, text, language, extras)["language"] == Int(language)
    ensures forall k :: k in extras && k != "method" ==> TextCaptchaForm(key, text, language, extras)[k] == extras[k]
  {
    var fields := TextCaptchaFields(text, language, extras);
    assert fields["textcaptcha"] == Str(text) && fields["language"] == Int(language);
    assert forall k :: k in extras && k != "method" ==> fields[k] == extras[k];
  }
}
