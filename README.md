# SolveCaptcha client protocol, in Dafny

SolveCaptcha is a Python client for the 2Captcha solving service. Every
captcha type is solved by the same three-step protocol against two HTTP
endpoints:

1. **Submit.** One POST to `https://2captcha.com/in.php`. The form holds the
   API key, `soft_id = "2621"`, the captcha type as `method` (only when it is
   truthy) and the caller's keywords on top. The reply carries a task id.
2. **Poll.** At most `timeout // 5` GETs to `https://2captcha.com/res.php`
   with `action = "get"` and the task id, with a five-second sleep after each
   reply that says `CAPCHA_NOT_READY`. When the attempts run out the client
   raises `CaptchaTimeoutError`.
3. **Result.** A response object holding the key, the task id and the
   solution, which can report the answer good or bad.

A reply holding `ERROR` anywhere is an error (`TwoCaptchaInputError` from the
submission endpoint, `TwoCaptchaResponseError` from the result endpoint).
Otherwise every `OK|` in it is deleted and the rest is the value.

The protocol exists twice: blocking (`solvecaptcha/twocaptcha.py`) and
cooperative on asyncio (`solvecaptcha/aiotwocaptcha.py`). In the cooperative
client a solve method with `wait = False` returns the unresolved handle, and
`get_solution` on the handle fills in its `solution`.

The network is an oracle. A `Transport.Net` holds the replies the service
will give, consumed one per request; past its end every request fails. It
also holds a trace in which every request (verb, URL, parameters) and every
sleep is recorded in order. Pure parts of the client are functions over a
`Net`. The poll loops are methods with `for` loops, proved against the
recursive function `Protocol.Poll`. The cooperative handle is a class whose
`solution` field the loop updates.

Modules:

- `strings.dfy` (`Strings`): Python's `in` on strings (`Contains`) and
  `str.replace(pat, "")` (`RemoveAll`).
- `transport.dfy` (`Transport`): parameter values with Python truthiness,
  requests, replies and the oracle.
- `protocol.dfy` (`Protocol`): the constants, the exceptions, `_in`/`_res`
  (`Submit`/`Query`), the envelope rule and the bounded poll.
- `blocking.dfy` (`Blocking`): `TwoCaptcha` and `TwoCaptchaResponse`.
- `cooperative.dfy` (`Cooperative`): `AIOTwoCaptcha` and
  `AIOTwoCaptchaResponse`.
- `scenarios.dfy` (`Scenarios`): concrete exchanges worked through the model.

The two clients' `_in` and `_res` have the same meaning, so both are modelled
once, as `Protocol.Submit` and `Protocol.Query`
(`solvecaptcha/aiotwocaptcha.py:30-51` is the cooperative copy).

The model follows the code as written, including where it departs from the protocol's evident design:

- **No caching.** The cooperative `get_solution` does not check whether a
  solution is already held. A second call polls the service again and
  replaces the solution (`Cooperative.RefreshIgnoresSolution`,
  `Scenarios.SecondRefreshPollsAgain`).
- **Marker spelling.** The not-ready marker the code looks for is the
  service's spelling `CAPCHA_NOT_READY`. A reply spelled `CAPTCHA_NOT_READY`
  is taken as a solution (`Scenarios.OtherSpellingIsASolution`).
- **Tested text.** The marker is looked for in the text after `OK|` has been
  deleted. `ERROR` is looked for in the raw text.
- **Short timeouts.** A timeout below 5 gives zero attempts and an immediate
  `CaptchaTimeoutError`. A negative timeout does the same.
- **Cooperative solve methods.** `captcha`, `textcaptcha`, `hcaptcha` and
  `capy` are plain `def`s that use `await`, which Python does not accept. They
  are modelled as `async def recaptcha_v2` evidently intends: submit, build
  the handle, and with `wait`, sleep and await `get_solution`.
- **The text captcha's `method`.** `textcaptcha` passes its `**kwargs`
  straight to `_in`. So the form holds no `method` unless the caller passes a
  truthy `method` keyword, which then binds to `_in`'s `method` parameter
  (`Blocking.TextCaptchaTag`). `lang` is accepted and never sent.

Python `TypeError`s on keyword binding are preconditions: a caller keyword
repeating a keyword the solve method passes to `_in` itself, or naming one of
that method's own parameters. Default argument values (a timeout of 300,
`lang = "en"`, `language = 0`, `wait = True`) are ordinary parameters; the
model passes them explicitly.

## Model

| member | source | states |
|---|---|---|
| Protocol.InParamsShape | solvecaptcha/twocaptcha.py:23-29 | The submission form holds exactly `key`, `soft_id`, `method` when the tag is truthy, and the caller's keys. Every caller value is kept, overriding on collision. `key`, `soft_id = "2621"` and the tag keep their values where not overridden. |
| Protocol.ResParamsShape | solvecaptcha/twocaptcha.py:36-39 | The result query holds exactly `key`, `action` and the caller's keys, with the caller's values winning on collision. |
| Protocol.Submit | solvecaptcha/twocaptcha.py:23-34 | Exactly one POST to `/in.php` with the assembled form, consuming one reply. A reply containing `ERROR` raises the input error with that text, and an unreachable service is the transport error. Any other reply yields the text with every `OK|` deleted. |
| Protocol.Query | solvecaptcha/twocaptcha.py:36-44 | Exactly one GET to `/res.php` with the assembled query, consuming one reply. A reply containing `ERROR` raises the response error with that text, and an unreachable service is the transport error. Any other reply yields the text with every `OK|` deleted. |
| Protocol.OkPrefixAddsNoError | solvecaptcha/twocaptcha.py:32-34 | Putting `OK|` in front of a text never creates or hides an `ERROR`. |
| Protocol.SuccessEnvelope | solvecaptcha/twocaptcha.py:31-34 | `OK|v`, with `v` free of both markers, yields exactly `v` from either endpoint. |
| Protocol.ErrorWins | solvecaptcha/twocaptcha.py:42-43 | Any text with `ERROR` anywhere in it is an error carrying the whole text from either endpoint, whatever else it says. |
| Protocol.Report | solvecaptcha/twocaptcha.py:57-61 | A feedback call is exactly one GET with `key`, the action and `id`, consuming one reply. It fails exactly when the reply is an error, and then raises that error. |
| Protocol.Attempts | solvecaptcha/twocaptcha.py:86 | `range(timeout // 5)` has zero iterations below 5 and otherwise `n` with `5n <= timeout < 5(n+1)`. |
| Protocol.WaitingShape | solvecaptcha/twocaptcha.py:87-90 | `k` not-ready rounds in the trace are `2k` events alternating the `get` request and a five-unit sleep. |
| Protocol.PollStep | solvecaptcha/twocaptcha.py:87-90 | A not-ready reply costs one request and one five-unit sleep, then the loop goes on with one attempt fewer. |
| Protocol.PollFirstReady | solvecaptcha/twocaptcha.py:87-91 | A first reply that is neither an error nor not-ready is returned after one call and no sleep. |
| Protocol.PollFirstFails | solvecaptcha/twocaptcha.py:87 | A first reply that is an error stops the loop after one call, raising that error. |
| Protocol.PollSkips | solvecaptcha/twocaptcha.py:86-90 | `k` not-ready replies cost `k` requests and `k` sleeps and leave `attempts - k` attempts. |
| Protocol.PollReady | solvecaptcha/twocaptcha.py:86-91 | When the replies at positions `0..k-1` are not ready and reply `k` is ready, the poll yields reply `k`'s stripped text. It does so after exactly `k + 1` calls, with a sleep after each of the first `k`, and no reply beyond `k` is consumed. |
| Protocol.PollFails | solvecaptcha/twocaptcha.py:86-93 | An error reply after `k` not-ready ones stops the poll after exactly `k + 1` calls, raising that error. No later call is made. |
| Protocol.PollTimesOut | solvecaptcha/twocaptcha.py:86-93 | If all the replies are not ready, the timeout error is raised after exactly `attempts` calls and `attempts` sleeps. |
| Blocking.TwoCaptchaResponse.ReportGood | solvecaptcha/twocaptcha.py:57-58 | One GET with `action = "reportgood"` and this response's id, whatever the solution is. Its error propagates. |
| Blocking.TwoCaptchaResponse.ReportBad | solvecaptcha/twocaptcha.py:60-61 | One GET with `action = "reportbad"` and this response's id. Its error propagates. |
| Blocking.TwoCaptcha.constructor | solvecaptcha/twocaptcha.py:70-83 | The client keeps the key and the timeout it is given. |
| Blocking.TwoCaptcha.GetSolution | solvecaptcha/twocaptcha.py:85-93 | The `for` loop makes the same calls and sleeps and ends the same way as the bounded poll `Poll(net, key, id, timeout // 5)`. |
| Blocking.TwoCaptcha.Captcha | solvecaptcha/twocaptcha.py:128-134 | Submits `method = "base64"` with `body`, `textinstructions` and the caller's keywords. Then it sleeps 5, polls, and wraps the key, the id and the solution. |
| Blocking.TwoCaptcha.TextCaptcha | solvecaptcha/twocaptcha.py:161-167 | Submits `textcaptcha` and `language` with the caller's keywords, and the caller's `method` as the tag. Then it sleeps 5, polls and wraps. |
| Blocking.TwoCaptcha.RecaptchaV2 | solvecaptcha/twocaptcha.py:184-190 | Submits `method = "userrecaptcha"` with `googlekey` and `pageurl`. Then it sleeps 20, polls and wraps. |
| Blocking.TwoCaptcha.HCaptcha | solvecaptcha/twocaptcha.py:193-199 | Submits `method = "hcaptcha"` with `sitekey` and `pageurl`. Then it sleeps 20, polls and wraps. |
| Blocking.TwoCaptcha.Capy | solvecaptcha/twocaptcha.py:202-208 | Submits `method = "capy"` with `captchakey`, `pageurl` and `apiserver`. Then it sleeps 20, polls and wraps the polled text. |
| Blocking.SolveRejected | solvecaptcha/twocaptcha.py:128 | A rejected submission raises at once after one POST, with no sleep and no poll. |
| Blocking.SolveReady | solvecaptcha/twocaptcha.py:128-134 | An accepted submission, `k` not-ready replies and then a ready one: the response carries the submitted id and the stripped ready text. This takes one POST, the grace sleep, `k + 1` polls and `k` sleeps. |
| Blocking.SolveTimesOut | solvecaptcha/twocaptcha.py:128-132 | An accepted submission followed only by not-ready replies raises the timeout error. This takes one POST, the grace sleep, and exactly `timeout // 5` polls and sleeps. |
| Blocking.SolvePollFails | solvecaptcha/twocaptcha.py:128-132 | An error during polling propagates out of the solve method, with no call after the failing one. |
| Blocking.TextCaptchaOmits | solvecaptcha/twocaptcha.py:136-161 | The text captcha's form never holds `lang`. It holds `method` exactly when the caller passes a truthy `method`. |
| Blocking.TextCaptchaKeeps | solvecaptcha/twocaptcha.py:161 | The text captcha's form carries the question, the alphabet and every other caller keyword unchanged. |
| Cooperative.AIOTwoCaptchaResponse.constructor | solvecaptcha/aiotwocaptcha.py:56-63 | A fresh handle holds the given key, id and timeout, and no solution. |
| Cooperative.AIOTwoCaptchaResponse.GetSolution | solvecaptcha/aiotwocaptcha.py:65-74 | The loop makes the bounded poll's calls and sleeps. On a ready reply it sets `solution` to that text and returns this handle. On a response error or a timeout it raises and leaves the handle as it was. |
| Cooperative.AIOTwoCaptchaResponse.ReportGood | solvecaptcha/aiotwocaptcha.py:76-77 | One GET with `action = "reportgood"` and the handle's id. Its error propagates. |
| Cooperative.AIOTwoCaptchaResponse.ReportBad | solvecaptcha/aiotwocaptcha.py:79-80 | One GET with `action = "reportbad"` and the handle's id. Its error propagates. |
| Cooperative.AIOTwoCaptcha.constructor | solvecaptcha/aiotwocaptcha.py:89-101 | The client keeps the key and the timeout it is given. |
| Cooperative.AIOTwoCaptcha.Captcha | solvecaptcha/aiotwocaptcha.py:136-144 | Submits as the blocking `captcha` does and builds a fresh handle from the client's key and timeout. With `wait` it sleeps 5 and drives the handle's poll. Without `wait` it returns the handle unresolved. |
| Cooperative.AIOTwoCaptcha.TextCaptcha | solvecaptcha/aiotwocaptcha.py:171-179 | The same as `Captcha`, with the text captcha's form and a grace sleep of 5. |
| Cooperative.AIOTwoCaptcha.RecaptchaV2 | solvecaptcha/aiotwocaptcha.py:206-214 | The same, with the reCAPTCHA form and a grace sleep of 20. |
| Cooperative.AIOTwoCaptcha.HCaptcha | solvecaptcha/aiotwocaptcha.py:217-225 | The same, with the hCaptcha form and a grace sleep of 20. |
| Cooperative.AIOTwoCaptcha.Capy | solvecaptcha/aiotwocaptcha.py:228-236 | The same, with the Capy form and a grace sleep of 20. The solution stays the polled text. |
| Cooperative.NoWaitIsPending | solvecaptcha/aiotwocaptcha.py:206-214 | Without `wait`, an accepted submission returns a handle with the submitted id and no solution. This takes exactly one POST and no result-endpoint call. |
| Cooperative.WaitMatchesBlocking | solvecaptcha/aiotwocaptcha.py:206-212 | With `wait`, the cooperative solve makes the same requests and sleeps as the blocking solve and ends the same way: the same id and solution, or the same error. |
| Cooperative.DeferredRefresh | solvecaptcha/aiotwocaptcha.py:65-72 | Refreshing an unresolved handle later, after the grace sleep, gives exactly what the `wait` path gives. |
| Cooperative.RefreshIgnoresSolution | solvecaptcha/aiotwocaptcha.py:65-72 | The solution a handle already holds has no effect on what `get_solution` requests or returns, so nothing is cached. |
| Cooperative.RefreshChangesOnlySolution | solvecaptcha/aiotwocaptcha.py:71-72 | A successful `get_solution` sets `solution` and changes nothing else about the handle. |
| Strings.ContainsIff | solvecaptcha/twocaptcha.py:32 | `Contains` is Python's `in` on strings: it holds exactly when the pattern occurs at some index. |
| Strings.ContainsInfix | solvecaptcha/twocaptcha.py:32 | A text built around the pattern contains it. |
| Strings.NoMatchWithout | solvecaptcha/twocaptcha.py:88 | A text in which one character of the pattern never appears where it would have to cannot contain the pattern. |
| Strings.RemoveAllAbsent | solvecaptcha/twocaptcha.py:34 | Deleting a pattern that does not occur leaves the text unchanged. |
| Strings.RemoveAllLength | solvecaptcha/twocaptcha.py:34 | Deleting takes away exactly the pattern's length once for each non-overlapping occurrence. |
| Strings.RemoveAllLeading | solvecaptcha/twocaptcha.py:34 | Deleting from a text that starts with the pattern drops that copy and deletes in the rest. |
| Strings.RemoveAllMayLeavePattern | solvecaptcha/twocaptcha.py:34 | One pass of `replace` can leave an `OK|` behind: `"OOK|K|"` becomes `"OK|"`. |
| Scenarios.NotReadyIsNotReady | solvecaptcha/twocaptcha.py:88 | The service's reply `CAPCHA_NOT_READY` counts as not ready. |
| Scenarios.PlainValue | solvecaptcha/twocaptcha.py:31-34 | A reply `OK|v` with a short `v` is the value `v` to both endpoints and counts as ready. |
| Scenarios.SubmissionId | solvecaptcha/twocaptcha.py:31-34 | The submission reply `OK|abc123` yields the task id `abc123`. |
| Scenarios.ReadyOnThirdPoll | solvecaptcha/twocaptcha.py:85-91 | Two not-ready replies then `OK|bj`, with a timeout of 15 or more, give `bj` after three GETs and two sleeps. |
| Scenarios.TimeoutAfterTwoPolls | solvecaptcha/twocaptcha.py:85-93 | A timeout from 10 to 14 allows exactly two polls. With only not-ready replies, the timeout error comes after two GETs and two sleeps, and the third reply is left unread. |
| Scenarios.ShortTimeoutMakesNoCall | solvecaptcha/twocaptcha.py:86-93 | A timeout below 5 raises the timeout error without any request. |
| Scenarios.OtherSpellingIsReady | solvecaptcha/twocaptcha.py:88 | `CAPTCHA_NOT_READY` does not contain the marker, so it counts as a ready reply. |
| Scenarios.OtherSpellingIsASolution | solvecaptcha/twocaptcha.py:86-91 | A reply `CAPTCHA_NOT_READY` is returned as the solution after one GET. |
| Scenarios.ErrorBeatsNotReady | solvecaptcha/twocaptcha.py:42-43 | `ERROR CAPCHA_NOT_READY` is a response error: the poll stops after one call and leaves the next reply unread. |
| Scenarios.SecondRefreshPollsAgain | solvecaptcha/aiotwocaptcha.py:65-72 | Calling `get_solution` twice on a handle makes two GETs, and the second answer replaces the first. |

## Left out

- The HTTP transport (`requests.get`/`post`, the aiohttp `ClientSession` wrappers) is replaced by the reply oracle and the request trace. HTTP status codes, headers and the encoding of the form and query string are not modelled. A connection failure is the single error `TransportError`.
- `requests` drops `None`-valued query and form entries when it encodes them. The model sends the parameter map as the client builds it.
- `time.sleep`, `asyncio.sleep` and the event-loop scheduling of `await` are recorded as `Sleep` events in the trace. Wall-clock time and interleaving with other coroutines are not modelled.
- Blocking.TwoCaptcha.Capy: the solution is the polled text. `json.loads` on it (solvecaptcha/twocaptcha.py:206), and the decode error it can raise, are a foreign JSON parser and are not modelled.
- `_get_balance`, `balance` and `TwoCaptcha.__repr__` parse a float and format text. The response classes' `__repr__` is presentation only. None of them is modelled.
- `TwoCaptchaBase.key = None` as a class attribute is not modelled: every client and handle is built with a key.
- Arguments of the wrong type (a non-string key, a non-integer timeout) are outside the typed model.
- Python `TypeError`s on keyword binding are preconditions (`requires extras.Keys !! …Keywords`), not error results.
- `solvecaptcha/errors.py` is the `Protocol.Error` datatype. Its class hierarchy is not modelled.
- The example scripts and `setup.py` are not part of this model.
