/**
 * Concrete exchanges with the service, worked through the model: the
 * documented examples of the protocol and the edge cases of the code as written.
 */
module Scenarios {
  import opened Strings
  import opened Transport
  import opened Protocol
  import Cooperative

  const NotReady := Delivered(NotReadyMarker)

  /** "ERROR" does not occur in the not-ready marker: its only 'E' is too late to start one. */
  lemma NotReadyHasNoError()
    ensures !Contains(NotReadyMarker, ErrorMarker)
  {
    assert NotReadyMarker[..12] == "CAPCHA_NOT_R";
    NoMatchWithout(NotReadyMarker, ErrorMarker, 0);
  }

  /** "OK|" does not occur in the not-ready marker, so stripping leaves it as it is. */
  lemma NotReadyStripsToItself()
    ensures StripOk(NotReadyMarker) == NotReadyMarker
  {
    assert NotReadyMarker[2..16] == "PCHA_NOT_READY";
    NoMatchWithout(NotReadyMarker, OkMarker, 2);
    RemoveAllAbsent(NotReadyMarker, OkMarker);
  }

  /** The service's not-ready reply is classified as not ready. */
  lemma NotReadyIsNotReady()
    ensures NotReadyReply(NotReady)
  {
    NotReadyHasNoError();
    NotReadyStripsToItself();
    ContainsInfix("", NotReadyMarker, "");
    assert "" + NotReadyMarker + "" == NotReadyMarker;
  }

  /** A reply "OK|v" with `v` shorter than every marker is the plain value `v` to both envelopes and to the poll. */
  lemma PlainValue(v: string)
    requires |v| < |OkMarker|
    ensures ClassifyIn(OkMarker + v) == Success(v)
    ensures ClassifyRes(OkMarker + v) == Success(v)
    ensures StripOk(OkMarker + v) == v
    ensures ReadyReply(Delivered(OkMarker + v))
  {
    NoMatchWithout(v, OkMarker, 0);
    NoMatchWithout(v, ErrorMarker, 0);
    SuccessEnvelope(v);
    OkPrefixAddsNoError(v);
    RemoveAllLeading(OkMarker, v);
    RemoveAllAbsent(v, OkMarker);
    NoMatchWithout(v, NotReadyMarker, 0);
  }

  /** Submitting and receiving "OK|abc123" yields the task id "abc123". */
  lemma SubmissionId(net: Net, key: string, tag: Value, fields: Params)
    requires ReplyAt(net.replies, 0) == Delivered("OK|abc123")
    ensures Submit(net, key, tag, fields).0 == Success("abc123")
  {
    var v := "abc123";
    assert v[..4] == "abc1";
    NoMatchWithout(v, OkMarker, 0);
    assert v[..2] == "ab";
    NoMatchWithout(v, ErrorMarker, 0);
    SuccessEnvelope(v);
    assert OkMarker + v == "OK|abc123";
  }

  /**
   * Two not-ready replies (such as `NotReady`) and then "OK|bj", with a
   * timeout that allows three polls or more: the solution "bj" after exactly
   * three polls, a sleep after each of the first two.
   */
  lemma ReadyOnThirdPoll(net: Net, key: string, id: string, timeout: int, wait: Reply)
    requires NotReadyReply(wait)
    requires net == Net([wait, wait, Delivered("OK|bj")], [])
    requires timeout >= 3 * PollInterval
    ensures Poll(net, key, id, Attempts(timeout))
         == (Success("bj"), Net([], [GetRequest(key, id), Sleep(5), GetRequest(key, id), Sleep(5), GetRequest(key, id)]))
  {
    PlainValue("bj");
    assert OkMarker + "bj" == "OK|bj";
    assert ReplyAt(net.replies, 2) == Delivered("OK|bj");
    PollReady(net, key, id, Attempts(timeout), 2);
    var req := GetRequest(key, id);
    assert Waiting(req, 1) == [req, Sleep(5)] + [];
    assert Waiting(req, 2) == [req, Sleep(5)] + [req, Sleep(5)];
    assert net.trace + Waiting(req, 2) + [req] == [req, Sleep(5), req, Sleep(5), req];
    assert Drop(net.replies, 3) == [];
  }

  /**
   * A timeout from 10 up to 14 allows exactly two polls: with only not-ready
   * replies (such as `NotReady`), the poll gives up after two calls and two
   * sleeps and leaves the third reply unread.
   */
  lemma TimeoutAfterTwoPolls(net: Net, key: string, id: string, timeout: int, wait: Reply)
    requires NotReadyReply(wait)
    requires net == Net([wait, wait, wait], [])
    requires 2 * PollInterval <= timeout < 3 * PollInterval
    ensures Poll(net, key, id, Attempts(timeout))
         == (Failure(CaptchaTimeoutError(TimeoutMessage)),
             Net([wait], [GetRequest(key, id), Sleep(5), GetRequest(key, id), Sleep(5)]))
  {
    assert Attempts(timeout) == 2;
    assert forall i: nat :: i < 2 ==> ReplyAt(net.replies, i) == wait;
    PollTimesOut(net, key, id, 2);
    var req := GetRequest(key, id);
    assert Waiting(req, 1) == [req, Sleep(5)] + [];
    assert Waiting(req, 2) == [req, Sleep(5)] + [req, Sleep(5)];
    assert net.trace + Waiting(req, 2) == [req, Sleep(5), req, Sleep(5)];
    assert Drop(net.replies, 2) == [wait];
  }

  /** A timeout below one poll interval allows no call at all: the poll raises at once and the oracle is untouched. */
  lemma ShortTimeoutMakesNoCall(net: Net, key: string, id: string, timeout: int)
    requires timeout < PollInterval
    ensures Poll(net, key, id, Attempts(timeout)) == (Failure(CaptchaTimeoutError(TimeoutMessage)), net)
  {
  }

  /** "CAPTCHA_NOT_READY" holds no error marker: its only 'E' is too late to start one. */
  lemma OtherSpellingHasNoError(text: string)
    requires text == "CAPTCHA_NOT_READY"
    ensures !Contains(text, ErrorMarker)
  {
    assert text[..13] == "CAPTCHA_NOT_R";
    NoMatchWithout(text, ErrorMarker, 0);
  }

  /** "CAPTCHA_NOT_READY" holds no "OK|" (it has no 'K'), so stripping leaves it as it is. */
  lemma OtherSpellingStripsToItself(text: string)
    requires text == "CAPTCHA_NOT_READY"
    ensures StripOk(text) == text
  {
    assert text[2..17] == "PTCHA_NOT_READY";
    NoMatchWithout(text, OkMarker, 2);
    RemoveAllAbsent(text, OkMarker);
  }

  /** "CAPTCHA_NOT_READY" does not hold the service's marker "CAPCHA_NOT_READY". */
  lemma OtherSpellingIsNotTheMarker(text: string)
    requires text == "CAPTCHA_NOT_READY"
    ensures !Contains(text, NotReadyMarker)
  {
    assert text[..16][3] != NotReadyMarker[3];
    assert text[1..][..2] == "AP";
    NoMatchWithout(text[1..], NotReadyMarker, 0);
  }

  /** Hence a reply "CAPTCHA_NOT_READY" is a ready reply whose solution is that very text. */
  lemma OtherSpellingIsReady(text: string)
    requires text == "CAPTCHA_NOT_READY"
    ensures ReadyReply(Delivered(text))
    ensures StripOk(text) == text
  {
    OtherSpellingHasNoError(text);
    OtherSpellingStripsToItself(text);
    OtherSpellingIsNotTheMarker(text);
  }

  /** Only the service's spelling "CAPCHA_NOT_READY" means not ready: a reply "CAPTCHA_NOT_READY" is taken as the solution. */
  lemma OtherSpellingIsASolution(net: Net, key: string, id: string, text: string)
    requires text == "CAPTCHA_NOT_READY"
    requires net == Net([Delivered(text)], [])
    ensures Poll(net, key, id, 1) == (Success(text), Net([], [GetRequest(key, id)]))
  {
    OtherSpellingIsReady(text);
    PollFirstReady(net, key, id, 1);
    assert Drop(net.replies, 1) == [];
    assert net.trace + [GetRequest(key, id)] == [GetRequest(key, id)];
  }

  /** An error reply that also says not ready is an error: the poll stops there. */
  lemma ErrorBeatsNotReady(key: string, id: string)
    ensures Poll(Net([Delivered("ERROR CAPCHA_NOT_READY"), NotReady], []), key, id, 2)
         == (Failure(TwoCaptchaResponseError("ERROR CAPCHA_NOT_READY")), Net([NotReady], [GetRequest(key, id)]))
  {
    var text := "ERROR CAPCHA_NOT_READY";
    ContainsInfix("", ErrorMarker, " CAPCHA_NOT_READY");
    assert "" + ErrorMarker + " CAPCHA_NOT_READY" == text;
    var net := Net([Delivered(text), NotReady], []);
    assert FailedReply(ReplyAt(net.replies, 0));
    PollFirstFails(net, key, id, 2);
    assert Drop(net.replies, 1) == [NotReady];
    assert [] + [GetRequest(key, id)] == [GetRequest(key, id)];
  }

  /** A resolved handle is polled again by a second `get_solution`: two calls, and the second answer replaces the first. */
  lemma SecondRefreshPollsAgain(key: string, id: string)
    ensures var h := Cooperative.HandleState(key, id, 300, None);
            var (first, n1) := Cooperative.Refresh(h, Net([Delivered("OK|a"), Delivered("OK|b")], []));
            && first == Success(h.(solution := Some("a")))
            && var (second, n2) := Cooperative.Refresh(first.value, n1);
               && second == Success(h.(solution := Some("b")))
               && n2 == Net([], [GetRequest(key, id), GetRequest(key, id)])
  {
    var h := Cooperative.HandleState(key, id, 300, None);
    PlainValue("a");
    PlainValue("b");
    assert OkMarker + "a" == "OK|a" && OkMarker + "b" == "OK|b";
    var net := Net([Delivered("OK|a"), Delivered("OK|b")], []);
    PollFirstReady(net, key, id, Attempts(300));
    var n1 := Net([Delivered("OK|b")], [GetRequest(key, id)]);
    PollFirstReady(n1, key, id, Attempts(300));
  }
}
