/**
 * The wait for a new caption asset to finish processing, after its content
 * was set: the asset is fetched once, then re-fetched while its status is not
 * READY (2) and fewer than ten retries were made, sleeping `retry` seconds
 * before each re-fetch. Every fetch is a remote call that may raise a Kaltura
 * exception; `reply(i)` is the answer to the fetch numbered i (0 is the first
 * fetch), and the sleeps are only added up.
 */
module CaptionWait {

  /** One answer of `captionAsset.get`: the asset's status, or the code of the exception it raised. */
  datatype CaptionReply = Status(value: int) | Raised(error: string)

  /** How the wait ended: the last status seen, how many fetches were made and the seconds slept; or an exception. */
  datatype WaitResult = Settled(status: int, gets: nat, slept: nat) | Failed(error: string)

  const CaptionReady: int := 2
  const MaxRetries: nat := 10

  /** The wait from the fetch numbered `retry` on, having slept `slept` seconds so far. */
  function AwaitFrom(reply: nat -> CaptionReply, retry: nat, slept: nat): (r: WaitResult)
    requires retry <= MaxRetries
    ensures r.Settled? ==> retry < r.gets <= MaxRetries + 1 && slept <= r.slept
    ensures r.Settled? ==> r.status == CaptionReady || r.gets == MaxRetries + 1
    decreases MaxRetries - retry
  {
    match reply(retry)
    case Raised(e) => Failed(e)
    case Status(s) =>
      if s != CaptionReady && retry < MaxRetries then AwaitFrom(reply, retry + 1, slept + retry)
      else Settled(s, retry + 1, slept)
  }

  /** The whole wait: at most eleven fetches, and it settles early only on READY. */
  function Await(reply: nat -> CaptionReply): (r: WaitResult)
    ensures r.Settled? ==> 1 <= r.gets <= MaxRetries + 1
    ensures r.Settled? && r.status != CaptionReady ==> r.gets == MaxRetries + 1
    ensures reply(0).Raised? ==> r == Failed(reply(0).error)
  {
    AwaitFrom(reply, 0, 0)
  }

  /** 0 + 1 + ... + (n - 1): the seconds slept before n re-fetches. */
  function SleepTotal(n: nat): nat {
    if n == 0 then 0 else SleepTotal(n - 1) + (n - 1)
  }

  /** The sleeps before at most ten re-fetches add up to at most 45 seconds. */
  lemma {:induction false} SleepTotalBound(n: nat)
    ensures 2 * SleepTotal(n) == n * (n - 1)
    ensures n <= MaxRetries ==> SleepTotal(n) <= 45
  {
    if n > 0 {
      SleepTotalBound(n - 1);
    }
    if 0 < n <= MaxRetries {
      assert n * (n - 1) <= 10 * (n - 1);
    }
  }

  /** No fetch before the n-th one saw READY or raised. */
  ghost predicate NotReadyBefore(reply: nat -> CaptionReply, n: int) {
    forall i: nat :: i < n ==> reply(i).Status? && reply(i).value != CaptionReady
  }

  lemma {:induction false} AwaitFromMeaning(reply: nat -> CaptionReply, retry: nat)
    requires retry <= MaxRetries
    requires NotReadyBefore(reply, retry)
    ensures match AwaitFrom(reply, retry, SleepTotal(retry))
      case Settled(s, n, slept) =>
        && 1 <= n <= MaxRetries + 1
        && reply(n - 1) == Status(s)
        && (s == CaptionReady || n == MaxRetries + 1)
        && NotReadyBefore(reply, n - 1)
        && slept == SleepTotal(n - 1)
      case Failed(e) =>
        exists n: nat :: n <= MaxRetries && reply(n) == Raised(e) && NotReadyBefore(reply, n)
    decreases MaxRetries - retry
  {
    var r := AwaitFrom(reply, retry, SleepTotal(retry));
    match reply(retry)
    case Raised(e) =>
      assert r == Failed(e);
      assert reply(retry) == Raised(e) && NotReadyBefore(reply, retry);
    case Status(s) =>
      if s != CaptionReady && retry < MaxRetries {
        assert SleepTotal(retry + 1) == SleepTotal(retry) + retry;
        assert r == AwaitFrom(reply, retry + 1, SleepTotal(retry + 1));
        assert NotReadyBefore(reply, retry + 1);
        AwaitFromMeaning(reply, retry + 1);
      } else {
        assert r == Settled(s, retry + 1, SleepTotal(retry));
      }
  }

  /**
   * What the wait promises: it stops at the first READY status or after ten
   * re-fetches, whichever comes first, having made at most eleven fetches and
   * slept at most 45 seconds; an exception from any fetch ends it.
   */
  lemma AwaitMeaning(reply: nat -> CaptionReply)
    ensures match Await(reply)
      case Settled(s, n, slept) =>
        && 1 <= n <= MaxRetries + 1
        && reply(n - 1) == Status(s)
        && (s == CaptionReady || n == MaxRetries + 1)
        && NotReadyBefore(reply, n - 1)
        && slept == SleepTotal(n - 1) <= 45
      case Failed(e) =>
        exists n: nat :: n <= MaxRetries && reply(n) == Raised(e) && NotReadyBefore(reply, n)
  {
    AwaitFromMeaning(reply, 0);
    match Await(reply)
    case Settled(s, n, slept) =>
      SleepTotalBound(n - 1);
    case Failed(e) =>
  }

  /**
   * The loop of `handleProcessing` inside its `try`: one fetch, then up to ten
   * re-fetches, each after sleeping `retry` seconds.
   */
  method AwaitCaption(reply: nat -> CaptionReply) returns (r: WaitResult)
    ensures r == Await(reply)
  {
    var captionObj := reply(0);
    if captionObj.Raised? {
      return Failed(captionObj.error);
    }
    var retry := 0;
    var slept := 0;
    while captionObj.value != CaptionReady && retry < MaxRetries
      invariant retry <= MaxRetries
      invariant captionObj == reply(retry) && captionObj.Status?
      invariant AwaitFrom(reply, retry, slept) == Await(reply)
      decreases MaxRetries - retry
    {
      slept := slept + retry;
      captionObj := reply(retry + 1);
      if captionObj.Raised? {
        return Failed(captionObj.error);
      }
      retry := retry + 1;
    }
    r := Settled(captionObj.value, retry + 1, slept);
  }
}
