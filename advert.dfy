/**
 * pkg/statistics/advert.go: the publisher (advertising) statistics endpoints.
 * Every endpoint builds the same query from `PublisherCommonOptions`, fetches
 * a JSON reply whose `base_resp` carries a return code, and turns a non-zero
 * code into an error.
 *
 * The query is modelled as the `url.Values` map before it is encoded; the
 * dates are the strings `time.Format("2006-01-02")` produced, and the reply
 * body is left abstract (`T`).
 */
module Advert {
  import opened Errors

  const MaxPublisherPageSize: int := 90

  type AdSlot = string

  datatype PublisherCommonOptions = PublisherCommonOptions(page: int, pageSize: int, startDate: string, endDate: string)

  /** `url.Values`: each key holds a list of values. */
  type Query = map<string, seq<string>>

  /* ---------- strconv.Itoa ---------- */

  predicate IsDigit(c: char) {
    '0' <= c <= '9'
  }

  function DigitChar(d: nat): (c: char)
    requires d < 10
    ensures IsDigit(c) && c as int - '0' as int == d
  {
    ('0' as int + d) as char
  }

  /** The decimal digits of `n`, most significant first, without leading zeros. */
  function NatToDecimal(n: nat): (s: string)
    ensures |s| >= 1
    decreases n
  {
    if n < 10 then [DigitChar(n)] else NatToDecimal(n / 10) + [DigitChar(n % 10)]
  }

  /** `strconv.Itoa`: a minus sign before the digits of a negative number. */
  function IntToDecimal(n: int): (s: string)
    ensures |s| >= 1
  {
    if n < 0 then "-" + NatToDecimal(-n) else NatToDecimal(n)
  }

  /** The value of a string of decimal digits (the inverse of `NatToDecimal`). */
  function DecimalToNat(s: string): (n: nat)
    decreases |s|
  {
    if s == [] then 0
    else
      var c := s[|s| - 1];
      DecimalToNat(s[..|s| - 1]) * 10 + (if IsDigit(c) then c as int - '0' as int else 0)
  }

  /** The value of an optionally signed decimal string (the inverse of `IntToDecimal`). */
  function DecimalToInt(s: string): (n: int)
  {
    if |s| > 0 && s[0] == '-' then -(DecimalToNat(s[1..]) as int) else DecimalToNat(s)
  }

  /** `NatToDecimal` writes only digits, with no leading zero, and reads back as `n`. */
  lemma {:induction false} NatToDecimalRoundTrip(n: nat)
    ensures forall i :: 0 <= i < |NatToDecimal(n)| ==> IsDigit(NatToDecimal(n)[i])
    ensures NatToDecimal(n)[0] == '0' <==> n == 0
    ensures DecimalToNat(NatToDecimal(n)) == n
    decreases n
  {
    if n >= 10 {
      NatToDecimalRoundTrip(n / 10);
      var s := NatToDecimal(n);
      assert s[..|s| - 1] == NatToDecimal(n / 10);
      assert s[0] == NatToDecimal(n / 10)[0];
    }
  }

  /** `strconv.Itoa` reads back as the number it wrote. */
  lemma IntToDecimalRoundTrip(n: int)
    ensures DecimalToInt(IntToDecimal(n)) == n
    ensures IntToDecimal(n)[0] == '-' <==> n < 0
  {
    if n < 0 {
      NatToDecimalRoundTrip(-n);
      assert IntToDecimal(n)[1..] == NatToDecimal(-n);
    } else {
      NatToDecimalRoundTrip(n);
    }
  }

  /* ---------- PublisherCommonOptions.toUrl ---------- */

  /** The page size sent: at most `MaxPublisherPageSize`, otherwise unchanged. */
  function ClampPageSize(pageSize: int): (r: int)
    ensures r <= MaxPublisherPageSize
    ensures pageSize <= MaxPublisherPageSize ==> r == pageSize
    ensures pageSize > MaxPublisherPageSize ==> r == MaxPublisherPageSize
  {
    if pageSize > MaxPublisherPageSize then MaxPublisherPageSize else pageSize
  }

  /** The query of one statistics request, before `Encode`. */
  function ToUrl(opts: PublisherCommonOptions, action: string, accessToken: string, slot: AdSlot): (q: Query)
    ensures "ad_slot" in q <==> slot != ""
    ensures slot != "" ==> q["ad_slot"] == [slot]
    ensures forall k :: k in q ==> |q[k]| == 1
  {
    var vs := map[
      "action" := [action],
      "access_token" := [accessToken],
      "page" := [IntToDecimal(opts.page)],
      "page_size" := [IntToDecimal(ClampPageSize(opts.pageSize))],
      "start_date" := [opts.startDate],
      "end_date" := [opts.endDate]];
    if slot != "" then vs["ad_slot" := [slot]] else vs
  }

  /** The six common keys are always present, and carry the options' values. */
  lemma ToUrlCommonKeys(opts: PublisherCommonOptions, action: string, accessToken: string, slot: AdSlot)
    ensures var q := ToUrl(opts, action, accessToken, slot);
      && q.Keys == {"action", "access_token", "page", "page_size", "start_date", "end_date"} + (if slot != "" then {"ad_slot"} else {})
      && q["action"] == [action] && q["access_token"] == [accessToken]
      && DecimalToInt(q["page"][0]) == opts.page
      && q["start_date"] == [opts.startDate] && q["end_date"] == [opts.endDate]
  {
    IntToDecimalRoundTrip(opts.page);
  }

  /** The `page_size` sent reads back as the clamped size: never above 90, unchanged up to 90. */
  lemma ToUrlClampsPageSize(opts: PublisherCommonOptions, action: string, accessToken: string, slot: AdSlot)
    ensures var sent := DecimalToInt(ToUrl(opts, action, accessToken, slot)["page_size"][0]);
      && sent <= MaxPublisherPageSize
      && (opts.pageSize <= MaxPublisherPageSize ==> sent == opts.pageSize)
      && (opts.pageSize > MaxPublisherPageSize ==> sent == MaxPublisherPageSize)
  {
    IntToDecimalRoundTrip(ClampPageSize(opts.pageSize));
  }

  /* ---------- BaseResp.IsError ---------- */

  datatype BaseResp = BaseResp(errMsg: string, ret: int)

  const TooFrequent := "请求过于频繁, 请稍后尝试"
  const InvalidApi := "无效的接口名"
  const BadParameter := "参数错误"
  const InvalidPublisher := "无效的流量主"

  /** The text a known return code is reported with. */
  function KnownText(ret: int): (r: Option<string>)
    ensures r.Some? <==> ret in {45009, 45010, 1701, 2009}
  {
    if ret == 45009 then Some(TooFrequent)
    else if ret == 45010 then Some(InvalidApi)
    else if ret == 1701 then Some(BadParameter)
    else if ret == 2009 then Some(InvalidPublisher)
    else None
  }

  /** `fmt.Errorf("ret: %d, err msg: %s", ret, text)`. */
  function RetMessage(ret: int, text: string): (m: string)
    ensures |m| > 5 && m[..5] == "ret: "
  {
    "ret: " + IntToDecimal(ret) + ", err msg: " + text
  }

  /**
   * `IsError` as written: the default branch passes the string `ErrMsg` to a
   * `%d` verb, so Go prints `%!d(string=…)` in place of the code, and it
   * reports every unknown code with the text of 2009.
   */
  function IsErrorAsWritten(br: BaseResp): (r: (bool, Option<string>))
    ensures r.0 <==> br.ret != 0
    ensures r.1.Some? <==> r.0
  {
    if br.ret == 0 then (false, None)
    else
      match KnownText(br.ret)
      case Some(text) => (true, Some(RetMessage(br.ret, text)))
      case None => (true, Some("ret: %!d(string=" + br.errMsg + "), err msg: " + InvalidPublisher))
  }

  /**
   * `IsError` corrected: the default branch reports the return code and the
   * platform's own `err_msg`.
   */
  function IsError(br: BaseResp): (r: (bool, Option<string>))
    ensures r.0 <==> br.ret != 0
    ensures r.1.Some? <==> r.0
  {
    if br.ret == 0 then (false, None)
    else
      match KnownText(br.ret)
      case Some(text) => (true, Some(RetMessage(br.ret, text)))
      case None => (true, Some(RetMessage(br.ret, br.errMsg)))
  }

  /** The four known codes get their own texts, in both versions. */
  lemma KnownCodesReported(br: BaseResp)
    requires br.ret in {45009, 45010, 1701, 2009}
    ensures IsError(br) == IsErrorAsWritten(br)
    ensures IsError(br).1 == Some(RetMessage(br.ret, KnownText(br.ret).value))
    ensures br.ret == 45009 ==> IsError(br).1 == Some("ret: 45009, err msg: " + TooFrequent)
  {
    if br.ret == 45009 {
      assert IntToDecimal(45009) == "45009";
      assert RetMessage(45009, TooFrequent) == "ret: 45009, err msg: " + TooFrequent;
    }
  }

  /** Corrected: every error message starts with the code, which reads back. */
  lemma IsErrorReportsCode(br: BaseResp)
    requires br.ret != 0
    ensures var m := IsError(br).1.value; var code := IntToDecimal(br.ret);
      && m[..5 + |code|] == "ret: " + code
      && DecimalToInt(m[5..5 + |code|]) == br.ret
  {
    IntToDecimalRoundTrip(br.ret);
    var m := IsError(br).1.value;
    var code := IntToDecimal(br.ret);
    assert m[5..5 + |code|] == code;
  }

  /** Corrected: an unknown code carries the platform's own message. */
  lemma IsErrorKeepsPlatformMessage(br: BaseResp)
    requires br.ret != 0 && KnownText(br.ret).None?
    ensures var m := IsError(br).1.value; |m| >= |br.errMsg| && m[|m| - |br.errMsg|..] == br.errMsg
  {
  }

  /** As written: for code 40001 the message does not carry the code. */
  lemma AsWrittenLosesCode()
    ensures var br := BaseResp("invalid credential", 40001);
      && IsErrorAsWritten(br).0
      && IsErrorAsWritten(br).1.value[5] == '%'
      && IsError(br).1.value[5] == '4'
      && IsErrorAsWritten(br).1.value[..5 + |IntToDecimal(40001)|] != "ret: " + IntToDecimal(40001)
  {
    assert IntToDecimal(40001) == "40001";
  }

  /* ---------- the error gate of GetPublisher* ---------- */

  /** A decoded reply: its `base_resp` and the rest of the body. */
  datatype Reply<+T> = Reply(base: BaseResp, body: T)

  /** A fetch error is returned as it is; a non-zero code becomes its `IsError` message. */
  function Gate<T>(fetched: Result<Reply<T>>): (r: Result<T>)
    ensures r.Ok? <==> fetched.Ok? && fetched.value.base.ret == 0
    ensures r.Ok? ==> r.value == fetched.value.body
    ensures fetched.Err? ==> r == Err(fetched.error)
    ensures fetched.Ok? && fetched.value.base.ret != 0 ==> r == Err(PublisherFault(IsError(fetched.value.base).1.value))
  {
    match fetched
    case Err(e) => Err(e)
    case Ok(reply) =>
      var (bad, msg) := IsError(reply.base);
      if bad then Err(PublisherFault(msg.value)) else Ok(reply.body)
  }

  function AdPosGeneralQuery(accessToken: string, slot: AdSlot, opts: PublisherCommonOptions): (q: Query)
    ensures "action" in q && q["action"] == ["publisher_adpos_general"]
    ensures "ad_slot" in q <==> slot != ""
  {
    ToUrl(opts, "publisher_adpos_general", accessToken, slot)
  }

  /** The query of the endpoints without an ad slot: CPS goods and settlement. */
  function SlotlessQuery(action: string, accessToken: string, opts: PublisherCommonOptions): (q: Query)
    ensures "action" in q && q["action"] == [action]
    ensures "ad_slot" !in q
  {
    ToUrl(opts, action, accessToken, "")
  }

  /**
   * The three endpoints; `getJson` is the platform's decoded reply to a query.
   * Each succeeds exactly when the fetch succeeds with return code 0.
   */
  function GetPublisherAdPosGeneral<T>(getJson: Query -> Result<Reply<T>>, accessToken: string, slot: AdSlot,
                                       opts: PublisherCommonOptions): (r: Result<T>)
    ensures var fetched := getJson(AdPosGeneralQuery(accessToken, slot, opts));
      r.Ok? <==> fetched.Ok? && fetched.value.base.ret == 0
  {
    Gate(getJson(AdPosGeneralQuery(accessToken, slot, opts)))
  }

  function GetPublisherCpsGeneral<T>(getJson: Query -> Result<Reply<T>>, accessToken: string,
                                     opts: PublisherCommonOptions): (r: Result<T>)
    ensures var fetched := getJson(SlotlessQuery("publisher_cps_general", accessToken, opts));
      r.Ok? <==> fetched.Ok? && fetched.value.base.ret == 0
  {
    Gate(getJson(SlotlessQuery("publisher_cps_general", accessToken, opts)))
  }

  function GetPublisherSettlement<T>(getJson: Query -> Result<Reply<T>>, accessToken: string,
                                     opts: PublisherCommonOptions): (r: Result<T>)
    ensures var fetched := getJson(SlotlessQuery("publisher_settlement", accessToken, opts));
      r.Ok? <==> fetched.Ok? && fetched.value.base.ret == 0
  {
    Gate(getJson(SlotlessQuery("publisher_settlement", accessToken, opts)))
  }

  /**
   * The gate built on the as-written `IsError` rejects exactly the same replies,
   * with the same message for the four known codes; only an unknown code's
   * message differs, as `AsWrittenLosesCode` shows.
   */
  lemma GateAgainstAsWritten<T>(fetched: Result<Reply<T>>)
    ensures Gate(fetched).Ok? <==> fetched.Ok? && !IsErrorAsWritten(fetched.value.base).0
    ensures fetched.Ok? && fetched.value.base.ret in {45009, 45010, 1701, 2009} ==>
      Gate(fetched) == Err(PublisherFault(IsErrorAsWritten(fetched.value.base).1.value))
  {
    if fetched.Ok? && fetched.value.base.ret in {45009, 45010, 1701, 2009} {
      KnownCodesReported(fetched.value.base);
    }
  }

  /** A non-zero return code always yields an error and no response object. */
  lemma NonZeroRetRejected<T>(getJson: Query -> Result<Reply<T>>, accessToken: string, slot: AdSlot,
                              opts: PublisherCommonOptions)
    ensures var q := AdPosGeneralQuery(accessToken, slot, opts);
      getJson(q).Ok? && getJson(q).value.base.ret != 0 ==>
        GetPublisherAdPosGeneral(getJson, accessToken, slot, opts) == Err(PublisherFault(IsError(getJson(q).value.base).1.value))
    ensures var q := SlotlessQuery("publisher_cps_general", accessToken, opts);
      getJson(q).Ok? && getJson(q).value.base.ret != 0 ==>
        GetPublisherCpsGeneral(getJson, accessToken, opts) == Err(PublisherFault(IsError(getJson(q).value.base).1.value))
    ensures var q := SlotlessQuery("publisher_settlement", accessToken, opts);
      getJson(q).Ok? && getJson(q).value.base.ret != 0 ==>
        GetPublisherSettlement(getJson, accessToken, opts) == Err(PublisherFault(IsError(getJson(q).value.base).1.value))
  {
  }
}
