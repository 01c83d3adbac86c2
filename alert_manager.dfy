/** Alert routing and delivery (core/logging/alert_manager.py): an AlertManager holds
    shared routing tables and per-channel defaults; an alert becomes a job that, when
    a worker runs it, checks the quiet-hours rule, resolves a webhook and secret,
    signs the request and posts it at most three times.

    Foreign pieces are parameters: `hmac(key, message)` stands for
    base64(HMAC-SHA256(key.encode("utf-8"), message.encode("utf-8"))); `respond(i)`
    is what the i-th requests.post of a job gives back; the wall clock at run time is
    `today` (a date) and `clockMs` (time.time() in milliseconds). Sleeps are recorded,
    not performed. */
module AlertManager {
  import opened Wrappers
  import opened Text
  import opened Decimal
  import opened Json
  import opened Calendar

  datatype Channel = Feishu | DingTalk

  // ------------------------------------------------------------ routing key

  /** [0-9]+\.[A-Z]+ matches at the start of t (the regex may backtrack into the digits). */
  ghost predicate TailMatches(t: string) {
    exists k :: 1 <= k < |t| - 1 && AllDigits(t[..k]) && t[k] == '.' && IsUpper(t[k + 1])
  }

  /** ([a-zA-Z]{1,2})[0-9]+\.[A-Z]+ matches at the start of s with a group of n letters. */
  ghost predicate PatternAt(s: string, n: nat) {
    1 <= n <= 2 && n <= |s| && (forall i :: 0 <= i < n ==> IsAsciiLetter(s[i])) && TailMatches(s[n..])
  }

  /** Length of the run of digits s starts with. */
  function LeadingDigits(s: string): (k: nat)
    ensures k <= |s| && AllDigits(s[..k])
    ensures k < |s| ==> !IsDigit(s[k])
  {
    if |s| > 0 && IsDigit(s[0]) then
      var k := 1 + LeadingDigits(s[1..]);
      assert s[..k] == [s[0]] + s[1..][..k - 1];
      k
    else 0
  }

  /** The deterministic test the regex engine ends up making for the tail. */
  function TailOk(t: string): (b: bool)
    ensures b <==> TailMatches(t)
  {
    var k := LeadingDigits(t);
    var b := 1 <= k < |t| - 1 && t[k] == '.' && IsUpper(t[k + 1]);
    assert TailMatches(t) ==> b by {
      if TailMatches(t) {
        var j :| 1 <= j < |t| - 1 && AllDigits(t[..j]) && t[j] == '.' && IsUpper(t[j + 1]);
        // the digit run cannot stop before j (t[..j] is digits), nor pass the '.' at j
        assert forall i :: 0 <= i < j ==> IsDigit(t[i]) by {
          forall i | 0 <= i < j ensures IsDigit(t[i]) { assert t[..j][i] == t[i]; }
        }
        assert j == k;
      }
    }
    b
  }

  /** _extract_commodity_code: re.match of ([a-zA-Z]{1,2})[0-9]+\.[A-Z]+ (anchored at the
      start only), trying two letters before one, and returning group 1. */
  function ExtractCommodityCode(s: string): (r: Option<string>)
    ensures r.Some? <==> PatternAt(s, 1) || PatternAt(s, 2)
    ensures PatternAt(s, 2) ==> r == Some(s[..2])
    ensures PatternAt(s, 1) && !PatternAt(s, 2) ==> r == Some(s[..1])
  {
    if s == [] then None
    else if |s| >= 2 && IsAsciiLetter(s[0]) && IsAsciiLetter(s[1]) && TailOk(s[2..]) then Some(s[..2])
    else if IsAsciiLetter(s[0]) && TailOk(s[1..]) then Some(s[..1])
    else None
  }

  /** "rb2510.SHFE" routes as "rb": two letters, then digits, a dot and an upper-case exchange. */
  lemma ExtractTwoLetterCode()
    ensures ExtractCommodityCode("rb2510.SHFE") == Some("rb")
  {
    assert "rb2510.SHFE"[2..] == "2510.SHFE";
    ShfeTail();
    assert "rb2510.SHFE"[..2] == "rb";
  }

  /** "MA601.CZCE" routes as "MA". */
  lemma ExtractCzceCode()
    ensures ExtractCommodityCode("MA601.CZCE") == Some("MA")
  {
    assert "MA601.CZCE"[2..] == "601.CZCE";
    CzceTail();
    assert "MA601.CZCE"[..2] == "MA";
  }

  lemma CzceTail()
    ensures TailOk("601.CZCE")
  {
    var t := "601.CZCE";
    assert t[1..] == "01.CZCE" && t[1..][1..] == "1.CZCE" && t[1..][1..][1..] == ".CZCE";
    assert LeadingDigits(t) == 3;
  }

  lemma ShfeTail()
    ensures TailOk("2510.SHFE")
  {
    var t := "2510.SHFE";
    assert t[1..] == "510.SHFE" && t[1..][1..] == "10.SHFE";
    assert t[1..][1..][1..] == "0.SHFE" && t[1..][1..][1..][1..] == ".SHFE";
    assert LeadingDigits(t) == 4;
  }

  /** "i2601.DCE" routes as "i": the second character is a digit, so only one letter is taken. */
  lemma ExtractOneLetterCode()
    ensures ExtractCommodityCode("i2601.DCE") == Some("i")
  {
    assert "i2601.DCE"[1..] == "2601.DCE";
    DceTail();
    assert !IsAsciiLetter("i2601.DCE"[1]);
    assert "i2601.DCE"[..1] == "i";
  }

  lemma DceTail()
    ensures TailOk("2601.DCE")
  {
    var t := "2601.DCE";
    assert t[1..] == "601.DCE" && t[1..][1..] == "01.DCE";
    assert t[1..][1..][1..] == "1.DCE" && t[1..][1..][1..][1..] == ".DCE";
    assert LeadingDigits(t) == 4;
  }

  /** A bare code and an exchange suffix in lower case do not match. */
  lemma ExtractRejects()
    ensures ExtractCommodityCode("rb") == None
    ensures ExtractCommodityCode("rb1.shfe") == None
  {
    assert "rb"[2..] == "" && "rb"[1..] == "b";
    var t := "1.shfe";
    assert "rb1.shfe"[2..] == t && t[1..] == ".shfe";
    assert LeadingDigits(t) == 1;
    assert "rb1.shfe"[1..] == "b1.shfe";
  }

  /** The exchange must be upper case: "rb2510.shfe" gives nothing. */
  lemma ExtractRejectsLowerExchange()
    ensures ExtractCommodityCode("rb2510.shfe") == None
  {
    var u := "2510.shfe";
    assert "rb2510.shfe"[2..] == u;
    assert u[1..] == "510.shfe" && u[1..][1..] == "10.shfe" && u[1..][1..][1..] == "0.shfe";
    assert u[1..][1..][1..][1..] == ".shfe";
    assert LeadingDigits(u) == 4;
    assert "rb2510.shfe"[1..] == "b2510.shfe";
  }

  // ------------------------------------------------------------ quiet hours

  /** Hours since Monday 00:00 of the week that contains t. */
  function HourOfWeek(t: DateTime): int
    requires ValidDateTime(t)
  {
    Weekday(DateOf(t)) * 24 + t.hour
  }

  /** _should_send_alert. `now` is the time captured when the alert was submitted and
      `today` is the local date when the worker runs the job (datetime.now() there). */
  function ShouldSendAlert(now: DateTime, today: Date, forceSend: bool): (send: bool)
    requires ValidDateTime(now)
    // the blackout is one window: from Saturday 03:00 to the end of Sunday
    ensures send <==> forceSend || (today == DateOf(now) && HourOfWeek(now) < 5 * 24 + 3)
  {
    if forceSend then true
    else if today != DateOf(now) then false
    else if Weekday(DateOf(now)) == 5 && now.hour >= 3 then false
    else if Weekday(DateOf(now)) == 6 then false
    else true
  }

  lemma ForceAlwaysSends(now: DateTime, today: Date)
    requires ValidDateTime(now)
    ensures ShouldSendAlert(now, today, true)
  {
  }

  /** Without force: suppressed on another day, from Saturday 03:00 and all Sunday;
      sent on the same day otherwise. */
  lemma QuietHours(now: DateTime, today: Date)
    requires ValidDateTime(now)
    ensures today != DateOf(now) ==> !ShouldSendAlert(now, today, false)
    ensures Weekday(DateOf(now)) == 5 && now.hour >= 3 ==> !ShouldSendAlert(now, today, false)
    ensures Weekday(DateOf(now)) == 6 ==> !ShouldSendAlert(now, today, false)
    ensures today == DateOf(now) && Weekday(DateOf(now)) < 5 ==> ShouldSendAlert(now, today, false)
    ensures today == DateOf(now) && Weekday(DateOf(now)) == 5 && now.hour < 3 ==> ShouldSendAlert(now, today, false)
  {
  }

  // ------------------------------------------------------------ routing tables

  /** The state of one AlertManager: the shared tables and the four defaults. */
  datatype Routing = Routing(
    symbolHookMap: map<string, string>,   // commodity code -> webhook url
    hookSecretMap: map<string, string>,   // looked up by commodity code too
    feishuUrl: string, feishuSecret: string,
    dingtalkUrl: string, dingtalkSecret: string)

  const EmptyRouting := Routing(map[], map[], "", "", "", "")

  /** configure_feishu / configure_dingtalk: overwrite the channel's defaults and merge the
      mappings into the shared tables (an absent or empty mapping leaves a table as it is). */
  function Configure(r: Routing, ch: Channel, url: string, secret: string,
                     symbolMapping: map<string, string>, secretMapping: map<string, string>): (r': Routing)
    ensures r'.symbolHookMap.Keys == r.symbolHookMap.Keys + symbolMapping.Keys
    ensures r'.hookSecretMap.Keys == r.hookSecretMap.Keys + secretMapping.Keys
    ensures forall k :: k in symbolMapping ==> r'.symbolHookMap[k] == symbolMapping[k]
    ensures forall k :: k in r.symbolHookMap && k !in symbolMapping ==> r'.symbolHookMap[k] == r.symbolHookMap[k]
    ensures forall k :: k in secretMapping ==> r'.hookSecretMap[k] == secretMapping[k]
    ensures forall k :: k in r.hookSecretMap && k !in secretMapping ==> r'.hookSecretMap[k] == r.hookSecretMap[k]
    ensures ch == Feishu ==>
              r'.feishuUrl == url && r'.feishuSecret == secret &&
              r'.dingtalkUrl == r.dingtalkUrl && r'.dingtalkSecret == r.dingtalkSecret
    ensures ch == DingTalk ==>
              r'.dingtalkUrl == url && r'.dingtalkSecret == secret &&
              r'.feishuUrl == r.feishuUrl && r'.feishuSecret == r.feishuSecret
  {
    var r1 := r.(symbolHookMap := r.symbolHookMap + symbolMapping,
                 hookSecretMap := r.hookSecretMap + secretMapping);
    match ch
    case Feishu => r1.(feishuUrl := url, feishuSecret := secret)
    case DingTalk => r1.(dingtalkUrl := url, dingtalkSecret := secret)
  }

  /** Webhook url and secret for a job: both tables are keyed by the commodity code and
      each falls back to the channel's default on its own. */
  function Resolve(r: Routing, ch: Channel, code: Option<string>): (p: (string, string))
    ensures code.Some? && code.value in r.symbolHookMap ==> p.0 == r.symbolHookMap[code.value]
    ensures code.Some? && code.value in r.hookSecretMap ==> p.1 == r.hookSecretMap[code.value]
    ensures (code.None? || code.value !in r.symbolHookMap) ==>
              p.0 == (if ch == Feishu then r.feishuUrl else r.dingtalkUrl)
    ensures (code.None? || code.value !in r.hookSecretMap) ==>
              p.1 == (if ch == Feishu then r.feishuSecret else r.dingtalkSecret)
  {
    var url := if code.Some? && code.value in r.symbolHookMap then r.symbolHookMap[code.value]
               else if ch == Feishu then r.feishuUrl else r.dingtalkUrl;
    var secret := if code.Some? && code.value in r.hookSecretMap then r.hookSecretMap[code.value]
                  else if ch == Feishu then r.feishuSecret else r.dingtalkSecret;
    (url, secret)
  }

  /** Configuring an override for a code routes that code's jobs to it, on either channel;
      a job without a code goes to the channel default just configured. */
  lemma ConfigureThenResolve(r: Routing, ch: Channel, other: Channel, url: string, secret: string,
                             code: string, hook: string, key: string)
    ensures var r' := Configure(r, ch, url, secret, map[code := hook], map[code := key]);
            Resolve(r', other, Some(code)) == (hook, key)
    ensures var r' := Configure(r, ch, url, secret, map[], map[]);
            Resolve(r', ch, None) == (url, secret)
  {
  }

  // ------------------------------------------------------------ signing

  /** "{timestamp}\n{secret}", the string both platforms sign. */
  function StringToSign(timestamp: nat, secret: string): string {
    NatToString(timestamp) + "\n" + secret
  }

  /** The timestamp and the secret can be read back from the string to sign. */
  lemma {:induction false} StringToSignInjective(t1: nat, s1: string, t2: nat, s2: string)
    requires StringToSign(t1, s1) == StringToSign(t2, s2)
    ensures t1 == t2 && s1 == s2
  {
    var a, b := NatToString(t1), NatToString(t2);
    var x := StringToSign(t1, s1);
    // the first newline ends the digits on both sides
    FirstNewline(a, s1);
    FirstNewline(b, s2);
    assert a == x[..|a|] == b;
    NatToStringInjective(t1, t2);
    assert s1 == x[|a| + 1..] == s2;
  }

  lemma FirstNewline(a: string, s: string)
    requires AllDigits(a)
    ensures '\n' in a + "\n" + s && IndexOf(a + "\n" + s, '\n') == |a|
  {
    var x := a + "\n" + s;
    assert x[|a|] == '\n';
    var i := IndexOf(x, '\n');
    assert forall j :: 0 <= j < |a| ==> x[j] == a[j];
    assert i >= |a|;
    if i > |a| { assert false; }
  }

  /** _generate_feishu_signature: the string to sign is the HMAC key; the message is empty. */
  function FeishuSignature(hmac: (string, string) -> string, timestamp: nat, secret: string): string {
    hmac(StringToSign(timestamp, secret), "")
  }

  /** _generate_dingtalk_signature: keyed by the secret, over the string to sign. */
  function DingtalkSignature(hmac: (string, string) -> string, timestamp: nat, secret: string): string {
    hmac(secret, StringToSign(timestamp, secret))
  }

  /** f"{webhook_url}&timestamp={timestamp}&sign={signature}" (the signature is not URL-quoted). */
  function DingtalkSignedUrl(webhook: string, timestamp: nat, signature: string): string {
    webhook + "&timestamp=" + NatToString(timestamp) + "&sign=" + signature
  }

  /** The signed DingTalk url keeps the webhook as its prefix and ends with the signature. */
  lemma DingtalkSignedUrlParts(webhook: string, timestamp: nat, signature: string)
    ensures var u := DingtalkSignedUrl(webhook, timestamp, signature);
            StartsWith(u, webhook + "&timestamp=") && EndsWith(u, "&sign=" + signature)
            && u[|webhook| + 11..|u| - |signature| - 6] == NatToString(timestamp)
  {
    var u := DingtalkSignedUrl(webhook, timestamp, signature);
    assert u == (webhook + "&timestamp=") + NatToString(timestamp) + ("&sign=" + signature);
  }

  // ------------------------------------------------------------ delivery

  /** One HTTP request: where it goes and its JSON body (headers are fixed). */
  datatype Request = Request(url: string, body: Value)

  /** What one requests.post gives: an exception (network, timeout, undecodable reply)
      or the reply's parsed JSON. */
  datatype Reply = Raised | Responded(json: Value)

  /** result.get('msg') == 'success' / result.get('errcode') == 0. */
  predicate Succeeds(ch: Channel, reply: Reply) {
    && reply.Responded? && reply.json.Obj?
    && match ch
       case Feishu => Field(reply.json.fields, "msg") == Str("success")
       case DingTalk => EqualsInt(Field(reply.json.fields, "errcode"), 0)
  }

  /** The attempt goes through the `except` branch: post or json() raised, or the reply is
      not a JSON object (so `.get` raises AttributeError). */
  predicate Throws(reply: Reply) {
    reply.Raised? || !reply.json.Obj?
  }

  /** The 5-second waits of the first n attempts: one after each exception in attempt 1 or 2. */
  function RetryWaits(ch: Channel, respond: nat -> Reply, n: nat): seq<nat>
  {
    if n == 0 then []
    else RetryWaits(ch, respond, n - 1) + (if n - 1 < 2 && Throws(respond(n - 1)) then [5] else [])
  }

  /** The `for attempt in range(3)` loop of send_message followed by time.sleep(1).
      Every POST sends the same request: it is signed once, before the loop. */
  method PostWithRetry(ch: Channel, request: Request, respond: nat -> Reply)
    returns (sent: seq<Request>, sleeps: seq<nat>, delivered: bool)
    ensures 1 <= |sent| <= 3 && forall i :: 0 <= i < |sent| ==> sent[i] == request
    ensures forall i :: 0 <= i < |sent| - 1 ==> !Succeeds(ch, respond(i))
    ensures delivered <==> Succeeds(ch, respond(|sent| - 1))
    ensures |sent| < 3 ==> delivered
    ensures sleeps == RetryWaits(ch, respond, |sent|) + [1]
  {
    sent, sleeps, delivered := [], [], false;
    var attempt := 0;
    while attempt < 3
      invariant 0 <= attempt <= 3 && |sent| == attempt
      invariant forall i :: 0 <= i < attempt ==> sent[i] == request && !Succeeds(ch, respond(i))
      invariant sleeps == RetryWaits(ch, respond, attempt) && !delivered
    {
      var reply := respond(attempt);
      sent := sent + [request];
      if Succeeds(ch, reply) {
        delivered := true;
        break;
      }
      if Throws(reply) && attempt < 2 {
        sleeps := sleeps + [5];
      }
      attempt := attempt + 1;
    }
    sleeps := sleeps + [1];
  }

  /** Three exceptions in a row: three POSTs, a 5 s wait after the first two, then 1 s. */
  lemma AlwaysFailingTransport(ch: Channel, respond: nat -> Reply)
    requires forall i :: respond(i) == Raised
    ensures RetryWaits(ch, respond, 3) == [5, 5]
  {
    assert RetryWaits(ch, respond, 1) == [5];
    assert RetryWaits(ch, respond, 2) == [5, 5];
  }

  /** Replies that are JSON objects but report failure are retried with no wait at all. */
  lemma BusinessFailuresDoNotWait(ch: Channel, respond: nat -> Reply, n: nat)
    requires forall i :: !Throws(respond(i))
    ensures RetryWaits(ch, respond, n) == []
  {
    if n > 0 { BusinessFailuresDoNotWait(ch, respond, n - 1); }
  }

  /** At most two 5-second waits, whatever the replies. */
  lemma {:induction false} RetryWaitsBound(ch: Channel, respond: nat -> Reply, n: nat)
    ensures |RetryWaits(ch, respond, n)| <= if n < 2 then n else 2
    ensures forall i :: 0 <= i < |RetryWaits(ch, respond, n)| ==> RetryWaits(ch, respond, n)[i] == 5
  {
    if n > 0 { RetryWaitsBound(ch, respond, n - 1); }
  }

  // ------------------------------------------------------------ jobs

  /** What send_feishu_alert / send_dingtalk_alert hand to the thread pool: the closure's
      captured values. */
  datatype Job = Job(channel: Channel, content: string, code: Option<string>, now: DateTime, forceSend: bool)

  /** The terminal states of one job. */
  datatype Delivery =
    | Suppressed                 // quiet-hours rule said no
    | Unconfigured               // webhook url or secret resolved to ""
    | Attempted(request: Request, sent: seq<Request>, sleeps: seq<nat>, delivered: bool)

  /** send_feishu_alert / send_dingtalk_alert up to executor.submit: the commodity code is
      extracted at submission; `if symbol` treats None and "" alike. */
  function Submit(ch: Channel, content: string, symbol: Option<string>, now: DateTime, forceSend: bool): (job: Job)
    ensures job.channel == ch && job.content == content && job.now == now && job.forceSend == forceSend
    ensures symbol.Some? && symbol.value != [] ==> job.code == ExtractCommodityCode(symbol.value)
    ensures symbol.None? || symbol.value == [] ==> job.code == None
  {
    Job(ch, content, if symbol.Some? && symbol.value != [] then ExtractCommodityCode(symbol.value) else None,
        now, forceSend)
  }

  /** send_alert: the jobs it submits, in order, all with the same `now`. */
  function SendAlert(content: string, symbol: Option<string>, alertType: string, forceSend: bool,
                     now: DateTime): (jobs: seq<Job>)
    ensures alertType == "feishu" ==> jobs == [Submit(Feishu, content, symbol, now, forceSend)]
    ensures alertType == "dingtalk" ==> jobs == [Submit(DingTalk, content, symbol, now, forceSend)]
    ensures alertType == "all" ==> |jobs| == 2 && jobs[0].channel == Feishu && jobs[1].channel == DingTalk
    ensures alertType !in {"feishu", "dingtalk", "all"} ==> jobs == []
    ensures forall i :: 0 <= i < |jobs| ==> jobs[i] == Submit(jobs[i].channel, content, symbol, now, forceSend)
  {
    if alertType == "feishu" then [Submit(Feishu, content, symbol, now, forceSend)]
    else if alertType == "dingtalk" then [Submit(DingTalk, content, symbol, now, forceSend)]
    else if alertType == "all" then
      [Submit(Feishu, content, symbol, now, forceSend), Submit(DingTalk, content, symbol, now, forceSend)]
    else []
  }

  /** The signed request of a Feishu job. */
  function FeishuRequest(hmac: (string, string) -> string, url: string, secret: string,
                         timestamp: nat, content: string): Request {
    Request(url, Obj(map[
      "timestamp" := Int(timestamp),
      "sign" := Str(FeishuSignature(hmac, timestamp, secret)),
      "msg_type" := Str("text"),
      "content" := Obj(map["text" := Str(content)])]))
  }

  /** The signed request of a DingTalk job: signature and timestamp ride in the url. */
  function DingtalkRequest(hmac: (string, string) -> string, url: string, secret: string,
                           timestamp: nat, content: string): Request {
    Request(DingtalkSignedUrl(url, timestamp, DingtalkSignature(hmac, timestamp, secret)),
            Obj(map["msgtype" := Str("text"), "text" := Obj(map["content" := Str(content)])]))
  }

  class AlertManager {
    var symbolHookMap: map<string, string>
    var hookSecretMap: map<string, string>
    var defaultFeishuUrl: string
    var defaultFeishuSecret: string
    var defaultDingtalkUrl: string
    var defaultDingtalkSecret: string

    function State(): Routing
      reads this
    {
      Routing(symbolHookMap, hookSecretMap, defaultFeishuUrl, defaultFeishuSecret,
              defaultDingtalkUrl, defaultDingtalkSecret)
    }

    constructor ()
      ensures State() == EmptyRouting
    {
      symbolHookMap, hookSecretMap := map[], map[];
      defaultFeishuUrl, defaultFeishuSecret := "", "";
      defaultDingtalkUrl, defaultDingtalkSecret := "", "";
    }

    method ConfigureFeishu(url: string, secret: string,
                           symbolMapping: map<string, string>, secretMapping: map<string, string>)
      modifies this
      ensures State() == Configure(old(State()), Feishu, url, secret, symbolMapping, secretMapping)
    {
      defaultFeishuUrl, defaultFeishuSecret := url, secret;
      symbolHookMap := symbolHookMap + symbolMapping;
      hookSecretMap := hookSecretMap + secretMapping;
    }

    method ConfigureDingtalk(url: string, secret: string,
                             symbolMapping: map<string, string>, secretMapping: map<string, string>)
      modifies this
      ensures State() == Configure(old(State()), DingTalk, url, secret, symbolMapping, secretMapping)
    {
      defaultDingtalkUrl, defaultDingtalkSecret := url, secret;
      symbolHookMap := symbolHookMap + symbolMapping;
      hookSecretMap := hookSecretMap + secretMapping;
    }

    /** send_message: the body of one job, run by a worker against the tables as they
        are at that moment. */
    method RunJob(job: Job, today: Date, clockMs: nat, hmac: (string, string) -> string,
                  respond: nat -> Reply) returns (d: Delivery)
      requires ValidDateTime(job.now)
      ensures !ShouldSendAlert(job.now, today, job.forceSend) ==> d == Suppressed
      ensures ShouldSendAlert(job.now, today, job.forceSend) ==>
                var (url, secret) := Resolve(State(), job.channel, job.code);
                if url == "" || secret == "" then d == Unconfigured
                else
                  && d.Attempted?
                  && d.request == (if job.channel == Feishu
                                   then FeishuRequest(hmac, url, secret, clockMs / 1000, job.content)
                                   else DingtalkRequest(hmac, url, secret, clockMs, job.content))
                  && 1 <= |d.sent| <= 3
                  && (forall i :: 0 <= i < |d.sent| ==> d.sent[i] == d.request)
                  && (forall i :: 0 <= i < |d.sent| - 1 ==> !Succeeds(job.channel, respond(i)))
                  && (d.delivered <==> Succeeds(job.channel, respond(|d.sent| - 1)))
                  && d.sleeps == RetryWaits(job.channel, respond, |d.sent|) + [1]
    {
      if !ShouldSendAlert(job.now, today, job.forceSend) {
        return Suppressed;
      }
      var (url, secret) := Resolve(State(), job.channel, job.code);
      if url == "" || secret == "" {
        return Unconfigured;
      }
      var request;
      if job.channel == Feishu {
        request := FeishuRequest(hmac, url, secret, clockMs / 1000, job.content);
      } else {
        request := DingtalkRequest(hmac, url, secret, clockMs, job.content);
      }
      var sent, sleeps, delivered := PostWithRetry(job.channel, request, respond);
      d := Attempted(request, sent, sleeps, delivered);
    }
  }

  /** configure Feishu with one webhook and secret, send "hello" for rb2510.SHFE with force:
      with a successful first reply, exactly one POST goes to that webhook, signed over the
      request's own timestamp and "s1", followed by the 1-second pause. */
  method FeishuEndToEnd(now: DateTime, today: Date, clockMs: nat, hmac: (string, string) -> string,
                        respond: nat -> Reply) returns (d: Delivery)
    requires ValidDateTime(now)
    requires respond(0) == Responded(Obj(map["msg" := Str("success")]))
    ensures d.Attempted? && d.delivered && d.sleeps == [1]
    ensures d.sent == [FeishuRequest(hmac, "https://example/hook", "s1", clockMs / 1000, "hello")]
  {
    var m := new AlertManager();
    m.ConfigureFeishu("https://example/hook", "s1", map[], map[]);
    var job := Submit(Feishu, "hello", Some("rb2510.SHFE"), now, true);
    assert SendAlert("hello", Some("rb2510.SHFE"), "feishu", true, now) == [job];
    assert Resolve(m.State(), Feishu, job.code) == ("https://example/hook", "s1");
    d := m.RunJob(job, today, clockMs, hmac, respond);
    assert Succeeds(Feishu, respond(0));
    assert |d.sent| == 1;
    assert d.sleeps == RetryWaits(Feishu, respond, 1) + [1];
  }

  /** The Feishu body carries the timestamp, the signature over that same timestamp and
      the secret, the text type and the content. */
  lemma FeishuRequestBody(hmac: (string, string) -> string, url: string, secret: string,
                          timestamp: nat, content: string)
    ensures var q := FeishuRequest(hmac, url, secret, timestamp, content);
            && q.url == url && q.body.Obj?
            && q.body.fields.Keys == {"timestamp", "sign", "msg_type", "content"}
            && q.body.fields["timestamp"] == Int(timestamp)
            && q.body.fields["sign"] == Str(hmac(StringToSign(timestamp, secret), ""))
            && q.body.fields["content"] == Obj(map["text" := Str(content)])
  {
  }
}
