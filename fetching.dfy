// What a content fetch does with the network's answer: the text the window
// shows after a direct fetch from a mirror, and after a fetch through Tor.

module Fetching {
  import opened Wrappers
  import MirrorSelection

  /** What the network did with one content request: `Faulted` for any
      exception of `GetAsync` or of reading the body (timeout, transport
      error), `Completed` for a response with its status line and body. */
  datatype Reply = Faulted(message: string) | Completed(status: nat, reasonPhrase: string, body: string)

  /** Outcome of one Tor bootstrap step (`FetchAsync`, `ConfigureAndStartAsync`). */
  datatype Step = Done | Failed(message: string)

  /** The network's behaviour during one Tor attempt: the tool download, the
      proxy start and the GET through the proxy. */
  datatype TorAttempt = TorAttempt(toolFetch: Step, proxyStart: Step, reply: Reply)

  /** Prefix of the message shown when a direct fetch fails. */
  const DirectFailurePrefix: string := "获取内容出错 "

  /** Prefix of the message shown when the Tor fetch fails. */
  const TorFailurePrefix: string := "使用压轴手段失败: "

  function Digit(d: nat): char
    requires d < 10
  {
    "0123456789"[d]
  }

  /** Decimal digits of `n`, most significant first. */
  function Decimal(n: nat): (s: string)
    ensures |s| >= 1
    decreases n
  {
    if n < 10 then [Digit(n)] else Decimal(n / 10) + [Digit(n % 10)]
  }

  /** The message of the exception `EnsureSuccessStatusCode` raises. */
  function StatusFailureMessage(status: nat, reasonPhrase: string): string {
    "Response status code does not indicate success: " + Decimal(status) + " (" + reasonPhrase + ")."
  }

  /** `GetAsync`, `EnsureSuccessStatusCode` and `ReadAsStringAsync` in a row:
      the body of a 2xx response, and otherwise the exception raised. */
  function ReadContent(reply: Reply): (r: Result<string>)
    ensures r.Ok? <==> reply.Completed? && MirrorSelection.IsSuccessStatus(reply.status)
    ensures r.Ok? ==> r.value == reply.body
    ensures reply.Faulted? ==> r == Raised(reply.message)
  {
    match reply
    case Faulted(m) => Raised(m)
    case Completed(status, reason, body) =>
      if MirrorSelection.IsSuccessStatus(status) then Ok(body)
      else Raised(StatusFailureMessage(status, reason))
  }

  /** The text a direct fetch of `url` leaves in the response box: the body
      on success; otherwise the failure prefix, then the URL, then ": " and
      the exception's message. */
  function DirectFetchText(url: string, reply: Reply): (text: string)
    ensures ReadContent(reply).Ok? ==> text == reply.body
    ensures ReadContent(reply).Raised? ==>
      var message := ReadContent(reply).message;
      var n := |DirectFailurePrefix|;
      |text| == n + |url| + 2 + |message| &&
      text[..n] == DirectFailurePrefix &&
      text[n..n + |url|] == url &&
      text[|text| - |message|..] == message
  {
    match ReadContent(reply)
    case Ok(content) => content
    case Raised(message) => DirectFailurePrefix + url + ": " + message
  }

  /** The exception that ends a Tor attempt, if any: the first step that fails. */
  function TorContent(attempt: TorAttempt): (r: Result<string>)
    ensures r.Ok? <==> attempt.toolFetch.Done? && attempt.proxyStart.Done? && ReadContent(attempt.reply).Ok?
    ensures attempt.toolFetch.Failed? ==> r == Raised(attempt.toolFetch.message)
    ensures attempt.toolFetch.Done? && attempt.proxyStart.Failed? ==> r == Raised(attempt.proxyStart.message)
    ensures attempt.toolFetch.Done? && attempt.proxyStart.Done? ==> r == ReadContent(attempt.reply)
  {
    if attempt.toolFetch.Failed? then Raised(attempt.toolFetch.message)
    else if attempt.proxyStart.Failed? then Raised(attempt.proxyStart.message)
    else ReadContent(attempt.reply)
  }

  /** The text a Tor fetch leaves in the response box: the body when every
      step succeeds, otherwise the Tor failure prefix followed by the message
      of the first failing step. The requested URL is never part of it. */
  function TorFetchText(attempt: TorAttempt): (text: string)
    ensures TorContent(attempt).Ok? ==> text == attempt.reply.body
    ensures TorContent(attempt).Raised? ==>
      var message := TorContent(attempt).message;
      |text| == |TorFailurePrefix| + |message| &&
      text[..|TorFailurePrefix|] == TorFailurePrefix &&
      text[|TorFailurePrefix|..] == message
  {
    match TorContent(attempt)
    case Ok(content) => content
    case Raised(message) => TorFailurePrefix + message
  }
}
