// The main window's fetch logic as a class whose fields are the effects the
// C# code has: the response text box, the loading indicator and the Tor proxy
// process. Ghost fields count and log what happens to them (text writes,
// proxy stops, probes and requests sent); the C# class has no such fields. The network's behaviour is
// passed in as probe outcomes, a reply and a Tor attempt.

module Window {
  import opened Wrappers
  import opened Config
  import opened MirrorSelection
  import opened Fetching

  /** A content request sent over the network (probes are logged separately). */
  datatype Request = Request(url: string, throughProxy: bool)

  /** What start-up does once the mirrors are probed. */
  datatype Plan = ThroughTor(url: string) | Direct(url: string)

  /** The branch of `FetchContentOnStartupAsync`: the fastest mirror, or the
      Tor address when there is none (`??`), and the Tor path exactly when
      the resulting URL is the Tor address. The Tor path is taken exactly
      when no mirror could be selected; otherwise the selected mirror of the
      language's list is fetched directly. */
  function StartupPlan(isEnglish: bool, probes: seq<Probe>): (plan: Plan)
    requires |probes| == |CandidateUrls(isEnglish)|
    ensures plan.ThroughTor? <==> NoneEligible(probes)
    ensures plan.ThroughTor? ==> plan.url == DefaultTorUrl
    ensures plan.Direct? ==> plan.url in CandidateUrls(isEnglish)
    ensures plan.Direct? ==>
      exists k :: IsFirstFastest(probes, k) && CandidateUrls(isEnglish)[k] == plan.url
  {
    var url := FastestUrl(CandidateUrls(isEnglish), probes).GetOr(DefaultTorUrl);
    if url == DefaultTorUrl then ThroughTor(url) else Direct(url)
  }

  /** The request a Tor attempt sends: one GET through the proxy, provided
      the tools were fetched and the proxy started. */
  function TorRequests(url: string, attempt: TorAttempt): seq<Request> {
    if attempt.toolFetch.Done? && attempt.proxyStart.Done? then [Request(url, true)] else []
  }

  class MainWindow {
    var isEnglish: bool
    /** `ResponseTextBox.Text`, and (ghost) the number of times it was assigned. */
    var responseText: string
    ghost var textWrites: nat
    /** `LoadingTextBlock.Visibility == Visible`. */
    var loadingVisible: bool
    /** Whether a Tor proxy of this window runs, and (ghost) how often `Stop` was called. */
    var proxyRunning: bool
    ghost var proxyStops: nat
    /** Observation logs: URLs probed, and content requests sent, in order. */
    ghost var probed: seq<string>
    ghost var requests: seq<Request>

    /** The window as constructed: the language is read from the UI culture's
        two-letter name, nothing is shown and nothing runs yet. */
    constructor (twoLetterLanguageName: string)
      ensures isEnglish == IsEnglishCulture(twoLetterLanguageName)
      ensures responseText == "" && textWrites == 0 && !loadingVisible
      ensures !proxyRunning && proxyStops == 0 && probed == [] && requests == []
    {
      isEnglish := false;
      responseText, textWrites, loadingVisible := "", 0, false;
      proxyRunning, proxyStops := false, 0;
      probed, requests := [], [];
      new;
      InitializeLanguage(twoLetterLanguageName);
    }

    /** `InitializeLanguage`: English exactly for the culture name "en". */
    method InitializeLanguage(twoLetterLanguageName: string)
      modifies this`isEnglish
      ensures isEnglish == IsEnglishCulture(twoLetterLanguageName)
    {
      isEnglish := twoLetterLanguageName == "en";
    }

    /** One assignment of `ResponseTextBox.Text` through the dispatcher. */
    method ShowText(text: string)
      modifies this`responseText, this`textWrites
      ensures responseText == text && textWrites == old(textWrites) + 1
    {
      responseText := text;
      textWrites := textWrites + 1;
    }

    /** `proxy.Stop()`: whatever was started is shut down. */
    method StopProxy()
      modifies this`proxyRunning, this`proxyStops
      ensures !proxyRunning && proxyStops == old(proxyStops) + 1
    {
      proxyRunning := false;
      proxyStops := proxyStops + 1;
    }

    /** `FetchContentAsync`: one GET of `url`, no proxy and no retry; the body
        or an error message naming the URL is shown, and nothing escapes. */
    method FetchContent(url: string, reply: Reply)
      modifies this`responseText, this`textWrites, this`requests
      ensures requests == old(requests) + [Request(url, false)]
      ensures responseText == DirectFetchText(url, reply)
      ensures textWrites == old(textWrites) + 1
    {
      requests := requests + [Request(url, false)];
      var content := ReadContent(reply);
      match content
      case Ok(body) =>
        ShowText(body);
      case Raised(message) =>
        ShowText(DirectFailurePrefix + url + ": " + message);
    }

    /** The `try` block of `FetchContentUsingTorAsync`: show the indicator,
        fetch the tools, start the proxy, GET `url` through it and show the
        body. Returns the exception that left the block early, if any. */
    method TorSessionBody(url: string, attempt: TorAttempt) returns (outcome: Result<()>)
      modifies this`loadingVisible, this`proxyRunning, this`requests, this`responseText, this`textWrites
      ensures outcome.Ok? <==> TorContent(attempt).Ok?
      ensures outcome.Raised? ==> outcome.message == TorContent(attempt).message
      ensures loadingVisible
      ensures proxyRunning == (old(proxyRunning) || (attempt.toolFetch.Done? && attempt.proxyStart.Done?))
      ensures requests == old(requests) + TorRequests(url, attempt)
      ensures outcome.Ok? ==> responseText == attempt.reply.body && textWrites == old(textWrites) + 1
      ensures outcome.Raised? ==> responseText == old(responseText) && textWrites == old(textWrites)
    {
      loadingVisible := true;
      if attempt.toolFetch.Failed? {
        return Raised(attempt.toolFetch.message);
      }
      if attempt.proxyStart.Failed? {
        return Raised(attempt.proxyStart.message);
      }
      proxyRunning := true;
      requests := requests + [Request(url, true)];
      var content := ReadContent(attempt.reply);
      if content.Raised? {
        return Raised(content.message);
      }
      ShowText(content.value);
      return Ok(());
    }

    /** `FetchContentUsingTorAsync`: the `try` block, a `catch` that shows the
        Tor failure message, and a `finally` that hides the indicator and
        stops the proxy exactly once, whichever step failed. */
    method FetchContentUsingTor(url: string, attempt: TorAttempt)
      modifies this`loadingVisible, this`proxyRunning, this`proxyStops, this`requests,
               this`responseText, this`textWrites
      ensures responseText == TorFetchText(attempt)
      ensures textWrites == old(textWrites) + 1
      ensures proxyStops == old(proxyStops) + 1 && !proxyRunning
      ensures !loadingVisible
      ensures requests == old(requests) + TorRequests(url, attempt)
    {
      var outcome := TorSessionBody(url, attempt);
      if outcome.Raised? {
        ShowText(TorFailurePrefix + outcome.message);
      }
      loadingVisible := false;
      StopProxy();
    }

    /** The effects of one start-up fetch, relative to the state before it. */
    twostate predicate FetchedOnStartup(lang: bool, probes: seq<Probe>, reply: Reply, attempt: TorAttempt)
      requires |probes| == |CandidateUrls(lang)|
      reads this
    {
      isEnglish == lang &&
      probed == old(probed) + CandidateUrls(lang) &&
      textWrites == old(textWrites) + 1 &&
      match StartupPlan(lang, probes)
      case ThroughTor(url) =>
        responseText == TorFetchText(attempt) &&
        requests == old(requests) + TorRequests(url, attempt) &&
        proxyStops == old(proxyStops) + 1 && !proxyRunning && !loadingVisible
      case Direct(url) =>
        responseText == DirectFetchText(url, reply) &&
        requests == old(requests) + [Request(url, false)] &&
        proxyStops == old(proxyStops) && proxyRunning == old(proxyRunning) &&
        loadingVisible == old(loadingVisible)
    }

    /** `FetchContentOnStartupAsync`: probe the language's mirrors, then fetch
        the fastest one directly or, when none answered, fetch through Tor. */
    method FetchContentOnStartup(probes: seq<Probe>, reply: Reply, attempt: TorAttempt)
      requires |probes| == |CandidateUrls(isEnglish)|
      modifies this`probed, this`loadingVisible, this`proxyRunning, this`proxyStops,
               this`requests, this`responseText, this`textWrites
      ensures FetchedOnStartup(old(isEnglish), probes, reply, attempt)
    {
      var fastest;
      ghost var probedNow;
      fastest, probedNow := SelectFastest(CandidateUrls(isEnglish), probes);
      probed := probed + probedNow;
      var url := fastest.GetOr(DefaultTorUrl);
      if url == DefaultTorUrl {
        FetchContentUsingTor(url, attempt);
      } else {
        FetchContent(url, reply);
      }
    }

    /** `FetchButton_Click`: the start-up fetch again, with the loading
        indicator shown while it runs and hidden at the end on every path. */
    method FetchButtonClick(probes: seq<Probe>, reply: Reply, attempt: TorAttempt)
      requires |probes| == |CandidateUrls(isEnglish)|
      modifies this`probed, this`loadingVisible, this`proxyRunning, this`proxyStops,
               this`requests, this`responseText, this`textWrites
      ensures isEnglish == old(isEnglish)
      ensures probed == old(probed) + CandidateUrls(isEnglish)
      ensures textWrites == old(textWrites) + 1
      ensures !loadingVisible
      ensures match StartupPlan(isEnglish, probes)
        case ThroughTor(url) =>
          responseText == TorFetchText(attempt) &&
          requests == old(requests) + TorRequests(url, attempt) &&
          proxyStops == old(proxyStops) + 1 && !proxyRunning
        case Direct(url) =>
          responseText == DirectFetchText(url, reply) &&
          requests == old(requests) + [Request(url, false)] &&
          proxyStops == old(proxyStops) && proxyRunning == old(proxyRunning)
    {
      loadingVisible := true;
      FetchContentOnStartup(probes, reply, attempt);
      loadingVisible := false;
    }
  }
}
