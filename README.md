# Z-library URL fetcher: mirror selection and Tor fallback

This project models the decision and control logic of the Z-library URL fetcher's main window (`MainWindow.xaml.cs`). At start-up, and again on each click of the fetch button, the window does the following:

- It picks the list of mirrors for the UI language: English when the two-letter UI culture name is `"en"`, Chinese otherwise.
- It probes every mirror once, in list order. Each probe is a GET with a 5-second timeout, timed with a stopwatch. The mirror whose successful (2xx) probe was strictly fastest is kept, so on a tie the earlier mirror wins.
- If a mirror was found, it fetches the selected mirror's URL directly. It shows the body, or an error message that names the URL.
- If no mirror was found, it fetches a fixed onion address through a local Tor proxy. It first downloads the Tor tools, then starts the proxy, then sends the GET through it. It shows the body, or a Tor failure message. In every case it then hides the loading indicator and stops the proxy.

The network does not appear in the model. It is given as inputs: one `Probe` outcome per mirror, one `Reply` for the direct fetch, and one `TorAttempt` for the Tor path. A `TorAttempt` holds the outcomes of the tool download, the proxy start and the GET. With those inputs fixed, every method is deterministic.

Files and modules:

- `wrappers.dfy`, module `Wrappers`: `Option` models a C# `null` result. `Result` models a step that returns a value or raises an exception.
- `config.dfy`, module `Config`: the two mirror lists, the onion address `DefaultTorUrl`, and the choice of list by language.
- `selection.dfy`, module `MirrorSelection`: `GetFastestUrlAsync`. It has three parts. `SelectFastest` is the loop. `Winner` is the same scan as a recursive function, tracking the index of the best candidate. `IsFirstFastest` is an independent specification of the result. The lemmas connect the three.
- `fetching.dfy`, module `Fetching`: `EnsureSuccessStatusCode` and the texts that a direct fetch and a Tor fetch leave in the response box.
- `window.dfy`, module `Window`: the class `MainWindow`. Its fields are the window's state that the C# code changes: the language flag, the response text, the loading indicator, and whether a Tor proxy runs. Ghost fields observe that state; the C# class has no such fields. They hold:
  - the number of times the response text was assigned;
  - the number of times `Stop` was called;
  - logs of the probed URLs and of the content requests sent.

  Each C# `try`/`catch` is a `Result` returned by the guarded block and matched by its caller. A `finally` block is the code that runs after that match on every path.

Properties proved:

- The selector returns nothing exactly when no probe succeeded with a latency below `long.MaxValue`. An empty list is one such case.
- Otherwise it returns the URL of a candidate that meets all three of these:
  - its probe succeeded;
  - no successful candidate was faster;
  - every successful candidate before it was strictly slower.
- Exactly one candidate meets that specification.
- A failed probe at any position can be removed from the list without changing the selection.
- Every candidate is probed exactly once, in order.
- Start-up takes the Tor path exactly when no mirror was selected. Otherwise it fetches the selected mirror of the language's list. This holds because the onion address is in neither list, which is proved from the constants.
- Every fetch assigns the response text exactly once, and no path raises an exception. This assumes that creating and stopping the Tor proxy cannot throw (see "## Left out").
- A direct fetch sends one request and never retries.
- The Tor path stops the proxy exactly once and ends with the indicator hidden and no proxy running, whichever step failed.

## Model

| member | source | states |
|---|---|---|
| `Config.CandidateUrls` | MainWindow.xaml.cs:77 | the English list is used exactly when `isEnglish` holds; either list has 10 entries and neither contains the onion address |
| `MirrorSelection.Winner` | MainWindow.xaml.cs:94-119 | the loop as a recursion over the probes made so far; a selected index is in range and its probe succeeded with a latency below `long.MaxValue` |
| `MirrorSelection.WinnerIsFirstFastest` | MainWindow.xaml.cs:94-121 | the scan yields no candidate exactly when no probe is eligible, and otherwise the first candidate of minimal latency among the successful ones |
| `MirrorSelection.FirstFastestIsUnique` | MainWindow.xaml.cs:108 | strict `<` makes the result unique: at most one index is first among the fastest |
| `MirrorSelection.FastestUrl` | MainWindow.xaml.cs:90-123 | null exactly when no probe is eligible; otherwise the URL of the first fastest successful candidate |
| `MirrorSelection.SelectFastest` | MainWindow.xaml.cs:90-123 | the loop probes every URL once in order, and returns null exactly when no probe is eligible, otherwise the URL of the first fastest successful candidate (equal to `FastestUrl`) |
| `MirrorSelection.WinnerSkipsFailedProbe` | MainWindow.xaml.cs:97-118 | removing a failed probe from the list shifts the winner's index but does not change which candidate wins |
| `MirrorSelection.FailedProbeIsIgnored` | MainWindow.xaml.cs:99-118 | a faulted or non-2xx probe anywhere in the list leaves the selected URL unchanged: the failure is swallowed and the scan continues |
| `MirrorSelection.FasterMirrorWins` | MainWindow.xaml.cs:97-112 | with a faulted mirror, one at 200 ms and one at 80 ms, the 80 ms mirror is selected |
| `MirrorSelection.TieGoesToEarlierMirror` | MainWindow.xaml.cs:108 | two mirrors both at 50 ms: the first is kept |
| `MirrorSelection.AllProbesFailed` | MainWindow.xaml.cs:94-121 | a faulted probe and a 503 probe: nothing is selected |
| `Fetching.ReadContent` | MainWindow.xaml.cs:131-133 | the GET yields the body exactly for a 2xx response; a transport fault raises its own message |
| `Fetching.DirectFetchText` | MainWindow.xaml.cs:127-140 | the shown text is the body on success; on failure it is the error prefix, then the URL, then the exception message |
| `Fetching.TorContent` | MainWindow.xaml.cs:159-180 | the Tor attempt succeeds exactly when the tool download, the proxy start and the GET all succeed; otherwise the first failing step's exception ends it |
| `Fetching.TorFetchText` | MainWindow.xaml.cs:159-184 | the shown text is the body on success, and otherwise the Tor failure prefix followed by the failing step's message, without the URL |
| `Window.StartupPlan` | MainWindow.xaml.cs:75-88 | the Tor path is chosen exactly when no mirror was selected, and then with the onion address; otherwise the direct path is chosen with the first fastest mirror of the language's list |
| `Window.MainWindow.constructor` | MainWindow.xaml.cs:43-47 | the language flag is set from the culture name; nothing is shown and no proxy runs |
| `Window.MainWindow.InitializeLanguage` | MainWindow.xaml.cs:49-56 | `isEnglish` holds exactly when the two-letter culture name is "en" |
| `Window.MainWindow.ShowText` | MainWindow.xaml.cs:134 | one assignment of the response text |
| `Window.MainWindow.StopProxy` | MainWindow.xaml.cs:188 | after `Stop` no proxy runs, and the stop count grows by one |
| `Window.MainWindow.FetchContent` | MainWindow.xaml.cs:125-141 | one direct request for the URL and no retry; the text is assigned once, to the body or to an error naming the URL |
| `Window.MainWindow.TorSessionBody` | MainWindow.xaml.cs:159-180 | the `try` block: the indicator is shown; the request goes through the proxy only after the tools and the proxy are ready; the body is shown only on success |
| `Window.MainWindow.FetchContentUsingTor` | MainWindow.xaml.cs:143-190 | on every path the text is assigned once, the indicator ends hidden, `Stop` runs exactly once and no proxy is left running |
| `Window.MainWindow.FetchContentOnStartup` | MainWindow.xaml.cs:75-88 | probes the language's list in order, then has exactly the effects of the Tor fetch when no mirror was selected and of the direct fetch of the selected mirror otherwise |
| `Window.MainWindow.FetchButtonClick` | MainWindow.xaml.cs:63-73 | the start-up fetch with the indicator shown during it and hidden at the end on both paths |

## Left out

- The network, the stopwatch and the timeouts are inputs. The 5-second probe timeout and the 5-minute fetch timeout only turn a slow request into a `Faulted` outcome. The model does not tie a probe's latency to the 5-second bound.
- The TorSharp library is modelled only as steps that succeed or fail. This covers the tool download, `ConfigureAndStartAsync`, the Privoxy port 18118, the Tor ports 19050 and 19051, and the tool directories. A failed proxy start is assumed to leave nothing running until `Stop`.
- WPF is left out. `Dispatcher.Invoke` is an immediate assignment. `InitializeComponent` is not modelled. The initial visibility of the loading indicator comes from the XAML, which is not part of this model; the constructor takes it as hidden.
- Async scheduling is left out. Overlapping runs of `FetchButton_Click` (re-entrancy) are a concurrency concern and are not modelled.
- `Window_Loaded` only awaits `FetchContentOnStartupAsync`, so it has no separate member.
- `CultureInfo` detection is left out. The two-letter culture name is a parameter.
- Disposal of `HttpClient` and of probe responses is not modelled.
- The message of a transport exception is an input. The message that `EnsureSuccessStatusCode` raises follows .NET's wording.
- The Tor failure message is the Tor prefix followed by the exception message; it does not name the URL (MainWindow.xaml.cs:183).
- A failed tool download produces the same generic Tor failure message as any other failed Tor step.
- `new TorSharpProxy(settings)`, which runs before the `try` (MainWindow.xaml.cs:157), and `proxy.Stop()`, which runs in the `finally` (MainWindow.xaml.cs:188), are modelled as calls that cannot throw. If either threw, the exception would escape `FetchContentUsingTorAsync`. The claim that no path raises an exception holds only under this assumption.
- The selector treats a successful probe whose latency equals `long.MaxValue` as never selectable, because the comparison is strict. This is faithful to the code and has no practical effect.
