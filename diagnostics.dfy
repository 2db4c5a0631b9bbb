/** The microphone troubleshooting of the client: the diagnostic record built
    from the browser's feature checks and one microphone request, the issues
    and recommended fixes derived from it, and the words-per-message average of
    the session report. The browser's features and the outcome of the request
    are inputs. */
module Diagnostics {

  /** What the feature checks of the browser find. */
  datatype Features = Features(browserSupport: bool, mediaDevicesAPI: bool, speechRecognition: bool,
                               audioContext: bool)

  /** How `getUserMedia` and the audio-level test that follows it end: granted,
      refused with an error, or granted and then failing inside the audio test
      (which runs only when an audio context exists). */
  datatype Access =
    | Granted
    | Refused(name: string, message: string)
    | AudioTestFailed(name: string, message: string)

  /** The record `runMicrophoneDiagnostic` fills in. */
  datatype Record = Record(browserSupport: bool, mediaDevicesAPI: bool, speechRecognition: bool,
                           microphoneAccess: bool, audioContext: bool, permissions: string,
                           errors: seq<string>)

  /** `runMicrophoneDiagnostic`: start from all checks failed and permissions
      unknown, copy the feature checks, and ask for the microphone only when
      the media devices API exists. A refusal records the error's name and
      message; a failure in the audio test comes after access was granted, so
      it leaves the access standing but overwrites the permissions. */
  method RunMicrophoneDiagnostic(features: Features, access: Access) returns (d: Record)
    ensures d.browserSupport == features.browserSupport && d.mediaDevicesAPI == features.mediaDevicesAPI
    ensures d.speechRecognition == features.speechRecognition && d.audioContext == features.audioContext
    ensures !features.mediaDevicesAPI ==> !d.microphoneAccess && d.permissions == "unknown" && d.errors == []
    ensures features.mediaDevicesAPI ==> match access
      case Granted => d.microphoneAccess && d.permissions == "granted" && d.errors == []
      case Refused(name, message) =>
        !d.microphoneAccess && d.permissions == name && d.errors == ["Microphone access: " + message]
      case AudioTestFailed(name, message) =>
        if features.audioContext then
          d.microphoneAccess && d.permissions == name && d.errors == ["Microphone access: " + message]
        else
          d.microphoneAccess && d.permissions == "granted" && d.errors == []
    ensures d.microphoneAccess ==> d.mediaDevicesAPI
  {
    d := Record(false, false, false, false, false, "unknown", []);
    d := d.(browserSupport := features.browserSupport);
    d := d.(mediaDevicesAPI := features.mediaDevicesAPI);
    d := d.(speechRecognition := features.speechRecognition);
    d := d.(audioContext := features.audioContext);
    if d.mediaDevicesAPI {
      match access
      case Refused(name, message) =>
        d := d.(permissions := name);
        d := d.(errors := d.errors + ["Microphone access: " + message]);
      case Granted =>
        d := d.(microphoneAccess := true);
        d := d.(permissions := "granted");
      case AudioTestFailed(name, message) =>
        d := d.(microphoneAccess := true);
        d := d.(permissions := "granted");
        if d.audioContext {
          d := d.(permissions := name);
          d := d.(errors := d.errors + ["Microphone access: " + message]);
        }
    }
  }

  // ================================================================ issues and fixes

  /** The four checks that can raise an issue, in the order they are reported. */
  datatype Check = BrowserSupport | MediaDevicesAPI | SpeechRecognition | MicrophoneAccess

  const AllChecks: seq<Check> := [BrowserSupport, MediaDevicesAPI, SpeechRecognition, MicrophoneAccess]

  predicate Passed(d: Record, c: Check) {
    match c
    case BrowserSupport => d.browserSupport
    case MediaDevicesAPI => d.mediaDevicesAPI
    case SpeechRecognition => d.speechRecognition
    case MicrophoneAccess => d.microphoneAccess
  }

  function IssueText(c: Check): string {
    match c
    case BrowserSupport => "Browser not supported"
    case MediaDevicesAPI => "MediaDevices API not available"
    case SpeechRecognition => "Speech Recognition not supported"
    case MicrophoneAccess => "Microphone access denied or unavailable"
  }

  function FixText(c: Check): string {
    match c
    case BrowserSupport => "Use Chrome, Edge, or Safari"
    case MediaDevicesAPI => "Update your " + "browser to the " + "latest version"
    case SpeechRecognition => "Use Chrome, " + "Edge, or Safari " + "for speech " +
                              "recognition"
    case MicrophoneAccess => "Allow " + "microphone " + "permissions in " +
                             "browser settings"
  }

  /** The checks among `cs` that failed, in order. */
  function Failing(d: Record, cs: seq<Check>): (r: seq<Check>)
    ensures |r| <= |cs|
    ensures forall c :: c in r <==> c in cs && !Passed(d, c)
  {
    if cs == [] then [] else Failing(d, cs[..|cs| - 1]) + Pick(d, cs[|cs| - 1])
  }

  function Pick(d: Record, c: Check): seq<Check> {
    if Passed(d, c) then [] else [c]
  }

  /** The failed checks, one check at a time. */
  lemma FailingAll(d: Record)
    ensures Failing(d, AllChecks) ==
              [] + Pick(d, BrowserSupport) + Pick(d, MediaDevicesAPI) + Pick(d, SpeechRecognition) + Pick(d, MicrophoneAccess)
  {
    var c1 := [BrowserSupport];
    var c2 := c1 + [MediaDevicesAPI];
    var c3 := c2 + [SpeechRecognition];
    assert AllChecks == c3 + [MicrophoneAccess];
    assert AllChecks[..3] == c3;
    assert c3[..2] == c2;
    assert c2[..1] == c1;
    assert c1[..0] == [];
    assert Failing(d, c1) == [] + Pick(d, BrowserSupport);
    assert Failing(d, c2) == [] + Pick(d, BrowserSupport) + Pick(d, MediaDevicesAPI);
    assert Failing(d, c3) == [] + Pick(d, BrowserSupport) + Pick(d, MediaDevicesAPI) + Pick(d, SpeechRecognition);
  }

  /** The issue (or fix) texts of some checks. */
  function Texts(cs: seq<Check>, issue: bool): (r: seq<string>)
    ensures |r| == |cs|
  {
    if cs == [] then []
    else
      var c := cs[|cs| - 1];
      Texts(cs[..|cs| - 1], issue) + [if issue then IssueText(c) else FixText(c)]
  }

  lemma {:induction false} TextsConcat(a: seq<Check>, b: seq<Check>, issue: bool)
    ensures Texts(a + b, issue) == Texts(a, issue) + Texts(b, issue)
  {
    if b != [] {
      assert (a + b)[..|a + b| - 1] == a + b[..|b| - 1];
      TextsConcat(a, b[..|b| - 1], issue);
    } else {
      assert a + b == a;
    }
  }

  /** The two extra fixes for the three named access errors. */
  function PermissionFixes(permissions: string): (r: seq<string>)
    ensures |r| == 2 <==> permissions in {"NotAllowedError", "NotFoundError", "NotReadableError"}
    ensures |r| == 0 <==> permissions !in {"NotAllowedError", "NotFoundError", "NotReadableError"}
  {
    if permissions == "NotAllowedError" then
      ["Click the " + "microphone icon " + "in address bar " + "and allow access",
       "Go to browser " + "settings and " + "enable " + "microphone " + "permissions"]
    else if permissions == "NotFoundError" then
      ["Connect a microphone to your device",
       "Check that your " + "microphone is " + "working in " + "other " + "applications"]
    else if permissions == "NotReadableError" then
      ["Close other " + "applications " + "using the " + "microphone", "Restart your browser"]
    else []
  }

  /** What the results panel shows: the issues, or that all checks passed. */
  datatype Verdict = AllChecksPassed | IssuesFound(issues: seq<string>)

  /** One `if (!diagnostics.check) { issues.push(...); fixes.push(...); }`
      step, after the checks `failed` have been reported. */
  method Report(d: Record, c: Check, issues: seq<string>, fixes: seq<string>, ghost failed: seq<Check>)
    returns (issues': seq<string>, fixes': seq<string>)
    requires issues == Texts(failed, true) && fixes == Texts(failed, false)
    ensures issues' == Texts(failed + Pick(d, c), true)
    ensures fixes' == Texts(failed + Pick(d, c), false)
  {
    TextsConcat(failed, Pick(d, c), true);
    TextsConcat(failed, Pick(d, c), false);
    issues', fixes' := issues, fixes;
    if !Passed(d, c) {
      issues' := issues' + [IssueText(c)];
      fixes' := fixes' + [FixText(c)];
    }
  }

  /** `showMicrophoneDiagnosticResults`: one issue and one fix per failed check,
      in check order, then the fixes for a named access error; the success line
      is shown exactly when there is no issue. */
  method ShowMicrophoneDiagnosticResults(d: Record) returns (issues: seq<string>, fixes: seq<string>, verdict: Verdict)
    ensures issues == Texts(Failing(d, AllChecks), true)
    ensures fixes == Texts(Failing(d, AllChecks), false) + PermissionFixes(d.permissions)
    ensures verdict == if issues == [] then AllChecksPassed else IssuesFound(issues)
  {
    issues := [];
    fixes := [];
    ghost var failed: seq<Check> := [];
    issues, fixes := Report(d, BrowserSupport, issues, fixes, failed);
    failed := failed + Pick(d, BrowserSupport);
    issues, fixes := Report(d, MediaDevicesAPI, issues, fixes, failed);
    failed := failed + Pick(d, MediaDevicesAPI);
    issues, fixes := Report(d, SpeechRecognition, issues, fixes, failed);
    failed := failed + Pick(d, SpeechRecognition);
    issues, fixes := Report(d, MicrophoneAccess, issues, fixes, failed);
    failed := failed + Pick(d, MicrophoneAccess);
    FailingAll(d);
    fixes := fixes + PermissionFixes(d.permissions);
    verdict := if |issues| > 0 then IssuesFound(issues) else AllChecksPassed;
  }

  /** The panel reports success exactly when the four checks passed. */
  lemma AllPassedIff(d: Record)
    ensures Texts(Failing(d, AllChecks), true) == [] <==>
              d.browserSupport && d.mediaDevicesAPI && d.speechRecognition && d.microphoneAccess
  {
    FailingAll(d);
  }

  /** The audio context check never raises an issue or a fix. */
  lemma AudioContextIgnored(d: Record, audioContext: bool)
    ensures Failing(d.(audioContext := audioContext), AllChecks) == Failing(d, AllChecks)
  {
    FailingAll(d);
    FailingAll(d.(audioContext := audioContext));
  }

  /** There are as many fixes as issues, plus two for a named access error. */
  lemma FixesPerIssue(d: Record)
    ensures var n := |Texts(Failing(d, AllChecks), true)|;
      |Texts(Failing(d, AllChecks), false) + PermissionFixes(d.permissions)| ==
        n + (if d.permissions in {"NotAllowedError", "NotFoundError", "NotReadableError"} then 2 else 0)
  {
  }

  /** Without the media devices API the diagnostic reports both it and the
      microphone as issues, and no permission fixes. */
  lemma NoMediaDevicesTwoIssues(d: Record)
    requires !d.mediaDevicesAPI && !d.microphoneAccess && d.permissions == "unknown"
    ensures IssueText(MediaDevicesAPI) in Texts(Failing(d, AllChecks), true)
    ensures IssueText(MicrophoneAccess) in Texts(Failing(d, AllChecks), true)
    ensures PermissionFixes(d.permissions) == []
  {
    var f := Failing(d, AllChecks);
    assert MediaDevicesAPI in f && MicrophoneAccess in f;
    TextsHold(f, MediaDevicesAPI);
    TextsHold(f, MicrophoneAccess);
  }

  lemma {:induction false} TextsHold(cs: seq<Check>, c: Check)
    requires c in cs
    ensures IssueText(c) in Texts(cs, true)
  {
    var front := cs[..|cs| - 1];
    if cs[|cs| - 1] != c {
      assert cs == front + [cs[|cs| - 1]];
      TextsHold(front, c);
    }
  }

  // ================================================================ session report

  /** `Math.round(wordsSpoken / Math.max(messagesCount, 1))`. */
  function AverageWordsPerMessage(wordsSpoken: nat, messagesCount: nat): (r: nat)
    ensures var d := if messagesCount > 1 then messagesCount else 1;
      2 * d * r <= 2 * wordsSpoken + d < 2 * d * r + 2 * d
  {
    var d := if messagesCount > 1 then messagesCount else 1;
    (2 * wordsSpoken + d) / (2 * d)
  }

  /** The average is the nearest whole number to the quotient, halves rounded
      up, and with no message it is the word count itself. */
  lemma AverageIsNearest(wordsSpoken: nat, messagesCount: nat, k: nat)
    requires messagesCount >= 1
    requires 2 * messagesCount * k <= 2 * wordsSpoken + messagesCount < 2 * messagesCount * k + 2 * messagesCount
    ensures AverageWordsPerMessage(wordsSpoken, messagesCount) == k
  {
    var r := AverageWordsPerMessage(wordsSpoken, messagesCount);
    var d := 2 * messagesCount;
    if r < k {
      MultiplyStep(d, r, k);
      assert false;
    }
    if r > k {
      MultiplyStep(d, k, r);
      assert false;
    }
  }

  /** A larger factor adds at least one more multiple. */
  lemma {:induction false} MultiplyStep(a: nat, b: nat, c: nat)
    requires b < c
    ensures a * b + a <= a * c
    decreases c - b
  {
    if c > b + 1 {
      MultiplyStep(a, b, c - 1);
      assert a * (c - 1) + a == a * c;
    } else {
      assert a * (b + 1) == a * b + a;
    }
  }

  lemma AverageWithoutMessages(wordsSpoken: nat)
    ensures AverageWordsPerMessage(wordsSpoken, 0) == wordsSpoken
  {
  }
}
