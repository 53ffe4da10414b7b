/**
 The text process_password_claim prints for a failed login run (tools/openai_oauth_reauth_worker.py, lines 251-259) and
 safe_worker_failure (lines 402-420), which turns any exception into a code and has to read that text back.
 */
module FailureReport {
  import opened Wrappers
  import opened Text
  import opened FailureText

  // ---- The printer ----

  const LAST_STAGE: nat := 5

  // The runner's progress markers, in the order they are looked for. Stage 0 is the default.
  function StageMarker(stage: nat): string
    requires 0 < stage <= LAST_STAGE
  {
    match stage
    case 1 => "Password accepted"
    case 2 => "TOTP 2FA challenge reached"
    case 3 => "2FA verification accepted"
    case 4 => "Start Codex OAuth flow"
    case _ => "Convert OAuth callback"
  }

  function StageLabel(stage: nat): string
    requires stage <= LAST_STAGE
  {
    match stage
    case 0 => "web_login"
    case 1 => "password_accepted"
    case 2 => "mfa_challenge"
    case 3 => "mfa_accepted"
    case 4 => "excel_authorize"
    case _ => "excel_token_exchange"
  }

  // The stage after looking for the first n markers: the last one found.
  function StageOf(output: string, n: nat := LAST_STAGE): (stage: nat)
    requires n <= LAST_STAGE
    ensures stage <= n
    ensures stage > 0 ==> Contains(output, StageMarker(stage))
    ensures forall later :: stage < later <= n ==> !Contains(output, StageMarker(later))
  {
    if n == 0 then 0
    else if Contains(output, StageMarker(n)) then n
    else StageOf(output, n - 1)
  }

  const REASONS: nat := 9

  function ReasonMarker(i: nat): string
    requires i < REASONS
  {
    match i
    case 0 => "security-check"
    case 1 => "PROXY_RISK_CONTROL"
    case 2 => "EXCEL_ADDITIONAL_VERIFICATION_REQUIRED"
    case 3 => "EXCEL_CALLBACK_STATE_MISMATCH"
    case 4 => "EXCEL_EXPECTED_WORKSPACE_NOT_LISTED"
    case 5 => "Password was rejected"
    case 6 => "2FA key was rejected"
    case 7 => "SESSION_SELECTION_INVALID"
    case _ => "CLIENT_ID"
  }

  function ReasonLabel(i: nat): string
    requires i < REASONS
  {
    match i
    case 0 => "security_check"
    case 1 => "security_check"
    case 2 => "additional_verification"
    case 3 => "callback_state_mismatch"
    case 4 => "workspace_not_listed"
    case 5 => "password_rejected"
    case 6 => "totp_rejected"
    case 7 => "session_selection"
    case _ => "client_id"
  }

  predicate Found(output: string, i: nat)
    requires i < REASONS
  {
    Contains(output, ReasonMarker(i))
  }

  // What is looked for and what is printed for it.
  const STAGE_TABLE: seq<(string, string)> :=
    [("Password accepted", "password_accepted"), ("TOTP 2FA challenge reached", "mfa_challenge"),
     ("2FA verification accepted", "mfa_accepted"), ("Start Codex OAuth flow", "excel_authorize"),
     ("Convert OAuth callback", "excel_token_exchange")]

  const REASON_TABLE: seq<(string, string)> :=
    [("security-check", "security_check"), ("PROXY_RISK_CONTROL", "security_check"),
     ("EXCEL_ADDITIONAL_VERIFICATION_REQUIRED", "additional_verification"),
     ("EXCEL_CALLBACK_STATE_MISMATCH", "callback_state_mismatch"),
     ("EXCEL_EXPECTED_WORKSPACE_NOT_LISTED", "workspace_not_listed"), ("Password was rejected", "password_rejected"),
     ("2FA key was rejected", "totp_rejected"), ("SESSION_SELECTION_INVALID", "session_selection"),
     ("CLIENT_ID", "client_id")]

  lemma TablesAre(i: nat)
    ensures 0 < i <= LAST_STAGE ==> STAGE_TABLE[i - 1] == (StageMarker(i), StageLabel(i))
    ensures i < REASONS ==> REASON_TABLE[i] == (ReasonMarker(i), ReasonLabel(i))
  {}

  // The labels of the markers found among the first n, in table order.
  function LabelsFound(output: string, n: nat := REASONS): (labels: seq<string>)
    requires n <= REASONS
    ensures forall name :: name in labels <==> exists i: nat :: i < n && Found(output, i) && name == ReasonLabel(i)
  {
    if n == 0 then []
    else
      var before := LabelsFound(output, n - 1);
      if Found(output, n - 1) then before + [ReasonLabel(n - 1)] else before
  }

  // Python's order on strings.
  predicate Less(a: string, b: string) {
    b != "" && (a == "" || a[0] < b[0] || (a[0] == b[0] && Less(a[1..], b[1..])))
  }

  lemma {:induction false} LessTotal(a: string, b: string)
    ensures Less(a, b) || a == b || Less(b, a)
  {
    if a != "" && b != "" && a[0] == b[0] {
      LessTotal(a[1..], b[1..]);
      if a[1..] == b[1..] {
        assert a == [a[0]] + a[1..] && b == [b[0]] + b[1..];
      }
    }
  }

  lemma {:induction false} LessTransitive(a: string, b: string, c: string)
    requires Less(a, b) && Less(b, c)
    ensures Less(a, c)
  {
    if a != "" && a[0] == b[0] == c[0] {
      LessTransitive(a[1..], b[1..], c[1..]);
    }
  }

  ghost predicate Ascending(xs: seq<string>) { forall i, j :: 0 <= i < j < |xs| ==> Less(xs[i], xs[j]) }

  function Insert(xs: seq<string>, x: string): seq<string> {
    if xs == [] || Less(x, xs[0]) then [x] + xs
    else if x == xs[0] then xs
    else [xs[0]] + Insert(xs[1..], x)
  }

  // sorted(set(xs)).
  function SortedSet(xs: seq<string>): seq<string> {
    if xs == [] then [] else Insert(SortedSet(xs[..|xs| - 1]), xs[|xs| - 1])
  }

  lemma {:induction false} InsertKeepsOrder(xs: seq<string>, x: string)
    requires Ascending(xs)
    ensures Ascending(Insert(xs, x))
    ensures forall y :: y in Insert(xs, x) <==> y == x || y in xs
  {
    if xs == [] {
    } else if Less(x, xs[0]) {
      forall j | 0 < j < |xs| ensures Less(x, xs[j]) {
        LessTransitive(x, xs[0], xs[j]);
      }
    } else if x != xs[0] {
      LessTotal(x, xs[0]);
      InsertKeepsOrder(xs[1..], x);
      assert xs == [xs[0]] + xs[1..];
      var rest := Insert(xs[1..], x);
      forall j | 0 <= j < |rest| ensures Less(xs[0], rest[j]) {
        assert rest[j] in rest;
      }
    }
  }

  // sorted(set(xs)) is strictly ascending and has the elements of xs.
  lemma {:induction false} SortedSetExact(xs: seq<string>)
    ensures Ascending(SortedSet(xs))
    ensures forall y :: y in SortedSet(xs) <==> y in xs
  {
    if xs != [] {
      var init := xs[..|xs| - 1];
      SortedSetExact(init);
      InsertKeepsOrder(SortedSet(init), xs[|xs| - 1]);
      assert xs == init + [xs[|xs| - 1]];
    }
  }

  function ReasonText(output: string): string {
    var text := Join(SortedSet(LabelsFound(output)), ',');
    if text == "" then "protocol_error" else text
  }

  const HEAD := "Excel password/TOTP login failed (stage="
  const MIDDLE := ", reason="
  const EXIT := ", exit="

  function Compose(stage: string, reasons: string, exit: string): string {
    HEAD + stage + MIDDLE + reasons + EXIT + exit + ")"
  }

  function Output(stdout: string, stderr: string): string { stdout + "\n" + stderr }

  // str(exc) of the WorkerError raised when the runner exits with a non-zero code.
  function RunFailure(stdout: string, stderr: string, exit: int): string {
    var output := Output(stdout, stderr);
    Compose(StageLabel(StageOf(output)), ReasonText(output), DecimalInt(exit))
  }

  // ---- The reader ----

  predicate Word(s: string) { s != "" && forall i :: 0 <= i < |s| ==> s[i] == '_' || 'a' <= s[i] <= 'z' }

  predicate WordList(s: string) {
    s != "" && forall i :: 0 <= i < |s| ==> s[i] == '_' || s[i] == ',' || 'a' <= s[i] <= 'z'
  }

  predicate ShortNumber(s: string) {
    var digits := if s != "" && s[0] == '-' then s[1..] else s;
    1 <= |digits| <= 3 && forall i :: 0 <= i < |digits| ==> IsDigit(digits[i])
  }

  // The regular expression matches raw, with these three groups.
  ghost predicate Matches(raw: string, stage: string, reasons: string, exit: string) {
    Word(stage) && WordList(reasons) && ShortNumber(exit) && raw == Compose(stage, reasons, exit)
  }

  // The second group of the match.
  ghost function MatchedReasons(raw: string): Option<string> {
    if exists stage, reasons, exit :: Matches(raw, stage, reasons, exit) then
      var stage, reasons, exit :| Matches(raw, stage, reasons, exit);
      Some(reasons)
    else None
  }

  function Priority(reasons: seq<string>): Code {
    if "security_check" in reasons then SecurityCheck
    else if "additional_verification" in reasons then SecurityCheck
    else if "password_rejected" in reasons then PasswordRejected
    else if "totp_rejected" in reasons then MfaRequired
    else AuthorizationDenied
  }

  // An exception: an OperationWorkerError, a timeout, or any other with its text.
  datatype Failure = OperationFailure(known: Option<Code>) | TimedOut(text: string) | Other(text: string)
  {
    function Text(): string {
      match this
      case OperationFailure(Some(code)) => Name(code)
      case OperationFailure(None) => "unknown"
      case TimedOut(text) => text
      case Other(text) => text
    }
  }

  // OperationWorkerError(code): anything but a known code becomes "unknown".
  function NewOperationFailure(code: string): Failure { OperationFailure(CodeNamed(code)) }

  const PROTOCOL_TIMED_OUT := "password/TOTP protocol timed out"

  ghost function ReportCode(raw: string): Option<Code> {
    var reasons := MatchedReasons(if |raw| <= 256 then raw else "");
    if reasons.Some? then Some(Priority(Split(reasons.value, ','))) else None
  }

  ghost function Safe(exc: Failure): Verdict {
    var raw := Strip(exc.Text());
    if exc.OperationFailure? then (if exc.known.Some? then Reported(exc.known.value) else Unknown)
    else if OperationCode(raw).Some? then Reported(OperationCode(raw).value)
    else if OperationText(raw).Some? then Reported(OperationText(raw).value)
    else if ReportCode(raw).Some? then Reported(ReportCode(raw).value)
    else if exc.TimedOut? || raw == PROTOCOL_TIMED_OUT then Reported(Timeout)
    else WorkerFailed
  }

  // WorkerAPI.fail: the reason sent over the wire is classified once more.
  ghost function Sent(reason: string): string { Safe(Other(reason)).Text() }

  // ---- The match is unambiguous ----

  lemma SplitAt(a: string, s: string, b: string, t: string)
    requires a + s == b + t && |a| == |b|
    ensures a == b && s == t
  {
    assert a == (a + s)[..|a|] && b == (b + t)[..|b|];
    assert s == (a + s)[|a|..] && t == (b + t)[|b|..];
  }

  // A run of class characters followed by a character outside the class ends in one place only.
  lemma RunEndsOnce(a: string, s: string, b: string, t: string, inside: char -> bool)
    requires a + s == b + t && s != "" && t != ""
    requires forall i :: 0 <= i < |a| ==> inside(a[i])
    requires forall i :: 0 <= i < |b| ==> inside(b[i])
    requires !inside(s[0]) && !inside(t[0])
    ensures a == b && s == t
  {
    assert (a + s)[|a|] == s[0] && (b + t)[|b|] == t[0];
    SplitAt(a, s, b, t);
  }

  // What follows the stage in a composed text.
  function AfterStage(reasons: string, exit: string): string { MIDDLE + (reasons + "," + AfterReasons(exit)) }

  // What follows the reasons and one more comma.
  function AfterReasons(exit: string): string { " exit=" + exit + ")" }

  lemma ComposedParts(stage: string, reasons: string, exit: string)
    ensures Compose(stage, reasons, exit) == HEAD + (stage + AfterStage(reasons, exit))
  {}

  lemma ReasonsAreUnique(reasons: string, exit: string, reasons': string, exit': string)
    requires WordList(reasons) && WordList(reasons') && AfterStage(reasons, exit) == AfterStage(reasons', exit')
    ensures reasons == reasons' && exit == exit'
  {
    var tail, tail' := AfterReasons(exit), AfterReasons(exit');
    SplitAt(MIDDLE, reasons + "," + tail, MIDDLE, reasons' + "," + tail');
    RunEndsOnce(reasons + ",", tail, reasons' + ",", tail', c => c == '_' || c == ',' || 'a' <= c <= 'z');
    SplitAt(reasons, ",", reasons', ",");
    assert exit == tail[6..|tail| - 1] && exit' == tail'[6..|tail'| - 1];
  }

  lemma GroupsAreUnique(stage: string, reasons: string, exit: string, stage': string, reasons': string, exit': string)
    requires Word(stage) && WordList(reasons) && Word(stage') && WordList(reasons')
    requires Compose(stage, reasons, exit) == Compose(stage', reasons', exit')
    ensures stage == stage' && reasons == reasons' && exit == exit'
  {
    ComposedParts(stage, reasons, exit);
    ComposedParts(stage', reasons', exit');
    var rest, rest' := AfterStage(reasons, exit), AfterStage(reasons', exit');
    SplitAt(HEAD, stage + rest, HEAD, stage' + rest');
    RunEndsOnce(stage, rest, stage', rest', c => c == '_' || 'a' <= c <= 'z');
    ReasonsAreUnique(reasons, exit, reasons', exit');
  }

  // Reading a composed text finds its groups, exactly when the exit code is a short number.
  lemma ReadsComposed(stage: string, reasons: string, exit: string)
    requires Word(stage) && WordList(reasons)
    ensures MatchedReasons(Compose(stage, reasons, exit)) == if ShortNumber(exit) then Some(reasons) else None
  {
    var raw := Compose(stage, reasons, exit);
    if ShortNumber(exit) {
      assert Matches(raw, stage, reasons, exit);
    }
    forall s, r, e | Matches(raw, s, r, e) ensures r == reasons && e == exit {
      GroupsAreUnique(stage, reasons, exit, s, r, e);
    }
  }

  lemma NumbersAreShort(n: int)
    ensures ShortNumber(DecimalInt(n)) <==> -999 <= n <= 999
    ensures -999 <= n <= 999 ==> |DecimalInt(n)| <= 4
  {
    var m: nat := if n < 0 then -n else n;
    DecimalDigits(m);
    DecimalLength(m);
    assert ("-" + Decimal(m))[1..] == Decimal(m);
    assert IsDigit(Decimal(m)[0]);
  }

  // ---- The printed text always fits what the reader accepts ----

  lemma LabelsAreWords(i: nat)
    requires i < REASONS
    ensures Word(ReasonLabel(i)) && ',' !in ReasonLabel(i)
  {
    if i <= 3 { EarlyLabelsAreWords(i); } else { LateLabelsAreWords(i); }
  }

  lemma EarlyLabelsAreWords(i: nat)
    requires i <= 3
    ensures Word(ReasonLabel(i))
  {
    match i { case _ => }
  }

  lemma LateLabelsAreWords(i: nat)
    requires 4 <= i < REASONS
    ensures Word(ReasonLabel(i))
  {
    match i { case _ => }
  }

  lemma StagesAreWords(stage: nat)
    requires stage <= LAST_STAGE
    ensures Word(StageLabel(stage)) && |StageLabel(stage)| <= 20
  {
    if stage <= 2 { EarlyStagesAreWords(stage); } else { LateStagesAreWords(stage); }
  }

  lemma EarlyStagesAreWords(stage: nat)
    requires stage <= 2
    ensures Word(StageLabel(stage)) && |StageLabel(stage)| <= 20
  {
    match stage { case _ => }
  }

  lemma LateStagesAreWords(stage: nat)
    requires 3 <= stage <= LAST_STAGE
    ensures Word(StageLabel(stage)) && |StageLabel(stage)| <= 20
  {
    match stage { case _ => }
  }

  lemma {:induction false} JoinOfWords(words: seq<string>)
    requires words != [] && forall i :: 0 <= i < |words| ==> Word(words[i])
    ensures WordList(Join(words, ','))
  {
    if |words| > 1 {
      JoinOfWords(words[1..]);
    }
  }

  // The room the words take, each with one separator.
  function Room(words: seq<string>): nat { if words == [] then 0 else |words[0]| + 1 + Room(words[1..]) }

  lemma {:induction false} RoomAtEnd(words: seq<string>, word: string)
    ensures Room(words + [word]) == Room(words) + |word| + 1
  {
    if words != [] {
      assert (words + [word])[1..] == words[1..] + [word];
      RoomAtEnd(words[1..], word);
    }
  }

  lemma {:induction false} InsertRoom(words: seq<string>, word: string)
    ensures Room(Insert(words, word)) <= Room(words) + |word| + 1
  {
    if words != [] && !Less(word, words[0]) && word != words[0] {
      InsertRoom(words[1..], word);
    }
  }

  lemma {:induction false} SortedSetRoom(words: seq<string>)
    ensures Room(SortedSet(words)) <= Room(words)
  {
    if words != [] {
      var init, last := words[..|words| - 1], words[|words| - 1];
      SortedSetRoom(init);
      InsertRoom(SortedSet(init), last);
      RoomAtEnd(init, last);
      assert words == init + [last];
    }
  }

  lemma {:induction false} JoinFits(words: seq<string>)
    ensures |Join(words, ',')| <= Room(words)
  {
    if words != [] {
      JoinFits(words[1..]);
    }
  }

  lemma {:induction false} LabelsFit(output: string, n: nat)
    requires n <= REASONS
    ensures Room(LabelsFound(output, n)) <= TableRoom(n)
  {
    if n > 0 {
      LabelsFit(output, n - 1);
      RoomAtEnd(LabelsFound(output, n - 1), ReasonLabel(n - 1));
    }
  }

  function TableRoom(n: nat): nat
    requires n <= REASONS
  {
    if n == 0 then 0 else TableRoom(n - 1) + |ReasonLabel(n - 1)| + 1
  }

  lemma WholeTableRoom()
    ensures TableRoom(REASONS) == 159
  {
    assert TableRoom(3) == 54;
    assert TableRoom(6) == 117;
  }

  // The reason part is a list of words that splits back into the labels found, and takes at most 159 characters.
  lemma ReasonTextReadsBack(output: string)
    ensures WordList(ReasonText(output)) && |ReasonText(output)| <= 159
    ensures forall name | name != "protocol_error" ::
      name in Split(ReasonText(output), ',') <==> name in LabelsFound(output)
  {
    var labels := LabelsFound(output);
    var words := SortedSet(labels);
    SortedSetExact(labels);
    forall i | 0 <= i < |words| ensures Word(words[i]) && ',' !in words[i] {
      assert words[i] in labels;
      var k: nat :| k < REASONS && words[i] == ReasonLabel(k);
      LabelsAreWords(k);
    }
    SortedSetRoom(labels);
    JoinFits(words);
    LabelsFit(output, REASONS);
    WholeTableRoom();
    if words != [] {
      JoinOfWords(words);
      SplitJoin(words, ',');
    } else {
      DefaultReasonReadsBack();
    }
  }

  lemma DefaultReasonReadsBack()
    ensures WordList("protocol_error") && Split("protocol_error", ',') == ["protocol_error"]
  {
    assert ',' !in "protocol_error";
  }

  // The stream mentions the marker: one of the two outputs of the run contains it.
  ghost predicate Mentions(stdout: string, stderr: string, marker: string) {
    Contains(stdout, marker) || Contains(stderr, marker)
  }

  // A marker without a line break is never formed across the line break between the two outputs.
  lemma NeverAcrossOutputs(stdout: string, stderr: string, marker: string)
    requires '\n' !in marker
    ensures Contains(Output(stdout, stderr), marker) <==> Mentions(stdout, stderr, marker)
  {
    var output := Output(stdout, stderr);
    if Contains(stdout, marker) {
      ContainsWidens("", stdout, "\n" + stderr, marker);
      assert "" + stdout + ("\n" + stderr) == output;
    }
    if Contains(stderr, marker) {
      ContainsWidens(stdout + "\n", stderr, "", marker);
      assert stdout + "\n" + stderr + "" == output;
    }
    if Contains(output, marker) {
      var i :| 0 <= i <= |output| && marker <= output[i..];
      assert forall j :: i <= j < i + |marker| ==> output[j] == marker[j - i];
      assert !(i <= |stdout| < i + |marker|) by {
        assert output[|stdout|] == '\n';
      }
      if i > |stdout| {
        assert output[i..] == stderr[i - |stdout| - 1..];
      } else {
        assert marker <= stdout[i..];
      }
    }
  }

  lemma MarkersAreOneLine(i: nat)
    ensures i < REASONS ==> '\n' !in ReasonMarker(i)
    ensures 0 < i <= LAST_STAGE ==> '\n' !in StageMarker(i)
  {
    if i <= 2 {
      EarlyReasonMarkersAreOneLine(i);
    } else if i <= 4 {
      MiddleReasonMarkersAreOneLine(i);
    } else if i < REASONS {
      LateReasonMarkersAreOneLine(i);
    }
    if 0 < i <= 3 { EarlyStageMarkersAreOneLine(i); } else if 3 < i <= LAST_STAGE { LateStageMarkersAreOneLine(i); }
  }

  lemma EarlyStageMarkersAreOneLine(i: nat)
    requires 0 < i <= 3
    ensures '\n' !in StageMarker(i)
  {
    match i { case _ => }
  }

  lemma LateStageMarkersAreOneLine(i: nat)
    requires 3 < i <= LAST_STAGE
    ensures '\n' !in StageMarker(i)
  {
    match i { case _ => }
  }

  lemma MiddleReasonMarkersAreOneLine(i: nat)
    requires 3 <= i <= 4
    ensures '\n' !in ReasonMarker(i)
  {
    match i { case _ => }
  }

  lemma EarlyReasonMarkersAreOneLine(i: nat)
    requires i <= 2
    ensures '\n' !in ReasonMarker(i)
  {
    match i { case _ => }
  }

  lemma LateReasonMarkersAreOneLine(i: nat)
    requires 5 <= i < REASONS
    ensures '\n' !in ReasonMarker(i)
  {
    match i { case _ => }
  }

  // The run wrote the i-th marker to one of its two outputs.
  ghost predicate Says(stdout: string, stderr: string, i: nat)
    requires i < REASONS
  {
    Mentions(stdout, stderr, ReasonMarker(i))
  }

  // The reason a failed run stands for, in the runner's own words.
  ghost function RunReason(stdout: string, stderr: string): string {
    if Mentions(stdout, stderr, "security-check") || Mentions(stdout, stderr, "PROXY_RISK_CONTROL")
       || Mentions(stdout, stderr, "EXCEL_ADDITIONAL_VERIFICATION_REQUIRED")
    then "security_check"
    else if Mentions(stdout, stderr, "Password was rejected") then "password_rejected"
    else if Mentions(stdout, stderr, "2FA key was rejected") then "mfa_required"
    else "authorization_denied"
  }

  // The same by the places of the markers in the table.
  ghost function RunCode(stdout: string, stderr: string): Code {
    if Says(stdout, stderr, 0) || Says(stdout, stderr, 1) || Says(stdout, stderr, 2) then SecurityCheck
    else if Says(stdout, stderr, 5) then PasswordRejected
    else if Says(stdout, stderr, 6) then MfaRequired
    else AuthorizationDenied
  }

  lemma SaysMeans(stdout: string, stderr: string)
    ensures Says(stdout, stderr, 0) <==> Mentions(stdout, stderr, "security-check")
    ensures Says(stdout, stderr, 1) <==> Mentions(stdout, stderr, "PROXY_RISK_CONTROL")
    ensures Says(stdout, stderr, 2) <==> Mentions(stdout, stderr, "EXCEL_ADDITIONAL_VERIFICATION_REQUIRED")
    ensures Says(stdout, stderr, 5) <==> Mentions(stdout, stderr, "Password was rejected")
    ensures Says(stdout, stderr, 6) <==> Mentions(stdout, stderr, "2FA key was rejected")
  {}

  lemma RunReasonIsCode(stdout: string, stderr: string)
    ensures RunReason(stdout, stderr) == Name(RunCode(stdout, stderr))
  {
    SaysMeans(stdout, stderr);
    match RunCode(stdout, stderr)
    case SecurityCheck =>
    case PasswordRejected =>
    case MfaRequired =>
    case _ =>
  }

  lemma LabelMeanings(i: nat)
    requires i < REASONS
    ensures ReasonLabel(i) == "security_check" <==> i <= 1
    ensures ReasonLabel(i) == "additional_verification" <==> i == 2
    ensures ReasonLabel(i) == "password_rejected" <==> i == 5
    ensures ReasonLabel(i) == "totp_rejected" <==> i == 6
  {
    match i { case _ => }
  }

  lemma PriorityOfLabels(stdout: string, stderr: string)
    ensures Priority(LabelsFound(Output(stdout, stderr))) == RunCode(stdout, stderr)
  {
    var output := Output(stdout, stderr);
    forall i: nat | i < REASONS ensures Found(output, i) <==> Says(stdout, stderr, i) {
      MarkersAreOneLine(i);
      NeverAcrossOutputs(stdout, stderr, ReasonMarker(i));
    }
    PriorityByLabel(LabelsFound(output));
    LabelTellsMarker(output, 0);
    LabelTellsMarker(output, 2);
    LabelTellsMarker(output, 5);
    LabelTellsMarker(output, 6);
  }

  lemma PriorityByLabel(labels: seq<string>)
    ensures Priority(labels) ==
      if ReasonLabel(0) in labels || ReasonLabel(2) in labels then SecurityCheck
      else if ReasonLabel(5) in labels then PasswordRejected
      else if ReasonLabel(6) in labels then MfaRequired
      else AuthorizationDenied
  {}

  lemma LabelTellsMarker(output: string, i: nat)
    requires i in {0, 2, 5, 6}
    ensures ReasonLabel(i) in LabelsFound(output) <==> Found(output, i) || (i == 0 && Found(output, 1))
  {
    forall k: nat | k < REASONS ensures ReasonLabel(k) == ReasonLabel(i) <==> k == i || (i == 0 && k == 1) {
      LabelMeanings(k);
      LabelMeanings(i);
    }
  }

  // A capital opens no key of the code table, and a parenthesis ends none of the other table.
  lemma ReportsAreNotKeys(raw: string)
    requires raw != "" && raw[0] == 'E' && raw[|raw| - 1] == ')'
    ensures OperationCode(raw) == None && OperationText(raw) == None && raw != PROTOCOL_TIMED_OUT
  {
    if OperationCode(raw).Some? {
      KeysAreShaped(raw);
    }
    TextsAreSentences(raw);
  }

  lemma TextsAreSentences(raw: string)
    ensures OperationText(raw).Some? ==> |raw| > 0 && raw[|raw| - 1] == '.'
    ensures raw == PROTOCOL_TIMED_OUT ==> |raw| > 0 && raw[|raw| - 1] == 't'
  {}

  // For every output and exit code: the text of a failed run is read back as the code its output stands for, exactly
  // when the exit code has at most three digits. With more digits the text is not recognised at all.
  lemma RunFailureIsReadBack(stdout: string, stderr: string, exit: int)
    ensures -999 <= exit <= 999 ==> |RunFailure(stdout, stderr, exit)| <= 240
    ensures Safe(Other(RunFailure(stdout, stderr, exit))).Text() ==
      if -999 <= exit <= 999 then RunReason(stdout, stderr) else "worker_failed"
  {
    RunCodeIsReadBack(stdout, stderr, exit);
    RunReasonIsCode(stdout, stderr);
  }

  lemma RunCodeIsReadBack(stdout: string, stderr: string, exit: int)
    ensures -999 <= exit <= 999 ==> |RunFailure(stdout, stderr, exit)| <= 240
    ensures Safe(Other(RunFailure(stdout, stderr, exit)))
      == if -999 <= exit <= 999 then Reported(RunCode(stdout, stderr)) else WorkerFailed
  {
    var output := Output(stdout, stderr);
    var stage, reasons, number := StageLabel(StageOf(output)), ReasonText(output), DecimalInt(exit);
    var raw := RunFailure(stdout, stderr, exit);
    StagesAreWords(StageOf(output));
    ReasonTextReadsBack(output);
    NumbersAreShort(exit);
    ReadsComposed(stage, reasons, number);
    ReportsAreRead(stage, reasons, number);
    NothingReadsEmpty();
    PriorityOfSplit(output);
    PriorityOfLabels(stdout, stderr);
  }

  // The label printed for the stage: that of the last marker written, in table order.
  ghost predicate LastStage(stdout: string, stderr: string, printed: string) {
    if printed == "web_login" then
      forall i :: 0 <= i < |STAGE_TABLE| ==> !Mentions(stdout, stderr, STAGE_TABLE[i].0)
    else
      exists i ::
        && 0 <= i < |STAGE_TABLE| && STAGE_TABLE[i].1 == printed && Mentions(stdout, stderr, STAGE_TABLE[i].0)
        && forall j :: i < j < |STAGE_TABLE| ==> !Mentions(stdout, stderr, STAGE_TABLE[j].0)
  }

  // The words printed as reasons: those of the markers written, ascending.
  ghost predicate ReasonWords(stdout: string, stderr: string, words: seq<string>) {
    && Ascending(words)
    && forall word :: word in words <==> exists i ::
      0 <= i < |REASON_TABLE| && Mentions(stdout, stderr, REASON_TABLE[i].0) && REASON_TABLE[i].1 == word
  }

  lemma StageIsLast(stdout: string, stderr: string)
    ensures LastStage(stdout, stderr, StageLabel(StageOf(Output(stdout, stderr))))
  {
    var output := Output(stdout, stderr);
    var stage := StageOf(output);
    forall i | 0 <= i < |STAGE_TABLE|
      ensures STAGE_TABLE[i] == (StageMarker(i + 1), StageLabel(i + 1))
      ensures Mentions(stdout, stderr, STAGE_TABLE[i].0) <==> Contains(output, StageMarker(i + 1))
    {
      TablesAre(i + 1);
      MarkersAreOneLine(i + 1);
      NeverAcrossOutputs(stdout, stderr, StageMarker(i + 1));
    }
    DefaultStage(stage);
    if stage > 0 {
      assert STAGE_TABLE[stage - 1].1 == StageLabel(stage);
    }
  }

  lemma DefaultStage(stage: nat)
    requires stage <= LAST_STAGE
    ensures StageLabel(stage) == "web_login" <==> stage == 0
  {
    match stage { case _ => }
  }

  lemma WordsAreReasons(stdout: string, stderr: string)
    ensures ReasonWords(stdout, stderr, SortedSet(LabelsFound(Output(stdout, stderr))))
  {
    var output := Output(stdout, stderr);
    SortedSetExact(LabelsFound(output));
    forall i: nat | i < REASONS
      ensures REASON_TABLE[i] == (ReasonMarker(i), ReasonLabel(i))
      ensures Mentions(stdout, stderr, REASON_TABLE[i].0) <==> Found(output, i)
    {
      TablesAre(i);
      MarkersAreOneLine(i);
      NeverAcrossOutputs(stdout, stderr, ReasonMarker(i));
    }
  }

  // The text of a failed run: the stage reached, and the reasons written, each once, in order.
  lemma RunFailureSays(stdout: string, stderr: string, exit: int) returns (stage: string, words: seq<string>)
    ensures LastStage(stdout, stderr, stage) && ReasonWords(stdout, stderr, words)
    ensures RunFailure(stdout, stderr, exit) ==
      "Excel password/TOTP login failed (stage=" + stage + ", reason="
      + (if words == [] then "protocol_error" else Join(words, ',')) + ", exit=" + DecimalInt(exit) + ")"
  {
    var output := Output(stdout, stderr);
    stage, words := StageLabel(StageOf(output)), SortedSet(LabelsFound(output));
    StageIsLast(stdout, stderr);
    WordsAreReasons(stdout, stderr);
    ReasonTextReadsBack(output);
    if words != [] {
      WordsJoin(output);
    }
  }

  lemma WordsJoin(output: string)
    requires SortedSet(LabelsFound(output)) != []
    ensures Join(SortedSet(LabelsFound(output)), ',') != ""
  {
    var labels := LabelsFound(output);
    var words := SortedSet(labels);
    SortedSetExact(labels);
    forall i | 0 <= i < |words| ensures Word(words[i]) {
      assert words[i] in labels;
      var k: nat :| k < REASONS && words[i] == ReasonLabel(k);
      LabelsAreWords(k);
    }
    JoinOfWords(words);
  }

  // No table and no timeout gets in the way of a composed text.
  lemma ReportsAreRead(stage: string, reasons: string, exit: string)
    ensures var raw := Compose(stage, reasons, exit);
      && |raw| == 57 + |stage| + |reasons| + |exit|
      && Safe(Other(raw)) == if ReportCode(raw).Some? then Reported(ReportCode(raw).value) else WorkerFailed
  {
    ComposedIsTrimmed(stage, reasons, exit);
    ReportsAreNotKeys(Compose(stage, reasons, exit));
  }

  lemma ComposedIsTrimmed(stage: string, reasons: string, exit: string)
    ensures var raw := Compose(stage, reasons, exit);
      raw[0] == 'E' && raw[|raw| - 1] == ')' && Strip(raw) == raw && |raw| == 57 + |stage| + |reasons| + |exit|
  {
    HeadOpens();
    var raw := Compose(stage, reasons, exit);
    assert raw[0] == HEAD[0] && raw[|raw| - 1] == ')';
    StripTrimmed(raw);
  }

  lemma HeadOpens()
    ensures |HEAD| == 40 && HEAD[0] == 'E'
  {}

  lemma NothingReadsEmpty()
    ensures MatchedReasons("") == None
  {
    forall s, r, e ensures !Matches("", s, r, e) {
      ComposedIsTrimmed(s, r, e);
    }
  }

  lemma PriorityOfSplit(output: string)
    ensures Priority(Split(ReasonText(output), ',')) == Priority(LabelsFound(output))
  {
    ReasonTextReadsBack(output);
  }

  // Writing more, before or after, on either stream, never lowers the stage and never removes a reason.
  lemma MoreOutputNeverRetracts(stdout: string, stderr: string, a: string, b: string, c: string, d: string)
    ensures StageOf(Output(stdout, stderr)) <= StageOf(Output(a + stdout + b, c + stderr + d))
    ensures forall name :: (name in LabelsFound(Output(stdout, stderr))
                            ==> name in LabelsFound(Output(a + stdout + b, c + stderr + d)))
  {
    var output, more := Output(stdout, stderr), Output(a + stdout + b, c + stderr + d);
    var stage := StageOf(output);
    if stage > 0 {
      MarkerStays(stdout, stderr, a, b, c, d, StageMarker(stage), stage);
      assert StageOf(more) >= stage;
    }
    forall i: nat | i < REASONS && Found(output, i) ensures Found(more, i) {
      MarkerStays(stdout, stderr, a, b, c, d, ReasonMarker(i), i);
    }
  }

  lemma MarkerStays(stdout: string, stderr: string, a: string, b: string, c: string, d: string, marker: string, i: nat)
    requires (i < REASONS && marker == ReasonMarker(i)) || (0 < i <= LAST_STAGE && marker == StageMarker(i))
    requires Contains(Output(stdout, stderr), marker)
    ensures Contains(Output(a + stdout + b, c + stderr + d), marker)
  {
    MarkersAreOneLine(i);
    NeverAcrossOutputs(stdout, stderr, marker);
    if Contains(stdout, marker) {
      ContainsWidens(a, stdout, b, marker);
    } else {
      ContainsWidens(c, stderr, d, marker);
    }
    NeverAcrossOutputs(a + stdout + b, c + stderr + d, marker);
  }

  // ---- The vocabulary is closed ----

  lemma NamesAreTrimmed(code: Code)
    ensures Strip(Name(code)) == Name(code)
  {
    assert Trimmed(Name(code)) by {
      match code { case _ => }
    }
    StripTrimmed(Name(code));
  }

  // "unknown" and "worker_failed" are not recognised as anything.
  lemma LeftoversAreNotRecognised(verdict: Verdict)
    requires !verdict.Reported?
    ensures Safe(Other(verdict.Text())) == WorkerFailed
  {
    LeftoverText(verdict);
    LeftoversAreNotKeys(verdict);
    LeftoversAreNoReports(verdict.Text());
  }

  lemma LeftoverText(verdict: Verdict)
    requires !verdict.Reported?
    ensures var raw := verdict.Text();
      Strip(raw) == raw && raw != "" && raw[|raw| - 1] in {'n', 'd'} && OperationText(raw) == None
        && raw != PROTOCOL_TIMED_OUT
  {
    LeftoverEnds(verdict);
    StripTrimmed(verdict.Text());
    TextsAreSentences(verdict.Text());
  }

  lemma LeftoverEnds(verdict: Verdict)
    requires !verdict.Reported?
    ensures var raw := verdict.Text(); Trimmed(raw) && raw != "" && raw[|raw| - 1] in {'n', 'd'}
  {
    match verdict { case _ => }
  }

  lemma LeftoversAreNoReports(raw: string)
    requires raw != "" && raw[|raw| - 1] in {'n', 'd'}
    ensures ReportCode(raw) == None
  {
    forall s, r, e ensures !Matches(raw, s, r, e) {
      ComposedIsTrimmed(s, r, e);
    }
    NothingReadsEmpty();
  }

  lemma LeftoversAreNotKeys(verdict: Verdict)
    requires !verdict.Reported?
    ensures CodeNamed(verdict.Text()) == None && AliasOf(verdict.Text()) == None
  {
    LeftoversAreNotNames(verdict);
    LeftoversAreNotLogin(verdict);
    LeftoversAreNotChallenge(verdict);
    LeftoversAreNotService(verdict);
  }

  lemma LeftoversAreNotNames(verdict: Verdict)
    requires !verdict.Reported?
    ensures CodeNamed(verdict.Text()) == None
  {
    match verdict { case _ => }
  }

  lemma LeftoversAreNotLogin(verdict: Verdict)
    requires !verdict.Reported?
    ensures LoginAlias(verdict.Text()) == None
  {
    match verdict { case _ => }
  }

  lemma LeftoversAreNotChallenge(verdict: Verdict)
    requires !verdict.Reported?
    ensures ChallengeAlias(verdict.Text()) == None
  {
    match verdict { case _ => }
  }

  lemma LeftoversAreNotService(verdict: Verdict)
    requires !verdict.Reported?
    ensures ServiceAlias(verdict.Text()) == None
  {
    match verdict { case _ => }
  }

  // A code stands for itself, however often it is classified.
  lemma CodesClassifyAsThemselves(code: Code)
    ensures Safe(Other(Name(code))) == Safe(OperationFailure(Some(code))) == Reported(code)
  {
    NamesAreTrimmed(code);
    CodesAreStable(code);
  }

  // OperationWorkerError keeps exactly the values of the table.
  lemma OperationFailuresAreNormalised(text: string)
    ensures Safe(NewOperationFailure(text)).Text() == if exists code :: Name(code) == text then text else "unknown"
  {
    if code :| Name(code) == text {
      if EarlyCode(code) { EarlyCodesAreStable(code); } else { LateCodesAreStable(code); }
    }
    if CodeNamed(text).Some? { NamedIsName(text); }
  }

  lemma NamedIsName(text: string)
    requires CodeNamed(text).Some?
    ensures Name(CodeNamed(text).value) == text
  {
    if EarlyCode(CodeNamed(text).value) { EarlyNamedIsName(text); } else { LateNamedIsName(text); }
  }

  lemma EarlyNamedIsName(text: string)
    requires CodeNamed(text).Some? && EarlyCode(CodeNamed(text).value)
    ensures Name(CodeNamed(text).value) == text
  {}

  lemma LateNamedIsName(text: string)
    requires CodeNamed(text).Some? && !EarlyCode(CodeNamed(text).value)
    ensures Name(CodeNamed(text).value) == text
  {}

  // "unknown" is answered exactly for an OperationWorkerError raised with a text that is no code of the table.
  lemma OnlyForeignCodesAreUnknown(exc: Failure)
    ensures Safe(exc) == Unknown <==>
      exists text :: exc == NewOperationFailure(text) && forall code :: Name(code) != text
  {
    if text :| exc == NewOperationFailure(text) && forall code :: Name(code) != text {
      if CodeNamed(text).Some? { NamedIsName(text); }
    }
    if Safe(exc) == Unknown {
      assert exc == NewOperationFailure("");
      forall code ensures Name(code) != "" {}
    }
  }

  // What run_once classifies and fail classifies again reaches the server as classified once, except that "unknown"
  // becomes "worker_failed".
  lemma ClassifyingTwice(exc: Failure)
    ensures Sent(Safe(exc).Text()) == if Safe(exc) == Unknown then "worker_failed" else Safe(exc).Text()
  {
    match Safe(exc)
    case Reported(code) => CodesClassifyAsThemselves(code);
    case _ => LeftoversAreNotRecognised(Safe(exc));
  }

  lemma ReportedIsSent(exc: Failure, code: Code)
    requires Safe(exc) == Reported(code)
    ensures Sent(Safe(exc).Text()) == Name(code)
  {
    ClassifyingTwice(exc);
  }

  // Whatever text fail is given, it sends a code of the table or "worker_failed".
  lemma OnlyCodesAreSent(reason: string)
    ensures Sent(reason) == "worker_failed" || exists code :: Sent(reason) == Name(code)
  {
    assert Safe(Other(reason)) != Unknown;
  }

  // The text of a run that took too long is read back as a timeout.
  lemma TimeoutIsRecognised()
    ensures Safe(Other("password/TOTP protocol timed out")).Text() == "timeout"
  {
    TimeoutIsReported(Other(PROTOCOL_TIMED_OUT));
  }

  lemma TimeoutIsReported(exc: Failure)
    requires exc == Other(PROTOCOL_TIMED_OUT)
    ensures Safe(exc) == Reported(Timeout)
  {
    StripTrimmed(PROTOCOL_TIMED_OUT);
    TextsAreSentences(PROTOCOL_TIMED_OUT);
    forall s, r, e ensures !Matches(PROTOCOL_TIMED_OUT, s, r, e) {
      ComposedIsTrimmed(s, r, e);
    }
    NothingReadsEmpty();
    if OperationCode(PROTOCOL_TIMED_OUT).Some? {
      KeysAreShaped(PROTOCOL_TIMED_OUT);
    }
  }
}
