/**
 One round of a worker, run_once of tools/openai_oauth_reauth_worker.py (lines 422-439), with process_password_claim
 (lines 183-294): which calls the server sees, for every claim and every mix of outcomes.

 Everything outside the two functions is an outcome given beforehand: what the server answers, whether the runner and
 its files are there, what the runner does. The server's side is a log of the calls attempted.
 */
module TaskProtocol {
  import opened Wrappers
  import opened Text
  import opened FailureText
  import opened FailureReport

  // A field of a decoded JSON object. A float, list or object is only known by its truth value, its text and, for a
  // float, its integer part.
  datatype Value =
    | Missing
    | Null
    | Flag(flag: bool)
    | Whole(whole: int)
    | Str(str: string)
    | Compound(truthy: bool, text: string, rounded: Option<int>)
  {
    predicate Truthy() {
      match this
      case Missing => false
      case Null => false
      case Flag(b) => b
      case Whole(n) => n != 0
      case Str(s) => s != ""
      case Compound(b, _, _) => b
    }

    // str(value or default).
    function TextOr(default: string): string {
      if !Truthy() then default
      else
        match this
        case Flag(_) => "True"
        case Whole(n) => DecimalInt(n)
        case Str(s) => s
        case Compound(_, s, _) => s
        case _ => default
    }

    // int(value or 0); None is an exception. Which texts are numbers is up to parse.
    function WholeOrZero(parse: string -> Option<int>): Option<int> {
      if !Truthy() then Some(0)
      else
        match this
        case Flag(_) => Some(1)
        case Whole(n) => Some(n)
        case Str(s) => parse(s)
        case Compound(_, _, n) => n
        case _ => Some(0)
    }
  }

  // An exception, and whether it is a WorkerError.
  datatype Raised = Raised(worker: bool, exc: Failure)

  function Error(text: string): Raised { Raised(true, Other(text)) }

  // A non-empty claim.
  datatype Claim = Claim(profile: Value, mode: Value, engine: Value, taskId: Value, accountId: Value, email: Value,
                         password: Value)

  datatype ClaimReply = ClaimRaised(raised: Raised) | NoTask | Task(claim: Claim)

  // A step that succeeds, raises the kind of exception its caller converts, or raises another one.
  datatype Step<T> = Done(value: T) | Converted(text: string) | Foreign(exc: Failure)

  datatype RunnerEnd = TimesOut | CannotStart | Exits(code: int, stdout: string, stderr: string) | Breaks(exc: Failure)

  // The single account of the runner's output, if there is exactly one, and its three tokens.
  datatype Tokens = Tokens(access: Value, refresh: Value, id: Value)

  // The fields of the answer to the credentials call; an answer that is no object has neither.
  datatype Reply = Reply(status: Value, error: Value)

  datatype Outcomes = Outcomes(
    claim: ClaimReply,
    parse: string -> Option<int>,
    rootConfigured: bool,
    nodeFound: bool,
    scriptFound: bool,
    starting: Option<Raised>,
    connecting: Option<Raised>,
    prepared: Step<()>,
    runner: RunnerEnd,
    output: Step<Option<Tokens>>,
    validated: Step<()>,
    applying: Option<Raised>,
    sent: Option<Raised>,
    reply: Reply,
    failed: Option<Raised>)

  // The calls that reach for the server.
  datatype Call =
    | ClaimTask | Progress(task: int, stage: string) | Credentials(task: int, tokens: Tokens)
    | Fail(task: int, reason: string)

  predicate Present(token: Value) { token.Str? && Strip(token.str) != "" }

  predicate Complete(tokens: Option<Tokens>) {
    tokens.Some? && Present(tokens.value.access) && Present(tokens.value.refresh) && Present(tokens.value.id)
  }

  // ---- Specification: what each stage raises if it is reached ----

  const STAGES: nat := 18

  const UNSUPPORTED_PROFILE := "unsupported Excel authorization profile"
  const UNSUPPORTED_ENGINE := "unsupported Excel authorization engine"
  const MISSING_FIELDS := "claimed password task is missing required fields"
  const NO_ROOT := "TOSUB2_ROOT is required for password/TOTP re-login"
  const NO_NODE := "Node.js is required for password/TOTP re-login"
  const NO_SCRIPT := "toSub2 protocol-login.mjs is unavailable"
  const CANNOT_START := "password/TOTP protocol could not start"
  const INCOMPLETE := "password/TOTP protocol returned incomplete OAuth credentials"
  const NOT_ACCEPTED := "credentials were not accepted"
  const NO_OUTPUT := "password/TOTP protocol did not produce valid OAuth credentials"

  function Unless(holds: bool, text: string): Option<Raised> { if holds then None else Some(Error(text)) }

  // A progress report is best effort: only an exception other than a WorkerError gets through.
  function BestEffort(reported: Option<Raised>): Option<Raised> {
    if reported.Some? && !reported.value.worker then reported else None
  }

  function Stepped<T>(step: Step<T>): Option<Raised> {
    match step
    case Done(_) => None
    case Converted(text) => Some(Error(text))
    case Foreign(exc) => Some(Raised(false, exc))
  }

  function RunnerTrouble(end: RunnerEnd): Option<Raised> {
    match end
    case TimesOut => Some(Error(PROTOCOL_TIMED_OUT))
    case CannotStart => Some(Error(CANNOT_START))
    case Exits(code, stdout, stderr) => if code == 0 then None else Some(Error(RunFailure(stdout, stderr, code)))
    case Breaks(exc) => Some(Raised(false, exc))
  }

  // What int() raises for a value that is no number; no text it can have is a key of a table.
  const UNPARSED := Raised(false, Other("invalid literal for int()"))

  function Trouble(n: nat, c: Claim, o: Outcomes): Option<Raised>
    requires n < STAGES
  {
    match n
    case 0 => Unless(c.profile.TextOr("") == "excel" && c.mode == Str("password_totp"), UNSUPPORTED_PROFILE)
    case 1 => Unless(c.engine.TextOr("local_worker") == "local_worker", UNSUPPORTED_ENGINE)
    case 2 => if c.taskId.WholeOrZero(o.parse).None? then Some(UNPARSED) else None
    case 3 => if c.accountId.WholeOrZero(o.parse).None? then Some(UNPARSED) else None
    case 4 => Unless(FieldsPresent(c, o.parse), MISSING_FIELDS)
    case 5 => Unless(o.rootConfigured, NO_ROOT)
    case 6 => Unless(o.nodeFound, NO_NODE)
    case 7 => Unless(o.scriptFound, NO_SCRIPT)
    case 8 => BestEffort(o.starting)
    case 9 => BestEffort(o.connecting)
    case 10 => Stepped(o.prepared)
    case 11 => RunnerTrouble(o.runner)
    case 12 => if o.output.Converted? then Some(Error(NO_OUTPUT)) else Stepped(o.output)
    case 13 => Unless(o.output.Done? && Complete(o.output.value), INCOMPLETE)
    case 14 => Stepped(o.validated)
    case 15 => BestEffort(o.applying)
    case 16 => o.sent
    case _ => Unless(o.reply.status == Str("succeeded"), o.reply.error.TextOr(NOT_ACCEPTED))
  }

  predicate FieldsPresent(c: Claim, parse: string -> Option<int>) {
    var task, account := c.taskId.WholeOrZero(parse), c.accountId.WholeOrZero(parse);
    && task.Some? && task.value > 0 && account.Some? && account.value > 0
    && Strip(c.email.TextOr("")) != "" && c.password.TextOr("") != ""
  }

  // The first stage at or after n that raises, or STAGES.
  function FirstTrouble(c: Claim, o: Outcomes, n: nat := 0): (r: nat)
    requires n <= STAGES
    ensures n <= r <= STAGES && (r < STAGES ==> Trouble(r, c, o).Some?)
    ensures forall k: nat :: n <= k < r ==> Trouble(k, c, o).None?
    decreases STAGES - n
  {
    if n == STAGES || Trouble(n, c, o).Some? then n else FirstTrouble(c, o, n + 1)
  }

  // What processing the claim raises.
  function Processed(c: Claim, o: Outcomes): Option<Raised> {
    var n := FirstTrouble(c, o);
    if n < STAGES then Trouble(n, c, o) else None
  }

  // The calls made by the first n stages.
  function Calls(n: nat, task: int, tokens: Tokens): seq<Call> {
    if n == 0 then []
    else
      match n
      case 9 => Calls(8, task, tokens) + [Progress(task, "starting")]
      case 10 => Calls(9, task, tokens) + [Progress(task, "protocol_connecting")]
      case 16 => Calls(15, task, tokens) + [Progress(task, "applying_credentials")]
      case 17 => Calls(16, task, tokens) + [Credentials(task, tokens)]
      case _ => Calls(n - 1, task, tokens)
  }

  const NO_TOKENS := Tokens(Missing, Missing, Missing)

  function SentTokens(o: Outcomes): Tokens {
    if o.output.Done? && o.output.value.Some? then o.output.value.value else NO_TOKENS
  }

  function TaskId(c: Claim, o: Outcomes): int {
    var id := c.taskId.WholeOrZero(o.parse);
    if id.Some? then id.value else 0
  }

  // The calls made while processing the claim: those of every stage reached.
  function ProcessCalls(c: Claim, o: Outcomes): seq<Call> {
    var n := FirstTrouble(c, o);
    Calls(if n < STAGES then n + 1 else n, TaskId(c, o), SentTokens(o))
  }

  // ---- The same, written out ----

  // str(value or default), by kind of value.
  lemma TextMeans(v: Value, default: string)
    ensures forall s :: v == Str(s) ==> v.TextOr(default) == if s == "" then default else s
    ensures v.Missing? || v.Null? || v == Flag(false) || v == Whole(0) ==> v.TextOr(default) == default
    ensures v == Flag(true) ==> v.TextOr(default) == "True"
    ensures forall n :: v == Whole(n) && n != 0 ==> v.TextOr(default) == DecimalInt(n)
    ensures v.Compound? ==> v.TextOr(default) == if v.truthy then v.text else default
  {}

  // int(value or 0), by kind of value.
  lemma WholeMeans(v: Value, parse: string -> Option<int>)
    ensures forall n :: v == Whole(n) ==> v.WholeOrZero(parse) == Some(n)
    ensures v.Missing? || v.Null? || v == Flag(false) || v == Str("") ==> v.WholeOrZero(parse) == Some(0)
    ensures v == Flag(true) ==> v.WholeOrZero(parse) == Some(1)
    ensures forall s :: v == Str(s) && s != "" ==> v.WholeOrZero(parse) == parse(s)
    ensures v.Compound? ==> v.WholeOrZero(parse) == if v.truthy then v.rounded else Some(0)
  {}

  // What the checks on the claim raise.
  function ClaimFailure(c: Claim, o: Outcomes): Option<Raised> {
    var task, account := c.taskId.WholeOrZero(o.parse), c.accountId.WholeOrZero(o.parse);
    if c.profile.TextOr("") != "excel" || c.mode != Str("password_totp")
    then Some(Raised(true, Other("unsupported Excel authorization profile")))
    else if c.engine.TextOr("local_worker") != "local_worker"
    then Some(Raised(true, Other("unsupported Excel authorization engine")))
    else if task.None? || account.None? then Some(Raised(false, Other("invalid literal for int()")))
    else if task.value <= 0 || account.value <= 0 || Strip(c.email.TextOr("")) == "" || c.password.TextOr("") == ""
    then Some(Raised(true, Other("claimed password task is missing required fields")))
    else None
  }

  // What the checks on the machine raise.
  function MachineFailure(o: Outcomes): Option<Raised> {
    if !o.rootConfigured then Some(Raised(true, Other("TOSUB2_ROOT is required for password/TOTP re-login")))
    else if !o.nodeFound then Some(Raised(true, Other("Node.js is required for password/TOTP re-login")))
    else if !o.scriptFound then Some(Raised(true, Other("toSub2 protocol-login.mjs is unavailable")))
    else None
  }

  // What preparing and running the runner and reading its output raise.
  function RunnerFailure(o: Outcomes): Option<Raised> {
    match o.prepared
    case Converted(text) => Some(Raised(true, Other(text)))
    case Foreign(exc) => Some(Raised(false, exc))
    case Done(_) =>
      match o.runner
      case TimesOut => Some(Raised(true, Other(PROTOCOL_TIMED_OUT)))
      case CannotStart => Some(Raised(true, Other("password/TOTP protocol could not start")))
      case Breaks(exc) => Some(Raised(false, exc))
      case Exits(code, stdout, stderr) =>
        if code != 0 then Some(Raised(true, Other(RunFailure(stdout, stderr, code))))
        else
          match o.output
          case Converted(_) =>
            Some(Raised(true, Other("password/TOTP protocol did not produce valid OAuth credentials")))
          case Foreign(exc) => Some(Raised(false, exc))
          case Done(_) => None
  }

  predicate NotBlank(token: Value) {
    match token
    case Str(s) => Strip(s) != ""
    case _ => false
  }

  // What the checks on the credentials raise, once the output has been read.
  function CredentialsFailure(o: Outcomes): Option<Raised>
    requires o.output.Done?
  {
    var tokens := o.output.value;
    if tokens.None? || !NotBlank(tokens.value.access) || !NotBlank(tokens.value.refresh) || !NotBlank(tokens.value.id)
    then Some(Raised(true, Other("password/TOTP protocol returned incomplete OAuth credentials")))
    else
      match o.validated
      case Converted(text) => Some(Raised(true, Other(text)))
      case Foreign(exc) => Some(Raised(false, exc))
      case Done(_) => None
  }

  // What the credentials call raises, or its answer makes process_password_claim raise.
  function AnswerFailure(o: Outcomes): Option<Raised> {
    if o.sent.Some? then o.sent
    else if o.reply.status != Str("succeeded")
    then Some(Raised(true, Other(o.reply.error.TextOr("credentials were not accepted"))))
    else None
  }

  // A progress report that raised something other than a WorkerError.
  predicate Breaking(reported: Option<Raised>) { reported.Some? && !reported.value.worker }

  // What processing a claim raises: the first failure in the order of the code.
  function FirstFailure(c: Claim, o: Outcomes): Option<Raised> {
    if ClaimFailure(c, o).Some? then ClaimFailure(c, o)
    else if MachineFailure(o).Some? then MachineFailure(o)
    else if Breaking(o.starting) then o.starting
    else if Breaking(o.connecting) then o.connecting
    else if RunnerFailure(o).Some? then RunnerFailure(o)
    else if CredentialsFailure(o).Some? then CredentialsFailure(o)
    else if Breaking(o.applying) then o.applying
    else AnswerFailure(o)
  }

  // ---- The code ----

  // WorkerAPI: every method attempts one call.
  class Api {
    ghost var log: seq<Call>

    constructor ()
      ensures log == []
    {
      log := [];
    }

    method Attempt(ghost call: Call, outcome: Option<Raised>) returns (raised: Option<Raised>)
      modifies this
      ensures log == old(log) + [call] && raised == outcome
    {
      log := log + [call];
      raised := outcome;
    }
  }

  // _best_effort_progress.
  method BestEffortProgress(api: Api, task: int, stage: string, outcome: Option<Raised>)
    returns (raised: Option<Raised>)
    modifies api
    ensures api.log == old(api.log) + [Progress(task, stage)] && raised == BestEffort(outcome)
  {
    raised := api.Attempt(Progress(task, stage), outcome);
    if raised.Some? && raised.value.worker {
      raised := None;
    }
  }

  // process_password_claim: the checks on the claim itself.
  method CheckClaim(c: Claim, o: Outcomes) returns (raised: Option<Raised>)
    ensures Checked(c, o, raised, 0, 5)
  {
    if c.profile.TextOr("") != "excel" || c.mode != Str("password_totp") { return Some(Error(UNSUPPORTED_PROFILE)); }
    if c.engine.TextOr("local_worker") != "local_worker" { return Some(Error(UNSUPPORTED_ENGINE)); }
    var task := c.taskId.WholeOrZero(o.parse);
    if task.None? { return Some(UNPARSED); }
    var account := c.accountId.WholeOrZero(o.parse);
    if account.None? { return Some(UNPARSED); }
    if task.value <= 0 || account.value <= 0 || Strip(c.email.TextOr("")) == "" || c.password.TextOr("") == "" {
      return Some(Error(MISSING_FIELDS));
    }
    return None;
  }

  // Stages lo..hi-1 went as specified: they raised nothing, or what the first of them to raise does.
  ghost predicate Checked(c: Claim, o: Outcomes, raised: Option<Raised>, lo: nat, hi: nat)
    requires lo <= hi <= STAGES
  {
    var n := FirstTrouble(c, o, lo);
    if n < hi then raised == Trouble(n, c, o) else raised == None
  }

  // The checks on the machine.
  method CheckRuntime(c: Claim, o: Outcomes) returns (raised: Option<Raised>)
    ensures Checked(c, o, raised, 5, 8)
  {
    if !o.rootConfigured { return Some(Error(NO_ROOT)); }
    if !o.nodeFound { return Some(Error(NO_NODE)); }
    if !o.scriptFound { return Some(Error(NO_SCRIPT)); }
    return None;
  }

  // The run.
  method RunProtocol(c: Claim, o: Outcomes) returns (raised: Option<Raised>)
    ensures Checked(c, o, raised, 10, 13)
  {
    match o.prepared {
      case Done(_) =>
      case Converted(text) => return Some(Error(text));
      case Foreign(exc) => return Some(Raised(false, exc));
    }
    match o.runner {
      case TimesOut => return Some(Error(PROTOCOL_TIMED_OUT));
      case CannotStart => return Some(Error(CANNOT_START));
      case Breaks(exc) => return Some(Raised(false, exc));
      case Exits(code, stdout, stderr) =>
        if code != 0 { return Some(Error(RunFailure(stdout, stderr, code))); }
    }
    match o.output {
      case Done(_) =>
      case Converted(_) => return Some(Error(NO_OUTPUT));
      case Foreign(exc) => return Some(Raised(false, exc));
    }
    return None;
  }

  // The checks on the credentials the run produced.
  method CheckCredentials(c: Claim, o: Outcomes) returns (raised: Option<Raised>)
    requires o.output.Done?
    ensures Checked(c, o, raised, 13, 15)
  {
    if !Complete(o.output.value) { return Some(Error(INCOMPLETE)); }
    match o.validated {
      case Done(_) => return None;
      case Converted(text) => return Some(Error(text));
      case Foreign(exc) => return Some(Raised(false, exc));
    }
  }

  // The credentials call and its answer.
  method ApplyCredentials(api: Api, task: int, c: Claim, o: Outcomes) returns (raised: Option<Raised>)
    modifies api
    ensures Checked(c, o, raised, 16, 18)
    ensures api.log == old(api.log) + [Credentials(task, SentTokens(o))]
  {
    raised := api.Attempt(Credentials(task, SentTokens(o)), o.sent);
    if raised.Some? { return; }
    if o.reply.status != Str("succeeded") {
      raised := Some(Error(o.reply.error.TextOr(NOT_ACCEPTED)));
    }
  }

  // The calls after each stage.
  lemma CallsSoFar(n: nat, task: int, tokens: Tokens)
    requires n <= STAGES
    ensures n <= 8 ==> Calls(n, task, tokens) == []
    ensures n == 9 ==> Calls(n, task, tokens) == [Progress(task, "starting")]
    ensures 10 <= n <= 15 ==> Calls(n, task, tokens) == Calls(10, task, tokens)
    ensures Calls(10, task, tokens) == Calls(9, task, tokens) + [Progress(task, "protocol_connecting")]
    ensures Calls(16, task, tokens) == Calls(10, task, tokens) + [Progress(task, "applying_credentials")]
    ensures n >= 17 ==> Calls(n, task, tokens) == Calls(16, task, tokens) + [Credentials(task, tokens)]
  {
    EarlyCalls(8, task, tokens);
    EarlyCalls(if n <= 8 then n else 8, task, tokens);
    MiddleCalls(15, task, tokens);
    MiddleCalls(if 10 <= n <= 15 then n else 15, task, tokens);
  }

  lemma {:induction false} EarlyCalls(n: nat, task: int, tokens: Tokens)
    requires n <= 8
    ensures Calls(n, task, tokens) == []
  {
    if n > 0 { EarlyCalls(n - 1, task, tokens); }
  }

  lemma {:induction false} MiddleCalls(n: nat, task: int, tokens: Tokens)
    requires 10 <= n <= 15
    ensures Calls(n, task, tokens) == Calls(10, task, tokens)
  {
    if n > 10 { MiddleCalls(n - 1, task, tokens); }
  }

  lemma Appended(a: seq<Call>, b: seq<Call>, c: seq<Call>)
    ensures a + b + c == a + (b + c)
  {}

  // Everything below stage n is behind us: nothing raised, and these calls were made.
  ghost predicate Reached(api: Api, before: seq<Call>, c: Claim, o: Outcomes, n: nat)
    requires n <= STAGES
    reads api
  {
    FirstTrouble(c, o) == FirstTrouble(c, o, n) && api.log == before + Calls(n, TaskId(c, o), SentTokens(o))
  }

  // The processing is over: it went as specified.
  ghost predicate Ended(api: Api, before: seq<Call>, c: Claim, o: Outcomes, raised: Option<Raised>)
    reads api
  {
    raised == Processed(c, o) && api.log == before + ProcessCalls(c, o)
  }

  // A group of stages that makes no call moves on, or ends the processing.
  lemma Advance(api: Api, before: seq<Call>, c: Claim, o: Outcomes, raised: Option<Raised>, lo: nat, hi: nat)
    requires hi <= 8 || (10 <= lo && hi <= 15)
    requires lo <= hi && Reached(api, before, c, o, lo) && Checked(c, o, raised, lo, hi)
    ensures raised.None? ==> Reached(api, before, c, o, hi)
    ensures raised.Some? ==> Ended(api, before, c, o, raised)
  {
    CallsSoFar(lo, TaskId(c, o), SentTokens(o));
    CallsSoFar(hi, TaskId(c, o), SentTokens(o));
    var n := FirstTrouble(c, o, lo);
    if n < hi { CallsSoFar(n + 1, TaskId(c, o), SentTokens(o)); }
  }

  // The credentials of a claim get to the server exactly if the claim asks for what is supported and has what is
  // needed, the machine is set up, the runner exited with 0 and left complete tokens that validate, and no progress
  // report raised something other than a WorkerError.
  ghost predicate Deliverable(c: Claim, o: Outcomes) {
    var task, account := c.taskId.WholeOrZero(o.parse), c.accountId.WholeOrZero(o.parse);
    && c.profile.TextOr("") == "excel" && c.mode == Str("password_totp")
    && c.engine.TextOr("local_worker") == "local_worker"
    && task.Some? && 0 < task.value && account.Some? && 0 < account.value
    && Strip(c.email.TextOr("")) != "" && c.password.TextOr("") != ""
    && o.rootConfigured && o.nodeFound && o.scriptFound
    && o.prepared.Done? && o.runner.Exits? && o.runner.code == 0 && o.output.Done? && o.output.value.Some?
    && NotBlank(o.output.value.value.access) && NotBlank(o.output.value.value.refresh)
    && NotBlank(o.output.value.value.id)
    && o.validated.Done?
    && !Breaking(o.starting) && !Breaking(o.connecting) && !Breaking(o.applying)
  }

  // Two groups of stages are one.
  lemma CheckedJoins(c: Claim, o: Outcomes, a: Option<Raised>, b: Option<Raised>, lo: nat, mid: nat, hi: nat)
    requires lo <= mid <= hi <= STAGES && Checked(c, o, a, lo, mid) && (a.None? ==> Checked(c, o, b, mid, hi))
    ensures Checked(c, o, if a.Some? then a else b, lo, hi)
  {
    var n := FirstTrouble(c, o, lo);
    if n >= mid {
      var m := FirstTrouble(c, o, mid);
      assert n == m;
    }
  }

  lemma ClaimGroup(c: Claim, o: Outcomes)
    ensures Checked(c, o, ClaimFailure(c, o), 0, 5)
  {}

  lemma MachineGroup(c: Claim, o: Outcomes)
    ensures Checked(c, o, MachineFailure(o), 5, 8)
  {}

  lemma ReportGroup(c: Claim, o: Outcomes)
    ensures Checked(c, o, if Breaking(o.starting) then o.starting else None, 8, 9)
    ensures Checked(c, o, if Breaking(o.connecting) then o.connecting else None, 9, 10)
    ensures Checked(c, o, if Breaking(o.applying) then o.applying else None, 15, 16)
  {}

  lemma RunnerGroup(c: Claim, o: Outcomes)
    ensures Checked(c, o, RunnerFailure(o), 10, 13)
  {}

  lemma CredentialsGroup(c: Claim, o: Outcomes)
    requires o.output.Done?
    ensures Checked(c, o, CredentialsFailure(o), 13, 15)
  {}

  lemma AnswerGroup(c: Claim, o: Outcomes)
    ensures Checked(c, o, AnswerFailure(o), 16, 18)
  {}

  lemma StartGroup(c: Claim, o: Outcomes)
    ensures Checked(c, o, if ClaimFailure(c, o).Some? then ClaimFailure(c, o) else MachineFailure(o), 0, 8)
  {
    ClaimGroup(c, o);
    MachineGroup(c, o);
    CheckedJoins(c, o, ClaimFailure(c, o), MachineFailure(o), 0, 5, 8);
  }

  lemma ConnectGroup(c: Claim, o: Outcomes)
    ensures Checked(c, o, if Breaking(o.starting) then o.starting
                          else if Breaking(o.connecting) then o.connecting else None, 8, 10)
  {
    ReportGroup(c, o);
    CheckedJoins(c, o, if Breaking(o.starting) then o.starting else None,
                 if Breaking(o.connecting) then o.connecting else None, 8, 9, 10);
  }

  lemma RunGroup(c: Claim, o: Outcomes)
    ensures Checked(c, o, if RunnerFailure(o).Some? then RunnerFailure(o) else CredentialsFailure(o), 10, 15)
  {
    RunnerGroup(c, o);
    if RunnerFailure(o).None? {
      CredentialsGroup(c, o);
      CheckedJoins(c, o, None, CredentialsFailure(o), 10, 13, 15);
    } else {
      CheckedJoins(c, o, RunnerFailure(o), None, 10, 13, 15);
    }
  }

  lemma DeliveryGroup(c: Claim, o: Outcomes)
    ensures Checked(c, o, if Breaking(o.applying) then o.applying else AnswerFailure(o), 15, 18)
  {
    ReportGroup(c, o);
    AnswerGroup(c, o);
    CheckedJoins(c, o, if Breaking(o.applying) then o.applying else None, AnswerFailure(o), 15, 16, 18);
  }

  // What the stages from n on raise, and where the first trouble lies.
  lemma FailsFrom(c: Claim, o: Outcomes)
    ensures var n, start, connect, run := FirstTrouble(c, o),
        if ClaimFailure(c, o).Some? then ClaimFailure(c, o) else MachineFailure(o),
        if Breaking(o.starting) then o.starting else if Breaking(o.connecting) then o.connecting else None,
        if RunnerFailure(o).Some? then RunnerFailure(o) else CredentialsFailure(o);
      && (n < 8 <==> start.Some?)
      && (n < 10 <==> start.Some? || connect.Some?)
      && (n < 15 <==> start.Some? || connect.Some? || run.Some?)
      && (start.None? && connect.Some? ==> (n == 8 <==> Breaking(o.starting)))
      && (start.None? && connect.None? && run.None? ==> (n == 15 <==> Breaking(o.applying)))
    ensures Processed(c, o) == FirstFailure(c, o)
  {
    StartGroup(c, o);
    ConnectGroup(c, o);
    RunGroup(c, o);
    DeliveryGroup(c, o);
    ReportGroup(c, o);
  }

  // The calls of a claim whose credentials are sent.
  function Delivered(task: int, tokens: Tokens): seq<Call> {
    [Progress(task, "starting"), Progress(task, "protocol_connecting"), Progress(task, "applying_credentials"),
     Credentials(task, tokens)]
  }

  // The calls made while processing a claim.
  function ClaimLog(c: Claim, o: Outcomes): seq<Call> {
    var id := c.taskId.WholeOrZero(o.parse);
    var task := if id.Some? then id.value else 0;
    if ClaimFailure(c, o).Some? || MachineFailure(o).Some? then []
    else if Breaking(o.starting) then Delivered(task, NO_TOKENS)[..1]
    else if Breaking(o.connecting) || RunnerFailure(o).Some? || CredentialsFailure(o).Some?
    then Delivered(task, NO_TOKENS)[..2]
    else if Breaking(o.applying) then Delivered(task, NO_TOKENS)[..3]
    else Delivered(task, o.output.value.value)
  }

  lemma CallsWritten(n: nat, task: int, tokens: Tokens)
    requires n <= STAGES
    ensures n <= 8 ==> Calls(n, task, tokens) == []
    ensures n == 9 ==> Calls(n, task, tokens) == Delivered(task, NO_TOKENS)[..1]
    ensures 10 <= n <= 15 ==> Calls(n, task, tokens) == Delivered(task, NO_TOKENS)[..2]
    ensures n == 16 ==> Calls(n, task, tokens) == Delivered(task, NO_TOKENS)[..3]
    ensures n >= 17 ==> Calls(n, task, tokens) == Delivered(task, tokens)
  {
    CallsSoFar(n, task, tokens);
    CallsSoFar(9, task, tokens);
  }

  lemma CallsAre(c: Claim, o: Outcomes)
    ensures ProcessCalls(c, o) == ClaimLog(c, o)
  {
    FailsFrom(c, o);
    var n := FirstTrouble(c, o);
    CallsWritten(if n < STAGES then n + 1 else n, TaskId(c, o), SentTokens(o));
  }

  // process_password_claim up to the run.
  method StartClaim(api: Api, c: Claim, o: Outcomes) returns (raised: Option<Raised>)
    modifies api
    ensures raised.None? ==> Reached(api, old(api.log), c, o, 10) && c.taskId.WholeOrZero(o.parse).Some?
    ensures raised.Some? ==> Ended(api, old(api.log), c, o, raised)
  {
    ghost var before, task, tokens := api.log, TaskId(c, o), SentTokens(o);
    CallsSoFar(0, task, tokens);
    CallsSoFar(9, task, tokens);
    CallsSoFar(8, task, tokens);
    assert Reached(api, before, c, o, 0);
    raised := CheckClaim(c, o);
    Advance(api, before, c, o, raised, 0, 5);
    if raised.Some? { return; }
    raised := CheckRuntime(c, o);
    Advance(api, before, c, o, raised, 5, 8);
    if raised.Some? { return; }
    assert Trouble(2, c, o).None?;
    var taskId := c.taskId.WholeOrZero(o.parse).value;
    raised := BestEffortProgress(api, taskId, "starting", o.starting);
    assert api.log == before + Calls(9, task, tokens);
    if raised.Some? { return; }
    raised := BestEffortProgress(api, taskId, "protocol_connecting", o.connecting);
    assert api.log == before + Calls(10, task, tokens);
  }

  // The last progress report and the credentials call.
  method DeliverCredentials(api: Api, ghost before: seq<Call>, taskId: int, c: Claim, o: Outcomes)
    returns (raised: Option<Raised>)
    requires Reached(api, before, c, o, 15) && taskId == TaskId(c, o)
    modifies api
    ensures Ended(api, before, c, o, raised)
  {
    ghost var tokens := SentTokens(o);
    CallsSoFar(15, taskId, tokens);
    CallsSoFar(17, taskId, tokens);
    CallsSoFar(18, taskId, tokens);
    raised := BestEffortProgress(api, taskId, "applying_credentials", o.applying);
    assert api.log == before + Calls(16, taskId, tokens);
    if raised.Some? { return; }
    raised := ApplyCredentials(api, taskId, c, o);
    Appended(before, Calls(16, taskId, tokens), [Credentials(taskId, tokens)]);
  }

  // process_password_claim from the run on.
  method FinishClaim(api: Api, ghost before: seq<Call>, taskId: int, c: Claim, o: Outcomes)
    returns (raised: Option<Raised>)
    requires Reached(api, before, c, o, 10) && taskId == TaskId(c, o)
    modifies api
    ensures Ended(api, before, c, o, raised)
  {
    raised := RunProtocol(c, o);
    Advance(api, before, c, o, raised, 10, 13);
    if raised.Some? { return; }
    assert Trouble(12, c, o).None?;
    raised := CheckCredentials(c, o);
    Advance(api, before, c, o, raised, 13, 15);
    if raised.Some? { return; }
    raised := DeliverCredentials(api, before, taskId, c, o);
  }

  // process_password_claim: raises the first failure in the order of the code, after exactly the calls before it.
  method ProcessPasswordClaim(api: Api, c: Claim, o: Outcomes) returns (raised: Option<Raised>)
    modifies api
    ensures raised == Processed(c, o) == FirstFailure(c, o)
    ensures api.log == old(api.log) + ProcessCalls(c, o) && ProcessCalls(c, o) == ClaimLog(c, o)
  {
    FailsFrom(c, o);
    CallsAre(c, o);
    raised := Process(api, c, o);
  }

  // Its stages, one by one.
  method Process(api: Api, c: Claim, o: Outcomes) returns (raised: Option<Raised>)
    modifies api
    ensures raised == Processed(c, o)
    ensures api.log == old(api.log) + ProcessCalls(c, o)
  {
    ghost var before := api.log;
    raised := StartClaim(api, c, o);
    if raised.Some? { return; }
    raised := FinishClaim(api, before, c.taskId.WholeOrZero(o.parse).value, c, o);
  }

  // ---- run_once ----

  datatype RoundEnd = Worked(worked: bool) | Crashed(raised: Raised)

  // The reason the server receives for an exception: classified by run_once, and once more by fail.
  ghost function Reason(raised: Raised): string { Sent(Safe(raised.exc).Text()) }

  ghost function FailCalls(c: Claim, o: Outcomes): seq<Call> {
    if Processed(c, o).Some? && TaskId(c, o) > 0 then [Fail(TaskId(c, o), Reason(Processed(c, o).value))] else []
  }

  ghost function TaskCalls(c: Claim, o: Outcomes): seq<Call> {
    if c.taskId.WholeOrZero(o.parse).Some? then ProcessCalls(c, o) + FailCalls(c, o) else []
  }

  // The calls of one round.
  ghost function RoundCalls(o: Outcomes): seq<Call> {
    if o.claim.Task? then [ClaimTask] + TaskCalls(o.claim.claim, o) else [ClaimTask]
  }

  // How the handler ends: a rejected report is only logged.
  function Handled(raised: Option<Raised>, task: int, o: Outcomes): RoundEnd {
    if raised.Some? && task > 0 && BestEffort(o.failed).Some? then Crashed(o.failed.value) else Worked(true)
  }

  // A task id that is no number is an exception outside the try block.
  function TaskEnd(c: Claim, o: Outcomes): RoundEnd {
    if c.taskId.WholeOrZero(o.parse).None? then Crashed(UNPARSED) else Handled(Processed(c, o), TaskId(c, o), o)
  }

  // How a round ends.
  function EndOf(o: Outcomes): RoundEnd {
    match o.claim
    case ClaimRaised(raised) => if raised.worker then Worked(false) else Crashed(raised)
    case NoTask => Worked(false)
    case Task(c) => TaskEnd(c, o)
  }

  // The try block and its handler.
  method WorkOn(api: Api, c: Claim, o: Outcomes) returns (end: RoundEnd)
    modifies api
    ensures end == TaskEnd(c, o)
    ensures api.log == old(api.log) + TaskCalls(c, o)
  {
    ghost var before, calls := api.log, ProcessCalls(c, o);
    var task := c.taskId.WholeOrZero(o.parse);
    if task.None? { return Crashed(UNPARSED); }
    var raised := ProcessPasswordClaim(api, c, o);
    end := ReportFailure(api, raised, task.value, o);
    Appended(before, calls, FailCalls(c, o));
  }

  method ReportFailure(api: Api, raised: Option<Raised>, task: int, o: Outcomes) returns (end: RoundEnd)
    modifies api
    ensures end == Handled(raised, task, o)
    ensures api.log == old(api.log) + if raised.Some? && task > 0 then [Fail(task, Reason(raised.value))] else []
  {
    end := Worked(true);
    if raised.Some? && task > 0 {
      var rejected := api.Attempt(Fail(task, Reason(raised.value)), o.failed);
      if rejected.Some? && !rejected.value.worker { end := Crashed(rejected.value); }
    }
  }

  // The claim, which may end the round.
  method TakeTask(api: Api, o: Outcomes) returns (task: Option<Claim>, end: RoundEnd)
    modifies api
    ensures api.log == old(api.log) + [ClaimTask]
    ensures task == (if o.claim.Task? then Some(o.claim.claim) else None)
    ensures !o.claim.Task? ==> end == EndOf(o)
  {
    var claimed := api.Attempt(ClaimTask, if o.claim.ClaimRaised? then Some(o.claim.raised) else None);
    if claimed.Some? {
      return None, if claimed.value.worker then Worked(false) else Crashed(claimed.value);
    }
    if o.claim.NoTask? { return None, Worked(false); }
    return Some(o.claim.claim), Worked(true);
  }

  // The calls of a round, written out: the claim, those of processing it, and a report if that failed.
  ghost function RoundLog(o: Outcomes): seq<Call> {
    match o.claim
    case ClaimRaised(_) => [ClaimTask]
    case NoTask => [ClaimTask]
    case Task(c) =>
      match c.taskId.WholeOrZero(o.parse)
      case None => [ClaimTask]
      case Some(task) =>
        [ClaimTask] + (ClaimLog(c, o) +
        if FirstFailure(c, o).Some? && 0 < task then [Fail(task, Reason(FirstFailure(c, o).value))] else [])
  }

  // How it ends: only what is no WorkerError gets out of it.
  function RoundResult(o: Outcomes): RoundEnd {
    match o.claim
    case ClaimRaised(raised) => if raised.worker then Worked(false) else Crashed(raised)
    case NoTask => Worked(false)
    case Task(c) =>
      match c.taskId.WholeOrZero(o.parse)
      case None => Crashed(Raised(false, Other("invalid literal for int()")))
      case Some(task) =>
        if FirstFailure(c, o).Some? && 0 < task && Breaking(o.failed) then Crashed(o.failed.value) else Worked(true)
  }

  lemma RoundMeans(o: Outcomes)
    ensures RoundCalls(o) == RoundLog(o) && EndOf(o) == RoundResult(o)
  {
    if o.claim.Task? {
      FailsFrom(o.claim.claim, o);
      CallsAre(o.claim.claim, o);
    }
  }

  // run_once: the calls and the end of the round are those written out.
  method RunOnce(api: Api, o: Outcomes) returns (end: RoundEnd)
    modifies api
    ensures end == RoundResult(o)
    ensures api.log == old(api.log) + RoundLog(o)
  {
    RoundMeans(o);
    end := ClaimAndWork(api, o);
  }

  // Its two halves.
  method ClaimAndWork(api: Api, o: Outcomes) returns (end: RoundEnd)
    modifies api
    ensures end == EndOf(o)
    ensures api.log == old(api.log) + RoundCalls(o)
  {
    ghost var before := api.log;
    var task;
    task, end := TakeTask(api, o);
    if task.Some? {
      end := WorkOn(api, task.value, o);
      Appended(before, [ClaimTask], TaskCalls(task.value, o));
    }
  }

  // ---- What every round keeps ----

  // The processing of o's claim got to the credentials call: no stage before it raised.
  ghost predicate SendsCredentials(c: Claim, o: Outcomes) { forall k: nat :: k < 16 ==> Trouble(k, c, o).None? }

  ghost predicate Succeeds(c: Claim, o: Outcomes) {
    SendsCredentials(c, o) && o.sent.None? && o.reply.status == Str("succeeded")
  }

  function CredentialCalls(calls: seq<Call>): nat {
    if calls == [] then 0 else (if calls[0].Credentials? then 1 else 0) + CredentialCalls(calls[1..])
  }

  function FailReports(calls: seq<Call>): nat {
    if calls == [] then 0 else (if calls[0].Fail? then 1 else 0) + FailReports(calls[1..])
  }

  lemma {:induction false} CountsAdd(a: seq<Call>, b: seq<Call>)
    ensures CredentialCalls(a + b) == CredentialCalls(a) + CredentialCalls(b)
    ensures FailReports(a + b) == FailReports(a) + FailReports(b)
  {
    if a == [] {
      assert a + b == b;
    } else {
      assert (a + b)[1..] == a[1..] + b;
      CountsAdd(a[1..], b);
    }
  }

  lemma {:induction false} CallCounts(n: nat, task: int, tokens: Tokens)
    requires n <= STAGES
    ensures CredentialCalls(Calls(n, task, tokens)) == if n >= 17 then 1 else 0
    ensures FailReports(Calls(n, task, tokens)) == 0
    ensures forall call :: call in Calls(n, task, tokens) && call.Credentials? ==> call == Credentials(task, tokens)
  {
    if n > 0 {
      CallCounts(n - 1, task, tokens);
      if Calls(n, task, tokens) != Calls(n - 1, task, tokens) {
        var last := Calls(n, task, tokens)[|Calls(n - 1, task, tokens)|];
        CountsAdd(Calls(n - 1, task, tokens), [last]);
      }
    }
  }

  // The claim is deliverable exactly if no stage before the credentials call raises.
  lemma DeliverableMeans(c: Claim, o: Outcomes)
    ensures SendsCredentials(c, o) <==> Deliverable(c, o)
  {
    Milestones(c, o);
    FailsFrom(c, o);
    ClaimFitMeans(c, o);
    RunFitMeans(o);
  }

  lemma ClaimFitMeans(c: Claim, o: Outcomes)
    ensures ClaimFailure(c, o).None? && MachineFailure(o).None? <==>
      && c.profile.TextOr("") == "excel" && c.mode == Str("password_totp")
      && c.engine.TextOr("local_worker") == "local_worker"
      && c.taskId.WholeOrZero(o.parse).Some? && 0 < c.taskId.WholeOrZero(o.parse).value
      && c.accountId.WholeOrZero(o.parse).Some? && 0 < c.accountId.WholeOrZero(o.parse).value
      && Strip(c.email.TextOr("")) != "" && c.password.TextOr("") != ""
      && o.rootConfigured && o.nodeFound && o.scriptFound
  {}

  lemma RunFitMeans(o: Outcomes)
    ensures RunnerFailure(o).None? && CredentialsFailure(o).None? <==>
      && o.prepared.Done? && o.runner.Exits? && o.runner.code == 0 && o.output.Done? && o.output.value.Some?
      && NotBlank(o.output.value.value.access) && NotBlank(o.output.value.value.refresh)
      && NotBlank(o.output.value.value.id) && o.validated.Done?
  {}

  /**
   The credentials call is among the calls of a round exactly if there is a claim and it is deliverable; and then the
   round is the claim, these four calls, and a report if the server did not accept the credentials.
   */
  lemma CredentialsSentExactly(o: Outcomes)
    ensures (exists task, tokens :: Credentials(task, tokens) in RoundLog(o)) <==>
      o.claim.Task? && Deliverable(o.claim.claim, o)
    ensures o.claim.Task? && Deliverable(o.claim.claim, o) ==>
      var task := o.claim.claim.taskId.WholeOrZero(o.parse).value;
      && |RoundLog(o)| == (if o.sent.None? && o.reply.status == Str("succeeded") then 5 else 6)
      && RoundLog(o)[..5] == [ClaimTask] + Delivered(task, o.output.value.value)
  {
    if o.claim.Task? {
      ClaimFitMeans(o.claim.claim, o);
      RunFitMeans(o);
      if Deliverable(o.claim.claim, o) {
        DeliverableFacts(o.claim.claim, o);
        DeliveredCalls(o.claim.claim, o, o.claim.claim.taskId.WholeOrZero(o.parse).value, o.output.value.value);
      } else {
        OtherLog(o.claim.claim, o);
      }
    }
  }

  lemma DeliverableFacts(c: Claim, o: Outcomes)
    requires Deliverable(c, o)
    ensures ClaimLog(c, o) == Delivered(c.taskId.WholeOrZero(o.parse).value, o.output.value.value)
    ensures FirstFailure(c, o) == AnswerFailure(o)
  {
    ClaimFitMeans(c, o);
    RunFitMeans(o);
  }

  lemma DeliveredCalls(c: Claim, o: Outcomes, task: int, tokens: Tokens)
    requires ClaimLog(c, o) == Delivered(task, tokens) && FirstFailure(c, o) == AnswerFailure(o)
    requires o.claim == Task(c) && c.taskId.WholeOrZero(o.parse) == Some(task) && 0 < task
    ensures RoundLog(o)[..5] == [ClaimTask] + Delivered(task, tokens) && Credentials(task, tokens) in RoundLog(o)
    ensures |RoundLog(o)| == if o.sent.None? && o.reply.status == Str("succeeded") then 5 else 6
  {
    Behind(Delivered(task, tokens),
           if AnswerFailure(o).Some? then [Fail(task, Reason(AnswerFailure(o).value))] else []);
  }

  lemma Behind(sent: seq<Call>, rest: seq<Call>)
    requires |sent| == 4
    ensures ([ClaimTask] + (sent + rest))[..5] == [ClaimTask] + sent
    ensures |[ClaimTask] + (sent + rest)| == 5 + |rest| && sent[3] in [ClaimTask] + (sent + rest)
  {
    assert ([ClaimTask] + (sent + rest))[4] == sent[3];
  }

  lemma OtherLog(c: Claim, o: Outcomes)
    requires o.claim == Task(c) && !Deliverable(c, o)
    ensures forall call :: call in RoundLog(o) ==> !call.Credentials?
  {
    ClaimFitMeans(c, o);
    RunFitMeans(o);
    assert forall call :: call in ClaimLog(c, o) ==> !call.Credentials?;
  }

  // The counts, in terms of the stages.
  lemma TraceOfStages(o: Outcomes)
    requires o.claim.Task? && TaskId(o.claim.claim, o) > 0
    ensures var c, calls := o.claim.claim, RoundCalls(o);
      && CredentialCalls(calls) == (if SendsCredentials(c, o) then 1 else 0)
      && (forall tokens :: Credentials(TaskId(c, o), tokens) in calls ==>
            SendsCredentials(c, o) && tokens == SentTokens(o))
      && FailReports(calls) == (if Processed(c, o).Some? then 1 else 0)
      && (Processed(c, o).Some? ==> calls[|calls| - 1] == Fail(TaskId(c, o), Reason(Processed(c, o).value)))
  {
    var c := o.claim.claim;
    Milestones(c, o);
    ProcessCounts(c, o);
    CountsAdd(ProcessCalls(c, o), FailCalls(c, o));
    CountsAdd([ClaimTask], TaskCalls(c, o));
    FailCounts(c, o);
  }

  lemma SuccessMeans(c: Claim, o: Outcomes)
    ensures Processed(c, o).None? <==> Deliverable(c, o) && o.sent.None? && o.reply.status == Str("succeeded")
    ensures Deliverable(c, o) ==> SentTokens(o) == o.output.value.value
  {
    Milestones(c, o);
    DeliverableMeans(c, o);
  }

  // For every claim with a positive task id and every mix of outcomes: the credentials are sent at most once, exactly
  // if the claim is deliverable, and then they are the ones the runner produced; fail is attempted exactly once if
  // processing raised and never otherwise, as the last call; so it is never attempted after the credentials call was
  // answered "succeeded", and that is the only way to avoid it.
  lemma RoundTrace(o: Outcomes)
    requires o.claim.Task? && TaskId(o.claim.claim, o) > 0
    ensures var c, calls := o.claim.claim, RoundLog(o);
      && CredentialCalls(calls) == (if Deliverable(c, o) then 1 else 0)
      && (forall tokens :: Credentials(TaskId(c, o), tokens) in calls ==>
            Deliverable(c, o) && tokens == o.output.value.value)
      && FailReports(calls) == (if FirstFailure(c, o).Some? then 1 else 0)
      && (FirstFailure(c, o).Some? ==> calls[|calls| - 1] == Fail(TaskId(c, o), Reason(FirstFailure(c, o).value)))
      && (FailReports(calls) == 0 <==>
        Deliverable(c, o) && o.sent.None? && o.reply.status == Str("succeeded"))
  {
    RoundMeans(o);
    FailsFrom(o.claim.claim, o);
    TraceOfStages(o);
    DeliverableMeans(o.claim.claim, o);
    SuccessMeans(o.claim.claim, o);
  }

  // The first trouble, in terms of the stages.
  lemma Milestones(c: Claim, o: Outcomes)
    ensures SendsCredentials(c, o) <==> FirstTrouble(c, o) >= 16
    ensures Succeeds(c, o) <==> Processed(c, o).None?
    ensures SendsCredentials(c, o) ==> o.validated.Done? && o.output.Done? && Complete(o.output.value)
  {
    var n := FirstTrouble(c, o);
    assert n < STAGES ==> Trouble(n, c, o).Some?;
    LastStages(c, o);
    if SendsCredentials(c, o) {
      assert Trouble(13, c, o).None? && Trouble(14, c, o).None?;
    }
  }

  lemma LastStages(c: Claim, o: Outcomes)
    ensures Trouble(13, c, o).None? ==> o.output.Done? && Complete(o.output.value)
    ensures Trouble(14, c, o).None? ==> o.validated.Done?
    ensures Trouble(16, c, o) == o.sent
    ensures Trouble(17, c, o).None? <==> o.reply.status == Str("succeeded")
  {}

  lemma ProcessCounts(c: Claim, o: Outcomes)
    ensures CredentialCalls(ProcessCalls(c, o)) == if FirstTrouble(c, o) >= 16 then 1 else 0
    ensures FailReports(ProcessCalls(c, o)) == 0
    ensures forall task, tokens :: Credentials(task, tokens) in ProcessCalls(c, o) ==>
      FirstTrouble(c, o) >= 16 && tokens == SentTokens(o)
  {
    var n := FirstTrouble(c, o);
    var m := if n < STAGES then n + 1 else n;
    var calls := Calls(m, TaskId(c, o), SentTokens(o));
    CallCounts(m, TaskId(c, o), SentTokens(o));
    forall task, tokens | Credentials(task, tokens) in calls ensures n >= 16 {
      CountedWhenThere(calls, Credentials(task, tokens));
    }
  }

  lemma {:induction false} CountedWhenThere(calls: seq<Call>, call: Call)
    requires call in calls && call.Credentials?
    ensures CredentialCalls(calls) > 0
  {
    if calls[0] != call {
      assert calls == [calls[0]] + calls[1..];
      CountedWhenThere(calls[1..], call);
    }
  }

  lemma FailCounts(c: Claim, o: Outcomes)
    ensures CredentialCalls(FailCalls(c, o)) == 0
    ensures FailReports(FailCalls(c, o)) == |FailCalls(c, o)|
  {}

  // Without a task, or with an unusable one, the round is the claim alone: nothing is reported, and no credentials are
  // sent. It counts as work exactly if there was a task whose id is a number.
  lemma RoundsWithoutTask(o: Outcomes)
    requires o.claim.Task? && o.claim.claim.taskId.WholeOrZero(o.parse).Some? ==>
      o.claim.claim.taskId.WholeOrZero(o.parse).value <= 0
    ensures RoundLog(o) == [ClaimTask]
    ensures RoundResult(o) == Worked(true) <==> o.claim.Task? && o.claim.claim.taskId.WholeOrZero(o.parse).Some?
  {
    if o.claim.Task? && o.claim.claim.taskId.WholeOrZero(o.parse).Some? {
      assert ClaimFailure(o.claim.claim, o).Some?;
    }
  }

  // Whatever goes wrong, the server receives a code of the table or "worker_failed".
  lemma ReasonsAreCodes(o: Outcomes, task: int, reason: string)
    requires Fail(task, reason) in RoundLog(o)
    ensures reason == "worker_failed" || exists code :: reason == Name(code)
  {
    RoundMeans(o);
    var c := o.claim.claim;
    CallCounts(STAGES, TaskId(c, o), SentTokens(o));
    NoFailBefore(c, o, task, reason);
    OnlyCodesAreSent(Safe(Processed(c, o).value.exc).Text());
  }

  lemma NoFailBefore(c: Claim, o: Outcomes, task: int, reason: string)
    ensures Fail(task, reason) !in ProcessCalls(c, o)
  {
    var n := FirstTrouble(c, o);
    CallCounts(if n < STAGES then n + 1 else n, TaskId(c, o), SentTokens(o));
    NoneCounted(ProcessCalls(c, o), Fail(task, reason));
  }

  lemma {:induction false} NoneCounted(calls: seq<Call>, call: Call)
    requires call.Fail? && FailReports(calls) == 0
    ensures call !in calls
  {
    if calls != [] {
      NoneCounted(calls[1..], call);
      assert calls == [calls[0]] + calls[1..];
    }
  }

  // The run of the claim is started.
  predicate Starts(c: Claim, o: Outcomes) {
    && ClaimFailure(c, o).None? && MachineFailure(o).None? && !Breaking(o.starting) && !Breaking(o.connecting)
    && o.prepared.Done?
  }

  lemma UsableTask(c: Claim, o: Outcomes) returns (task: int)
    requires ClaimFailure(c, o).None?
    ensures c.taskId.WholeOrZero(o.parse) == Some(task) && 0 < task
  {
    task := c.taskId.WholeOrZero(o.parse).value;
  }

  // A failure is reported last.
  lemma ReportIsLast(c: Claim, o: Outcomes, raised: Raised)
    requires o.claim == Task(c) && ClaimFailure(c, o).None? && FirstFailure(c, o) == Some(raised)
    ensures RoundLog(o)[|RoundLog(o)| - 1] == Fail(c.taskId.WholeOrZero(o.parse).value, Reason(raised))
  {
    var task := UsableTask(c, o);
    LogOfFailure(c, o, raised, task, ClaimLog(c, o));
    LastOf(ClaimLog(c, o), Fail(task, Reason(raised)));
  }

  lemma LogOfFailure(c: Claim, o: Outcomes, raised: Raised, task: int, calls: seq<Call>)
    requires o.claim == Task(c) && FirstFailure(c, o) == Some(raised) && calls == ClaimLog(c, o)
    requires c.taskId.WholeOrZero(o.parse) == Some(task) && 0 < task
    ensures RoundLog(o) == [ClaimTask] + (calls + [Fail(task, Reason(raised))])
  {}

  lemma LastOf(calls: seq<Call>, last: Call)
    ensures ([ClaimTask] + (calls + [last]))[|[ClaimTask] + (calls + [last])| - 1] == last
  {}

  lemma RunnerFailsFirst(c: Claim, o: Outcomes)
    requires Starts(c, o) && RunnerFailure(o).Some?
    ensures FirstFailure(c, o) == RunnerFailure(o)
  {}

  // The reason tells what went wrong. A run that failed with a short exit code is reported by what it wrote,
  lemma FailedRunsAreTold(c: Claim, o: Outcomes)
    requires o.claim == Task(c) && Starts(c, o) && o.runner.Exits? && o.runner.code != 0
    ensures RoundLog(o)[|RoundLog(o)| - 1] ==
      Fail(c.taskId.WholeOrZero(o.parse).value,
           if -999 <= o.runner.code <= 999 then RunReason(o.runner.stdout, o.runner.stderr) else "worker_failed")
  {
    var text := RunFailure(o.runner.stdout, o.runner.stderr, o.runner.code);
    assert RunnerFailure(o) == Some(Error(text));
    RunnerFailsFirst(c, o);
    ReportIsLast(c, o, Error(text));
    RunFailureReason(o.runner.stdout, o.runner.stderr, o.runner.code);
  }

  // a run that took too long as a timeout,
  lemma TimeoutsAreTold(c: Claim, o: Outcomes)
    requires o.claim == Task(c) && Starts(c, o) && o.runner.TimesOut?
    ensures RoundLog(o)[|RoundLog(o)| - 1] == Fail(c.taskId.WholeOrZero(o.parse).value, Name(Timeout))
  {
    RunnerFailsFirst(c, o);
    ReportIsLast(c, o, RunnerFailure(o).value);
    TimeoutReason(RunnerFailure(o).value);
  }

  // and an error code in the server's own answer comes back unchanged.
  lemma ServerCodesAreTold(c: Claim, o: Outcomes, code: Code)
    requires o.claim == Task(c) && Deliverable(c, o) && o.sent.None? && o.reply.status != Str("succeeded")
    requires o.reply.error == Str(Name(code))
    ensures RoundLog(o)[|RoundLog(o)| - 1] == Fail(c.taskId.WholeOrZero(o.parse).value, Name(code))
  {
    AnswerFailsLast(c, o);
    NamesAreNotEmpty(code);
    assert AnswerFailure(o) == Some(Error(Name(code)));
    ReportIsLast(c, o, Error(Name(code)));
    CodeReason(code);
  }

  lemma AnswerFailsLast(c: Claim, o: Outcomes)
    requires Deliverable(c, o)
    ensures ClaimFailure(c, o).None? && FirstFailure(c, o) == AnswerFailure(o)
  {
    ClaimFitMeans(c, o);
    RunFitMeans(o);
  }

  lemma RunFailureReason(stdout: string, stderr: string, code: int)
    ensures Reason(Error(RunFailure(stdout, stderr, code))) ==
      if -999 <= code <= 999 then RunReason(stdout, stderr) else "worker_failed"
  {
    RunFailureIsReadBack(stdout, stderr, code);
    ClassifyingTwice(Other(RunFailure(stdout, stderr, code)));
  }

  lemma TimeoutReason(raised: Raised)
    requires raised == Error(PROTOCOL_TIMED_OUT)
    ensures Reason(raised) == Name(Timeout)
  {
    TimeoutIsReported(raised.exc);
    ReportedIsSent(raised.exc, Timeout);
  }

  lemma CodeReason(code: Code)
    ensures Reason(Error(Name(code))) == Name(code)
  {
    CodesClassifyAsThemselves(code);
    ClassifyingTwice(Other(Name(code)));
  }

  lemma NamesAreNotEmpty(code: Code)
    ensures Name(code) != ""
  {
    match code { case _ => }
  }
}
