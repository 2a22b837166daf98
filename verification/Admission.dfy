/** Who is asked, who accepts, and how an accepted job is run. */
module Admission {
  import opened Prelude
  import opened Roles
  import opened Discovery

  const CLAUDE := "claude"
  const CODEX := "codex"
  const API := "api"
  const ANY := "any"

  /** The binaries a worker can run, in the order `any` tries them. */
  const HARNESSES := [CLAUDE, CODEX, API]

  const RESULT_GRACE_SECONDS := 15

  datatype Job = Job(id: string, text: string, required: string, maxTokens: int, maxRuntime: int, expected: string)

  /** A job as received; `BadShape` stands for a non-object, a missing or an ill-typed field. */
  datatype RawJob = BadShape | WellShaped(job: Job)

  predicate IsSpace(c: char) {
    || '\t' <= c <= '\r' || c == ' ' || '\U{1c}' <= c <= '\U{1f}' || c == '\U{85}' || c == '\U{a0}'
    || c == '\U{1680}' || '\U{2000}' <= c <= '\U{200a}' || c == '\U{2028}' || c == '\U{2029}'
    || c == '\U{202f}' || c == '\U{205f}' || c == '\U{3000}'
  }

  predicate Blank(s: string) {
    forall c :: c in s ==> IsSpace(c)
  }

  predicate ValidJob(raw: RawJob) {
    && raw.WellShaped?
    && !Blank(raw.job.id) && !Blank(raw.job.text) && !Blank(raw.job.expected)
    && (raw.job.required in HARNESSES || raw.job.required == ANY)
    && raw.job.maxTokens > 0 && raw.job.maxRuntime > 0
  }

  datatype Config = Config(acceptsTasks: bool, forceSimulate: bool, maxRuntime: int, simulateDelay: nat)

  datatype Reason = SelfDelegation | InvalidJob | NotAccepting | NoHarness | RuntimeTooLong

  datatype Verdict = Accepts | Rejects(reason: Reason)

  /** The worker's checks on an offer, in order. */
  function Decide(me: PeerId, requester: PeerId, raw: RawJob, config: Config, harnesses: set<string>): Verdict {
    if requester == me then Rejects(SelfDelegation)
    else if !ValidJob(raw) then Rejects(InvalidJob)
    else if !config.acceptsTasks then Rejects(NotAccepting)
    else if raw.job.required != ANY && raw.job.required !in harnesses && !config.forceSimulate then Rejects(NoHarness)
    else if raw.job.maxRuntime > config.maxRuntime then Rejects(RuntimeTooLong)
    else Accepts
  }

  predicate Eligible(row: PeerInfo, required: string) {
    row.manifest.acceptsTasks && (required == ANY || required in row.manifest.harnesses)
  }

  /** The first of the most recently seen eligible peers. */
  method ChooseWorker(rows: seq<PeerInfo>, required: string) returns (worker: Option<PeerInfo>)
    ensures worker.Some? <==> exists row :: row in rows && row.manifest.acceptsTasks
                                && (required == "any" || required in row.manifest.harnesses)
    ensures worker == None <==> forall row :: row in rows ==> !Eligible(row, required)
    ensures worker.Some? ==>
      exists i :: 0 <= i < |rows| && rows[i] == worker.value && Eligible(rows[i], required)
        && (forall k :: 0 <= k < |rows| && Eligible(rows[k], required) ==> rows[k].lastSeen <= rows[i].lastSeen)
        && (forall k :: 0 <= k < i && Eligible(rows[k], required) ==> rows[k].lastSeen < rows[i].lastSeen)
  {
    worker := None;
    ghost var at := 0;
    for n := 0 to |rows|
      invariant worker == None ==> forall k :: 0 <= k < n ==> !Eligible(rows[k], required)
      invariant worker.Some? ==>
        && 0 <= at < n && rows[at] == worker.value && Eligible(rows[at], required)
        && (forall k :: 0 <= k < n && Eligible(rows[k], required) ==> rows[k].lastSeen <= rows[at].lastSeen)
        && (forall k :: 0 <= k < at && Eligible(rows[k], required) ==> rows[k].lastSeen < rows[at].lastSeen)
    {
      if Eligible(rows[n], required) && (worker == None || worker.value.lastSeen < rows[n].lastSeen) {
        worker := Some(rows[n]);
        at := n;
      }
    }
  }

  // ---- execution

  /** Advertised, and its binary still resolvable. */
  predicate Usable(name: string, harnesses: set<string>, onPath: set<string>) {
    name in harnesses && (name == API || name in onPath)
  }

  datatype ProcessEnd = Exited(code: int) | TimedOut | LaunchFailed

  datatype Execution = Execution(job: string, ok: bool, harness: Option<string>, seconds: nat)

  /** The first usable of `names`. */
  function FirstUsable(names: seq<string>, harnesses: set<string>, onPath: set<string>): (h: Option<string>)
    ensures h == None <==> forall k :: 0 <= k < |names| ==> !Usable(names[k], harnesses, onPath)
    ensures h.Some? ==> exists i :: 0 <= i < |names| && names[i] == h.value && Usable(h.value, harnesses, onPath)
                          && forall k :: 0 <= k < i ==> !Usable(names[k], harnesses, onPath)
  {
    if names == [] then None
    else if Usable(names[0], harnesses, onPath) then Some(names[0])
    else
      var h := FirstUsable(names[1..], harnesses, onPath);
      assert forall k :: 0 < k < |names| ==> names[k] == names[1..][k - 1];
      assert forall i :: 0 <= i < |names[1..]| ==> names[1..][i] == names[i + 1];
      h
  }

  /** The harness a job is run on; `None` means that the run is simulated. */
  function Choice(required: string, harnesses: set<string>, onPath: set<string>, force: bool): Option<string> {
    if force then None
    else if required == ANY then FirstUsable(HARNESSES, harnesses, onPath)
    else if Usable(required, harnesses, onPath) then Some(required)
    else None
  }

  /** The result of a run on `harness`; `end` and `took` are what its process does. */
  function Outcome(job: Job, harness: Option<string>, delay: nat, end: ProcessEnd, took: nat): Execution
    requires job.maxRuntime > 0
  {
    match harness
    case None => Execution(job.id, true, None, if delay < job.maxRuntime then delay else job.maxRuntime)
    case Some(_) => Execution(job.id, end == Exited(0), harness, took)
  }

  /** The subprocess ends within its timeout, and at it if the timeout ends it. */
  predicate WithinTimeout(end: ProcessEnd, took: nat, maxRuntime: int) {
    took <= maxRuntime && (end == TimedOut ==> took == maxRuntime)
  }

  /** The result is `None` when the job fails the executor's own validation. */
  method ExecuteJob(raw: RawJob, harnesses: set<string>, onPath: set<string>, force: bool, delay: nat,
                    end: ProcessEnd, took: nat) returns (r: Option<Execution>)
    requires raw.WellShaped? && raw.job.maxRuntime > 0 ==> WithinTimeout(end, took, raw.job.maxRuntime)
    ensures r.Some? <==> ValidJob(raw)
    ensures r.Some? ==>
      && r.value == Outcome(raw.job, Choice(raw.job.required, harnesses, onPath, force), delay, end, took)
      && r.value.job == raw.job.id
      && r.value.seconds <= raw.job.maxRuntime
      && (r.value.ok <==> r.value.harness == None || end == Exited(0))
    ensures r.Some? ==>
      r.value.harness
      == if force then None
         else if raw.job.required == "api" then (if "api" in harnesses then Some("api") else None)
         else if raw.job.required == "claude" then (if "claude" in harnesses && "claude" in onPath then Some("claude") else None)
         else if raw.job.required == "codex" then (if "codex" in harnesses && "codex" in onPath then Some("codex") else None)
         else if "claude" in harnesses && "claude" in onPath then Some("claude")
         else if "codex" in harnesses && "codex" in onPath then Some("codex")
         else if "api" in harnesses then Some("api") else None
    ensures r.Some? && r.value.harness.Some? ==> r.value.seconds == took
    ensures r.Some? && r.value.harness == None ==>
      r.value.seconds <= delay && (r.value.seconds == delay || r.value.seconds == raw.job.maxRuntime)
  {
    hide Blank;
    if !ValidJob(raw) {
      return None;
    }
    assert HARNESSES[0] == "claude" && HARNESSES[1] == "codex" && HARNESSES[2] == "api";
    NamesAreThree();
    var required := raw.job.required;
    var harness: Option<string> := None;
    if !force {
      if required == ANY {
        for i := 0 to |HARNESSES|
          invariant harness == None
          invariant forall k :: 0 <= k < i ==> !Usable(HARNESSES[k], harnesses, onPath)
        {
          if Usable(HARNESSES[i], harnesses, onPath) {
            harness := Some(HARNESSES[i]);
            FirstIsUnique(HARNESSES, i, harnesses, onPath);
            break;
          }
        }
      } else if Usable(required, harnesses, onPath) {
        harness := Some(required);
      }
    }
    if harness == None {
      return Some(Execution(raw.job.id, true, None, if delay < raw.job.maxRuntime then delay else raw.job.maxRuntime));
    }
    r := Some(Execution(raw.job.id, end == Exited(0), harness, took));
  }

  lemma {:induction false} FirstIsUnique(names: seq<string>, i: nat, harnesses: set<string>, onPath: set<string>)
    requires i < |names| && Usable(names[i], harnesses, onPath)
    requires forall k :: 0 <= k < i ==> !Usable(names[k], harnesses, onPath)
    ensures FirstUsable(names, harnesses, onPath) == Some(names[i])
  {
    if i > 0 {
      FirstIsUnique(names[1..], i - 1, harnesses, onPath);
    }
  }

  lemma NamesAreThree()
    ensures API != CLAUDE && API != CODEX && API != ANY && CLAUDE != CODEX && CLAUDE != ANY && CODEX != ANY
  {
    assert |API| == 3 && |CLAUDE| == 6 && |CODEX| == 5 && API[1] != ANY[1];
  }

  // ---- agreement of the two ends

  /** The row the requester saw says what the worker's configuration says. */
  predicate RowIsCurrent(row: PeerInfo, config: Config, harnesses: set<string>) {
    && row.manifest.acceptsTasks == config.acceptsTasks
    && row.manifest.harnesses.Keys == harnesses
    && row.manifest.maxRuntime == config.maxRuntime
  }

  /** A worker chosen from the requester's own table, if its row is current,
      accepts a valid job unless the job's runtime exceeds the advertised limit. */
  lemma ChosenWorkerAccepts(h: History, t: int, row: PeerInfo, me: PeerId, raw: RawJob, config: Config, harnesses: set<string>)
    requires Live(h, row, t) && (forall i :: 0 <= i < |h| ==> h[i].peerId != me)
    requires ValidJob(raw) && Eligible(row, raw.job.required) && RowIsCurrent(row, config, harnesses)
    ensures row.peerId != me
    ensures Decide(row.peerId, me, raw, config, harnesses)
            == if raw.job.maxRuntime <= row.manifest.maxRuntime then Accepts else Rejects(RuntimeTooLong)
  {
    LatestIsRecorded(h, row.peerId);
  }

  /** A worker accepts an offer iff it comes from another peer; carries a job with
      an id, a task and an expected output that are not blank, one of the four
      harness names, and positive limits; finds the worker accepting tasks; names a
      harness the worker has (or none, or a worker that simulates everything); and
      keeps within the worker's runtime limit. */
  lemma AcceptsExactly(me: PeerId, requester: PeerId, raw: RawJob, config: Config, harnesses: set<string>)
    ensures Decide(me, requester, raw, config, harnesses) == Accepts
            <==> && requester != me && raw.WellShaped?
                 && (exists c :: c in raw.job.id && !IsSpace(c))
                 && (exists c :: c in raw.job.text && !IsSpace(c))
                 && (exists c :: c in raw.job.expected && !IsSpace(c))
                 && raw.job.required in {"claude", "codex", "api", "any"}
                 && raw.job.maxTokens >= 1 && 1 <= raw.job.maxRuntime <= config.maxRuntime
                 && config.acceptsTasks
                 && (raw.job.required == "any" || raw.job.required in harnesses || config.forceSimulate)
  {
    hide IsSpace;
    assert forall h :: h in HARNESSES <==> h == HARNESSES[0] || h == HARNESSES[1] || h == HARNESSES[2];
  }

  /** What a requester that names a harness gets from an accepted offer: that
      harness, if the worker can still resolve its binary and is not set to
      simulate.  A harness the worker does not have is accepted for simulation only. */
  lemma AcceptedRunsAsAsked(me: PeerId, requester: PeerId, raw: RawJob, config: Config, harnesses: set<string>, onPath: set<string>)
    requires Decide(me, requester, raw, config, harnesses) == Accepts && raw.job.required != "any"
    ensures raw.job.required !in harnesses ==> config.forceSimulate
    ensures !config.forceSimulate && (raw.job.required == "api" || raw.job.required in onPath) ==>
      Choice(raw.job.required, harnesses, onPath, config.forceSimulate) == Some(raw.job.required)
  {
    hide Blank;
  }
}
