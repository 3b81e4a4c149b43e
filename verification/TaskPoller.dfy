/** RedfishManager.fetch_task over every stream of task-monitor responses. */
module TaskPoller {
  import opened Wrappers
  import opened JsonModel
  import opened Ceilings

  datatype TaskState =
    | New | Starting | Running | Suspended | Interrupted | Pending | Stopping
    | Completed | Killed | Exception | Service | Cancelling | Cancelled

  predicate Terminal(s: Option<TaskState>) {
    s == Some(Completed) || s == Some(Killed) || s == Some(Cancelled) || s == Some(Exception)
  }

  /** TaskState(value): the member with this wire name. */
  function Coerce(value: string): Option<TaskState> {
    match value
    case "New" => Some(New)
    case "Starting" => Some(Starting)
    case "Running" => Some(Running)
    case "Suspended" => Some(Suspended)
    case "Interrupted" => Some(Interrupted)
    case "Pending" => Some(Pending)
    case "Stopping" => Some(Stopping)
    case "Completed" => Some(Completed)
    case "Killed" => Some(Killed)
    case "Exception" => Some(Exception)
    case "Service" => Some(Service)
    case "Cancelling" => Some(Cancelling)
    case "Cancelled" => Some(Cancelled)
    case _ => None
  }

  /** get_task_state, its first component; body is None when the response is no JSON. */
  function StateIn(body: Option<Json>): Option<TaskState> {
    if body.Some? && body.value.Obj? && "TaskState" in body.value.fields && body.value.fields["TaskState"].Str?
    then Coerce(body.value.fields["TaskState"].s) else None
  }

  /** One GET: status, body, the number in Retry-After (0 without one), and the clock when the budget is checked. */
  datatype Poll = Poll(code: int, body: Option<Json>, retryAfter: int, at: real)

  datatype Settings = Settings(sleepTime: Option<int>, waitFor: Option<TaskState>, timeout: Option<real>, started: real)

  /** A reaped monitor or a server error ends the wait. */
  predicate Gone(p: Poll) { p.code == 404 || p.code == 410 || p.code >= 500 }

  /** The state a response shows, if its body is looked at and names one. */
  function Shown(p: Poll): Option<TaskState> {
    if p.code == 401 || Gone(p) then None else StateIn(p.body)
  }

  /** The last state shown by the first n responses. */
  function Seen(polls: seq<Poll>, n: nat): Option<TaskState>
    requires n <= |polls|
  {
    if n == 0 then None
    else if Shown(polls[n - 1]).Some? then Shown(polls[n - 1])
    else Seen(polls, n - 1)
  }

  /** Of the first n responses, k shows a state and none after it does. */
  ghost predicate LastShown(polls: seq<Poll>, n: nat, k: nat)
    requires k < n <= |polls|
  {
    Shown(polls[k]).Some? && forall j | k < j < n :: Shown(polls[j]).None?
  }

  /** That is: shown by one of them, and by none after it was another shown. */
  lemma {:induction false} SeenIsLast(polls: seq<Poll>, n: nat)
    requires n <= |polls|
    ensures Seen(polls, n).None? <==> forall k | 0 <= k < n :: Shown(polls[k]).None?
    ensures Seen(polls, n).Some? ==>
      exists k | 0 <= k < n :: LastShown(polls, n, k) && Shown(polls[k]) == Seen(polls, n)
  {
    if n > 0 {
      if Shown(polls[n - 1]).Some? {
        assert LastShown(polls, n, n - 1);
      } else {
        SeenIsLast(polls, n - 1);
        if k :| 0 <= k < n - 1 && LastShown(polls, n - 1, k) && Shown(polls[k]) == Seen(polls, n - 1) {
          assert LastShown(polls, n, k);
        }
      }
    }
  }

  function Max(a: int, b: int): int { if a >= b then a else b }

  function Delay(s: Settings, p: Poll): int {
    Max(if s.sleepTime.Some? then s.sleepTime.value else 0, p.retryAfter)
  }

  predicate Reached(s: Settings, state: Option<TaskState>) {
    Terminal(state) || (s.waitFor.Some? && state == s.waitFor)
  }

  predicate TimedOut(s: Settings, p: Poll) {
    s.timeout.Some? && p.at - s.started >= s.timeout.value
  }

  datatype Outcome = Returned(state: Option<TaskState>) | Unauthorized | BadSleep | Exhausted

  /** What response k makes the poller do, if anything but sleep and ask again. */
  function Verdict(s: Settings, polls: seq<Poll>, k: nat): Option<Outcome>
    requires k < |polls|
  {
    if polls[k].code == 401 then Some(Unauthorized)
    else if Gone(polls[k]) || Reached(s, Seen(polls, k + 1)) || TimedOut(s, polls[k]) then
      Some(Returned(Seen(polls, k + 1)))
    else if Delay(s, polls[k]) < 0 then Some(BadSleep)
    else None
  }

  /** count responses were asked for, and r came of it. */
  ghost predicate Run(polls: seq<Poll>, s: Settings, r: Outcome, count: nat) {
    && count <= |polls| && (r == Exhausted ==> count == |polls|)
    && (r != Exhausted ==> count > 0 && Verdict(s, polls, count - 1) == Some(r))
    && forall k | 0 <= k < (if r == Exhausted then count else count - 1) :: Verdict(s, polls, k).None?
  }

  /** polls is what the service would answer; the poller stops at the first answer that settles it and asks no more. */
  method FetchTask(polls: seq<Poll>, s: Settings) returns (r: Outcome, count: nat)
    ensures Run(polls, s, r, count)
  {
    var taskState: Option<TaskState> := None;
    count := 0;
    while count < |polls|
      invariant count <= |polls| && taskState == Seen(polls, count)
      invariant forall k | 0 <= k < count :: Verdict(s, polls, k).None?
    {
      var resp := polls[count];
      count := count + 1;
      if resp.code == 401 { return Unauthorized, count; }
      if resp.code == 404 || resp.code == 410 || resp.code >= 500 { return Returned(taskState), count; }
      var state := StateIn(resp.body);
      if state.Some? { taskState := state; }
      if s.waitFor.Some? && taskState == s.waitFor { return Returned(taskState), count; }
      if Terminal(taskState) { return Returned(taskState), count; }
      if s.timeout.Some? && resp.at - s.started >= s.timeout.value { return Returned(taskState), count; }
      if Delay(s, resp) < 0 { return BadSleep, count; }
    }
    r := Exhausted;
  }

  // ------------------------------------------------------------ what follows for a whole run

  /**
    Whatever comes back is the last state seen; nothing is asked after an answer that shows a terminal or awaited
    state.
   */
  lemma ReturnsLastState(polls: seq<Poll>, s: Settings, r: Outcome, count: nat)
    requires Run(polls, s, r, count)
    ensures r.Returned? ==> r.state == Seen(polls, count)
    ensures forall k | 0 <= k < count - 1 :: !Reached(s, Seen(polls, k + 1)) && !Gone(polls[k]) && polls[k].code != 401
  {
    forall k | 0 <= k < count - 1 ensures !Reached(s, Seen(polls, k + 1)) && !Gone(polls[k]) && polls[k].code != 401 {
      assert Verdict(s, polls, k).None?;
    }
  }

  /** A monotonic clock that advances at least as far as each sleep. */
  ghost predicate Clock(polls: seq<Poll>, s: Settings) {
    && (|polls| > 0 ==> polls[0].at >= s.started)
    && forall k | 0 < k < |polls| :: polls[k].at >= polls[k - 1].at + Delay(s, polls[k - 1]) as real
  }

  lemma {:induction false} Elapsed(polls: seq<Poll>, s: Settings, k: nat)
    requires Clock(polls, s) && s.sleepTime.Some? && s.sleepTime.value >= 1 && k < |polls|
    ensures polls[k].at - s.started >= (k * s.sleepTime.value) as real
  {
    if k > 0 {
      Elapsed(polls, s, k - 1);
      assert k * s.sleepTime.value == (k - 1) * s.sleepTime.value + s.sleepTime.value;
    }
  }

  /**
    With a sleep of d >= 1 and a budget t > 0 there are at most ceil(t / d) + 1 GETs, however long the service keeps
    answering.
   */
  lemma GetsBounded(polls: seq<Poll>, s: Settings, r: Outcome, count: nat)
    requires Run(polls, s, r, count) && Clock(polls, s)
    requires s.sleepTime.Some? && s.sleepTime.value >= 1 && s.timeout.Some? && s.timeout.value > 0.0
    ensures count <= Ceil(s.timeout.value / s.sleepTime.value as real) + 1
    ensures r == Exhausted ==> |polls| <= Ceil(s.timeout.value / s.sleepTime.value as real)
  {
    var d, t := s.sleepTime.value, s.timeout.value;
    var k := Ceil(t / d as real);
    assert k >= 0 by { assert t / d as real > 0.0; }
    if count >= k + 1 {
      Elapsed(polls, s, k);
      CeilCovers(t, d as real, k);
      assert (k * d) as real == k as real * d as real;
      assert TimedOut(s, polls[k]);
      assert Verdict(s, polls, k).Some?;
    }
  }
}
