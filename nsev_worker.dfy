/**
 * The monitor's background worker: its own copy of the session client,
 * which decodes the body as JSON and re-bootstraps after any failure of
 * the request, and the polling loop that turns each fetched document into
 * a snapshot and waits a minute, or ten seconds after an error.
 *
 * The loop runs until `stop` clears the flag from the window thread; here
 * the number of rounds completed before that is the length of `stamps`,
 * the clock readings the snapshots are stamped with.
 */
module OptionWorker {

  import opened Wrappers
  import opened Chain
  import opened SnapshotMetrics
  import opened HttpSession

  /**
   * `get_option_chain_data`: as `get_data`, but the body is decoded as
   * JSON, and any failure inside the `try` (a transport error, an
   * unexpected status, a body that is not JSON) starts a new session
   * before it is raised; if that bootstrap fails too, its error is the one
   * raised.  A failure of the first bootstrap, outside the `try`, is
   * raised as it is.
   */
  function GetJsonSpec(c: Client): (Result<Payload, string>, Client) {
    var (e0, c0) := EnsureSession(c);
    if e0.Some? then (Err(e0.value), c0)
    else
      var (r, c1) := TrySpec(c0, true);
      if r.Ok? then (Ok(r.value.doc), c1)
      else
        var (e2, c2) := InitSpec(c1);
        (Err(if e2.Some? then e2.value else r.error), c2)
  }

  /** One round of `run`: the snapshot emitted, if fetching and processing both succeed. */
  function RoundSpec(c: Client, now: string): (Option<Snapshot>, Client) {
    var (r, c1) := GetJsonSpec(c);
    if r.Err? then (None, c1)
    else
      var s := ProcessSpec(r.value, now);
      (if s.Ok? then Some(s.value) else None, c1)
  }

  /** The pause after a round: a minute after an emitted snapshot, ten seconds after an error. */
  function SleepAfter(o: Option<Snapshot>): nat {
    if o.Some? then 60 else 10
  }

  function RunSpec(c: Client, stamps: seq<string>): (r: (seq<Option<Snapshot>>, Client))
    ensures |r.0| == |stamps|
    decreases |stamps|
  {
    if stamps == [] then ([], c)
    else
      var (o, c1) := RoundSpec(c, stamps[0]);
      var (os, c2) := RunSpec(c1, stamps[1..]);
      ([o] + os, c2)
  }

  /** The model of `Worker`: the client state and the `running` flag. */
  class Worker {
    var session: SessionState
    var cookies: map<string, string>
    var created: nat
    var log: seq<Request>
    var net: seq<Reply>
    var running: bool

    function State(): Client
      reads this
    {
      Client(session, cookies, created, log, net)
    }

    constructor(network: seq<Reply>)
      ensures State() == Client(NoSession, map[], 0, [], network) && running
    {
      session := NoSession;
      cookies := map[];
      created := 0;
      log := [];
      net := network;
      running := true;
    }

    method Send(req: Request) returns (reply: Reply)
      modifies this
      ensures (reply, State()) == SendSpec(old(State()), req)
      ensures running == old(running)
    {
      if !session.Live? {
        return Failure("Session is closed");
      }
      if net == [] {
        reply := Failure("connection error");
      } else {
        reply := net[0];
        net := net[1..];
      }
      log := log + [req];
    }

    method InitializeSession() returns (error: Option<string>)
      modifies this
      ensures (error, State()) == InitSpec(old(State()))
      ensures running == old(running)
    {
      session := Live(created);
      created := created + 1;
      var reply := Send(Bootstrap);
      if reply.Failure? {
        session := NoSession;
        return Some(reply.reason);
      }
      if reply.status == 200 {
        cookies := reply.cookies;
      }
      error := None;
    }

    /** The `try` block, which the caller follows with a new session on failure. */
    method TryFetch() returns (r: Result<Payload, string>)
      modifies this
      ensures var (t, c) := TrySpec(old(State()), true);
        State() == c && r == (if t.Ok? then Ok(t.value.doc) else Err(t.error))
      ensures running == old(running)
    {
      var first := Send(Fetch);
      if first.Failure? {
        return Err(first.reason);
      }
      var reply := first;
      if first.status == 401 {
        var e := InitializeSession();
        if e.Some? {
          return Err(e.value);
        }
        reply := Send(Fetch);
        if reply.Failure? {
          return Err(reply.reason);
        }
      } else if first.status != 200 {
        return Err("Unexpected status code: " + IntToString(first.status));
      }
      if reply.json.None? {
        return Err("Attempt to decode JSON");
      }
      r := Ok(reply.json.value);
    }

    method GetOptionChainData() returns (r: Result<Payload, string>)
      modifies this
      ensures (r, State()) == GetJsonSpec(old(State()))
      ensures running == old(running)
    {
      if session.NoSession? {
        var e := InitializeSession();
        if e.Some? {
          return Err(e.value);
        }
      }
      r := TryFetch();
      if r.Err? {
        var e := InitializeSession();
        if e.Some? {
          r := Err(e.value);
        }
      }
    }

    /** The body of the loop in `run`: fetch, process, and the snapshot to emit. */
    method Round(now: string) returns (outcome: Option<Snapshot>)
      modifies this
      ensures (outcome, State()) == RoundSpec(old(State()), now)
      ensures running == old(running)
    {
      outcome := None;
      var data := GetOptionChainData();
      if data.Ok? {
        var processed := ProcessData(data.value, now);
        if processed.Ok? {
          outcome := Some(processed.value);
        }
      }
    }

    /** `run`: one round per clock reading while the flag stays set. */
    method Run(stamps: seq<string>) returns (emitted: seq<Option<Snapshot>>, sleeps: seq<nat>)
      modifies this
      ensures running == old(running)
      ensures old(running) ==> (emitted, State()) == RunSpec(old(State()), stamps)
      ensures !old(running) ==> emitted == [] && State() == old(State())
      ensures |sleeps| == |emitted| && forall i :: 0 <= i < |emitted| ==> sleeps[i] == SleepAfter(emitted[i])
    {
      emitted := [];
      sleeps := [];
      var i := 0;
      ghost var start := State();
      ghost var goal := RunSpec(start, stamps);
      assert stamps[0..] == stamps;
      assert emitted + goal.0 == goal.0;
      while running && i < |stamps|
        invariant 0 <= i <= |stamps| && |emitted| == |sleeps| == i
        invariant running == old(running)
        invariant forall k :: 0 <= k < i ==> sleeps[k] == SleepAfter(emitted[k])
        invariant old(running) ==> goal == (emitted + RunSpec(State(), stamps[i..]).0, RunSpec(State(), stamps[i..]).1)
        invariant !old(running) ==> i == 0 && State() == start
      {
        ghost var rest := RunSpec(State(), stamps[i..]);
        var outcome := Round(stamps[i]);
        ghost var next := RunSpec(State(), stamps[i + 1..]);
        assert stamps[i..][1..] == stamps[i + 1..];
        assert rest == ([outcome] + next.0, next.1);
        assert emitted + ([outcome] + next.0) == (emitted + [outcome]) + next.0;
        emitted := emitted + [outcome];
        sleeps := sleeps + [SleepAfter(outcome)];
        i := i + 1;
      }
      if old(running) {
        assert stamps[i..] == [];
        assert emitted + [] == emitted;
      }
    }

    /** `stop`: the loop ends once it next tests the flag. */
    method Stop()
      modifies this
      ensures !running && State() == old(State())
    {
      running := false;
    }
  }

  /**
   * Any failure after the session exists is followed by one more bootstrap
   * before it is raised; a failure of the first bootstrap is raised without
   * another.  Success makes no bootstrap of its own beyond the 401 retry.
   */
  lemma FailureReinitialises(c: Client)
    ensures var (r, c1) := GetJsonSpec(c);
      var (e0, c0) := EnsureSession(c);
      var (t, ct) := TrySpec(c0, true);
      (e0.Some? ==> r.Err? && c1 == c0) &&
      (e0.None? && t.Err? ==> r.Err? && c1.log == ct.log + [Bootstrap]) &&
      (e0.None? && t.Ok? ==> r == Ok(t.value.doc) && c1 == ct)
  {
  }

  /** With a live session and a 200 JSON body, the round emits exactly the processed snapshot. */
  lemma RoundOnSuccess(c: Client, text: string, doc: Payload, jar: map<string, string>, now: string)
    requires c.session.Live? && |c.net| > 0 && c.net[0] == Response(200, text, Some(doc), jar)
    ensures var (o, c1) := RoundSpec(c, now);
      c1 == c.(log := c.log + [Fetch], net := c.net[1..]) &&
      (o.Some? <==> ProcessSpec(doc, now).Ok?) &&
      (o.Some? ==> o.value == ProcessSpec(doc, now).value)
  {
  }

  /** A 200 response whose body is not JSON is an error, after which the worker holds a new session. */
  lemma RoundOnBadJson(c: Client, text: string, jar: map<string, string>, boot: Reply, now: string)
    requires c.session.Live? && |c.net| >= 2 && c.net[0] == Response(200, text, None, jar)
    requires c.net[1].Response?
    ensures RoundSpec(c, now).0 == None
    ensures RoundSpec(c, now).1.session == Live(c.created)
    ensures RoundSpec(c, now).1.log == c.log + [Fetch, Bootstrap]
  {
    assert c.net[1..][0] == c.net[1];
    assert c.log + [Fetch] + [Bootstrap] == c.log + [Fetch, Bootstrap];
  }
}
