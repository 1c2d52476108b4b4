/**
  The query engine of obdii/obdii_data.py: `query_command` (a bounded retry
  loop with linear backoff and a sticky exception flag), `obd_connect` (the
  same loop shape around opening the adapter) and the `query_*` wrappers, all
  of which set the CAN header, then the receive address, then send one data
  request. The wrappers differ only in the addressing pair and the data key,
  so one parameterised wrapper, `QuerySignal`, stands for all of them.

  The adapter is a scripted stub: it answers the coming queries from a
  script of outcomes and the coming connection attempts from a script of
  statuses, and records in ghost logs every command it was sent, every sleep
  the host took and every connection it opened. Each method is proved
  against a trace function of the scripts; the lemmas are about those.
*/
module Query {
  import opened Wrappers
  import Commands

  /** The `value` of a python-OBD response: `None`, a string, or a number. */
  datatype Value = NoneValue | Text(s: string) | Number(x: real)

  /** What `connection.query` returns: `None`, or a response with its
      `is_null()` flag and its `value`. */
  datatype Reply = NoReply | Reply(isNull: bool, value: Value)

  /** One call of `connection.query`: it raises, or it returns a reply. */
  datatype Outcome = Raises | Returns(reply: Reply)

  /** python-OBD's `OBDStatus`. */
  datatype Status = NotConnected | ElmConnected | ObdConnected | CarConnected

  /** The exceptions the modelled code raises. */
  datatype Failure =
    | NoValidResponse(command: Commands.Command, maxAttempts: int) // ValueError of query_command
    | ConnectionError(status: Status)  // OBDIIConnectionError of obd_connect
    | NoConnection                     // AttributeError: None.status() when obd_connect makes no attempt
    | MissingKey(key: string)          // KeyError of an ext_commands lookup

  /** A value the program is willing to store: not `None`, `"?"` or `""`. */
  predicate Presentable(v: Value)
  {
    v != NoneValue && v != Text("?") && v != Text("")
  }

  /** The validity test of `query_command` for an attempt that did not raise. */
  predicate Usable(r: Reply)
  {
    r.Reply? && !r.isNull && Presentable(r.value)
  }

  /** The attempt returned a valid reply. */
  predicate Accepted(o: Outcome)
  {
    o.Returns? && Usable(o.reply)
  }

  /** The attempt returned, but its reply is not valid. */
  predicate Rejected(o: Outcome)
  {
    o.Returns? && !Usable(o.reply)
  }

  /** The outcome of the `k`-th query from now; past the end of the script
      every query raises. */
  function At(outs: seq<Outcome>, k: nat): Outcome
  {
    if k < |outs| then outs[k] else Raises
  }

  /** The status of the `k`-th connection opened from now; past the end of
      the script the adapter does not connect. */
  function StatusAt(sts: seq<Status>, k: nat): Status
  {
    if k < |sts| then sts[k] else NotConnected
  }

  /** What is left of a script once `n` entries are used. */
  function Drop<T>(s: seq<T>, n: nat): (r: seq<T>)
    ensures |r| == if n <= |s| then |s| - n else 0
    ensures forall k :: 0 <= k < |r| ==> r[k] == s[n + k]
  {
    if n <= |s| then s[n..] else []
  }

  lemma AtDrop(outs: seq<Outcome>, n: nat, k: nat)
    ensures At(Drop(outs, n), k) == At(outs, n + k)
  {
  }

  lemma DropDrop<T>(s: seq<T>, a: nat, b: nat)
    ensures Drop(Drop(s, a), b) == Drop(s, a + b)
  {
  }

  lemma Assoc<T>(x: seq<T>, y: seq<T>, z: seq<T>)
    ensures x + y + z == x + (y + z)
  {
  }

  /** The sleeps 1, 2, ..., n seconds of the linear backoff. */
  function Ramp(n: nat): (r: seq<nat>)
    ensures |r| == n
    ensures forall i :: 0 <= i < n ==> r[i] == i + 1
  {
    if n == 0 then [] else Ramp(n - 1) + [n]
  }

  /** The sleeps of a retry loop that made `n` attempts: one after every
      attempt but the last, the k-th lasting k seconds. */
  function Backoff(n: nat): seq<nat>
  {
    if n == 0 then [] else Ramp(n - 1)
  }

  /** `n` copies of one command. */
  function Repeat(c: Commands.Command, n: nat): (r: seq<Commands.Command>)
    ensures |r| == n && forall i :: 0 <= i < n ==> r[i] == c
  {
    seq(n, _ => c)
  }

  lemma RepeatOneMore(c: Commands.Command, n: nat)
    ensures Repeat(c, n) + [c] == Repeat(c, n + 1)
  {
  }

  // ---------------------------------------------------------------------
  // query_command

  /** The first attempt in `k..m-1` that does not return an invalid reply
      (it raised, or its reply is valid); `m` if every one of them does. */
  function FirstStop(outs: seq<Outcome>, k: nat, m: nat): (i: nat)
    requires k <= m
    ensures k <= i <= m
    ensures forall j :: k <= j < i ==> Rejected(At(outs, j))
    ensures i < m ==> !Rejected(At(outs, i))
    decreases m - k
  {
    if k == m then m
    else if !Rejected(At(outs, k)) then k
    else FirstStop(outs, k + 1, m)
  }

  /** The result of a retry loop, how many attempts it made, and the
      sleeps it took. */
  datatype Tries<T> = Tries(result: Result<T, Failure>, count: nat, slept: seq<nat>)

  /** `query_command(connection, cmd, maxAttempts)` against the script
      `outs`: the loop stops at the first valid reply; a query that raises
      sets the `exception` flag, which is never cleared, so the loop then
      runs out its attempts; when no attempt was valid it raises
      `ValueError`. */
  function QueryTrace(outs: seq<Outcome>, cmd: Commands.Command, maxAttempts: int): (t: Tries<Reply>)
    ensures t.count <= if maxAttempts < 0 then 0 else maxAttempts
    ensures t.slept == Backoff(t.count)
    ensures t.result.Ok? ==>
      t.count >= 1 && Accepted(At(outs, t.count - 1)) && t.result.value == At(outs, t.count - 1).reply
      && forall j :: 0 <= j < t.count - 1 ==> Rejected(At(outs, j))
    ensures t.result.Err? ==>
      t.result.error == NoValidResponse(cmd, maxAttempts) && t.count == (if maxAttempts < 0 then 0 else maxAttempts)
  {
    var m := if maxAttempts < 0 then 0 else maxAttempts;
    var i := FirstStop(outs, 0, m);
    if i < m && Accepted(At(outs, i)) then Tries(Ok(At(outs, i).reply), i + 1, Ramp(i))
    else Tries(Err(NoValidResponse(cmd, maxAttempts)), m, Backoff(m))
  }

  /** The call succeeds exactly when some attempt within the budget returns
      a valid reply and every attempt before it returned an invalid one. */
  lemma QueryOkIff(outs: seq<Outcome>, cmd: Commands.Command, maxAttempts: int)
    ensures QueryTrace(outs, cmd, maxAttempts).result.Ok? <==>
      exists k :: 0 <= k < maxAttempts && Accepted(At(outs, k))
        && forall j :: 0 <= j < k ==> Rejected(At(outs, j))
  {
    var t := QueryTrace(outs, cmd, maxAttempts);
    if !t.result.Ok? {
      var m := if maxAttempts < 0 then 0 else maxAttempts;
      var i := FirstStop(outs, 0, m);
      forall k | 0 <= k < maxAttempts && Accepted(At(outs, k))
        ensures exists j :: 0 <= j < k && !Rejected(At(outs, j))
      {
        assert i < k;
      }
    }
  }

  /** Success at attempt k (counting from 0) makes k+1 queries, all of the
      same command, and sleeps 1..k seconds. */
  lemma QuerySucceedsAt(outs: seq<Outcome>, cmd: Commands.Command, maxAttempts: int, k: nat)
    requires k < maxAttempts
    requires forall j :: 0 <= j < k ==> Rejected(At(outs, j))
    requires Accepted(At(outs, k))
    ensures QueryTrace(outs, cmd, maxAttempts) == Tries(Ok(At(outs, k).reply), k + 1, Ramp(k))
  {
    var i := FirstStop(outs, 0, maxAttempts);
    assert i == k;
  }

  /** The exception flag is sticky: once an attempt raises, the call ends in
      `ValueError` after exactly `maxAttempts` queries, even when a later
      query would have returned a valid reply. */
  lemma StickyException(outs: seq<Outcome>, cmd: Commands.Command, maxAttempts: int, k: nat)
    requires k < maxAttempts
    requires forall j :: 0 <= j < k ==> Rejected(At(outs, j))
    requires At(outs, k) == Raises
    ensures QueryTrace(outs, cmd, maxAttempts) ==
      Tries(Err(NoValidResponse(cmd, maxAttempts)), maxAttempts, Ramp(maxAttempts - 1))
  {
    var i := FirstStop(outs, 0, maxAttempts);
    assert i == k;
  }

  /** When every attempt returns an invalid reply the call makes exactly
      `maxAttempts` queries, sleeps 1..maxAttempts-1 seconds and raises. */
  lemma QueryExhausted(outs: seq<Outcome>, cmd: Commands.Command, maxAttempts: int)
    requires forall j :: 0 <= j < maxAttempts ==> Rejected(At(outs, j))
    ensures QueryTrace(outs, cmd, maxAttempts) ==
      Tries(Err(NoValidResponse(cmd, maxAttempts)), if maxAttempts < 0 then 0 else maxAttempts,
            if maxAttempts <= 0 then [] else Ramp(maxAttempts - 1))
  {
    if maxAttempts > 0 {
      var i := FirstStop(outs, 0, maxAttempts);
      assert !(i < maxAttempts);
    }
  }

  // ---------------------------------------------------------------------
  // obd_connect

  /** The first connection in `k..m-1` whose status is `CAR_CONNECTED`;
      `m` if there is none. */
  function FirstConnected(sts: seq<Status>, k: nat, m: nat): (i: nat)
    requires k <= m
    ensures k <= i <= m
    ensures forall j :: k <= j < i ==> StatusAt(sts, j) != CarConnected
    ensures i < m ==> StatusAt(sts, i) == CarConnected
    decreases m - k
  {
    if k == m then m
    else if StatusAt(sts, k) == CarConnected then k
    else FirstConnected(sts, k + 1, m)
  }

  /** `obd_connect(..., max_attempts=maxAttempts)` against the script `sts`:
      it opens connections until one reports `CAR_CONNECTED` or the budget
      is spent, and raises `OBDIIConnectionError` with the last status
      otherwise; with no attempt at all it fails on `None.status()`. */
  function ConnectTrace(sts: seq<Status>, maxAttempts: int): (t: Tries<Status>)
    ensures t.count <= if maxAttempts < 0 then 0 else maxAttempts
    ensures t.slept == Backoff(t.count)
    ensures t.result.Ok? <==> t.count >= 1 && StatusAt(sts, t.count - 1) == CarConnected
    ensures t.result.Ok? ==> t.result.value == CarConnected
    ensures forall j :: 0 <= j < t.count - 1 ==> StatusAt(sts, j) != CarConnected
    ensures t.result.Err? ==> t.count == (if maxAttempts < 0 then 0 else maxAttempts)
    ensures t.result.Err? ==>
      t.result.error == if t.count == 0 then NoConnection else ConnectionError(StatusAt(sts, t.count - 1))
  {
    var m := if maxAttempts < 0 then 0 else maxAttempts;
    var i := FirstConnected(sts, 0, m);
    if i < m then Tries(Ok(CarConnected), i + 1, Ramp(i))
    else if m == 0 then Tries(Err(NoConnection), 0, [])
    else Tries(Err(ConnectionError(StatusAt(sts, m - 1))), m, Ramp(m - 1))
  }

  /** `obd_connect` succeeds exactly when one of the first `maxAttempts`
      connections reports `CAR_CONNECTED`, and then it stops at the first. */
  lemma ConnectOkIff(sts: seq<Status>, maxAttempts: int)
    ensures ConnectTrace(sts, maxAttempts).result.Ok? <==>
      exists k :: 0 <= k < maxAttempts && StatusAt(sts, k) == CarConnected
  {
    var m := if maxAttempts < 0 then 0 else maxAttempts;
    var i := FirstConnected(sts, 0, m);
    if i < m {
      assert StatusAt(sts, i) == CarConnected;
    }
  }

  // ---------------------------------------------------------------------
  // One signal: the generic wrapper

  /** The result of a wrapper, every command it sent in order, and the
      sleeps it took. */
  datatype Run<T> = Run(result: Result<T, Failure>, issued: seq<Commands.Command>, slept: seq<nat>)

  /** The two addressing queries every wrapper starts with, against the
      script `outs`: set the CAN header to the pair's request, then, if that
      succeeded, the receive filter to its reply (default 3 attempts each). */
  function AddressTrace(outs: seq<Outcome>, p: Commands.EcuPair): (t: Run<()>)
  {
    var h := QueryTrace(outs, Commands.HeaderCommand(p), 3);
    if h.result.Err? then Run(Err(h.result.error), Repeat(Commands.HeaderCommand(p), h.count), h.slept)
    else
      var r := QueryTrace(Drop(outs, h.count), Commands.ReceiveCommand(p), 3);
      Run(if r.result.Ok? then Ok(()) else Err(r.result.error),
          Repeat(Commands.HeaderCommand(p), h.count) + Repeat(Commands.ReceiveCommand(p), r.count), h.slept + r.slept)
  }

  /** The data step of a wrapper, `query_command(connection,
      ext_commands[key], 3).value`, against the script `outs`: the lookup
      raises `KeyError` before any query when the key is absent. */
  function DataTrace(outs: seq<Outcome>, key: string): (t: Run<Value>)
  {
    match Commands.Lookup(key)
    case None => Run(Err(MissingKey(key)), [], [])
    case Some(c) =>
      var d := QueryTrace(outs, c, 3);
      Run(if d.result.Ok? then Ok(d.result.value.value) else Err(d.result.error),
          Repeat(c, d.count), d.slept)
  }

  /** A `query_*` wrapper for the pair `p` and the data key `key` against
      the script `outs`: the addressing queries, then, if they succeeded,
      the data step. */
  function SignalTrace(outs: seq<Outcome>, p: Commands.EcuPair, key: string): (t: Run<Value>)
  {
    var at := AddressTrace(outs, p);
    if at.result.Err? then Run(Err(at.result.error), at.issued, at.slept)
    else
      var dt := DataTrace(Drop(outs, |at.issued|), key);
      Run(dt.result, at.issued + dt.issued, at.slept + dt.slept)
  }

  /** The addressing step sends 1..3 header commands, then, only if the
      header query succeeded, up to 3 receive commands. */
  lemma AddressSequencing(outs: seq<Outcome>, p: Commands.EcuPair) returns (a: nat, b: nat)
    ensures var at := AddressTrace(outs, p);
      1 <= a <= 3 && b <= 3
      && a == QueryTrace(outs, Commands.HeaderCommand(p), 3).count
      && at.issued == Repeat(Commands.HeaderCommand(p), a) + Repeat(Commands.ReceiveCommand(p), b)
      && (b > 0 ==> QueryTrace(outs, Commands.HeaderCommand(p), 3).result.Ok?)
      && (at.result.Ok? ==> b > 0 && QueryTrace(Drop(outs, a), Commands.ReceiveCommand(p), 3).result.Ok?)
  {
    var h := QueryTrace(outs, Commands.HeaderCommand(p), 3);
    a, b := h.count, 0;
    if h.result.Ok? {
      b := QueryTrace(Drop(outs, h.count), Commands.ReceiveCommand(p), 3).count;
    }
  }

  /** The data step sends up to 3 copies of the registry entry for `key`,
      or nothing when the key is missing; a returned value is presentable. */
  lemma DataSequencing(outs: seq<Outcome>, key: string) returns (c: nat)
    ensures var dt := DataTrace(outs, key);
      c <= 3
      && dt.issued == (if Commands.Lookup(key).Some? then Repeat(Commands.Lookup(key).value, c) else [])
      && (c > 0 ==> Commands.Lookup(key).Some?)
      && (dt.result.Ok? ==> c > 0 && Presentable(dt.result.value))
  {
    c := 0;
    match Commands.Lookup(key)
    case None =>
    case Some(cmd) =>
      c := QueryTrace(outs, cmd, 3).count;
  }

  /** The commands a wrapper sends come in three runs: 1..3 header
      commands, then up to 3 receive commands, then up to 3 data commands.
      The receive command is sent only after the header query succeeded, and
      the data command only after both addressing queries succeeded and the
      data key was found; a returned value is always presentable. */
  lemma SignalSequencing(outs: seq<Outcome>, p: Commands.EcuPair, key: string)
    returns (a: nat, b: nat, c: nat)
    ensures var t := SignalTrace(outs, p, key);
      1 <= a <= 3 && b <= 3 && c <= 3
      && t.issued == Repeat(Commands.HeaderCommand(p), a) + Repeat(Commands.ReceiveCommand(p), b)
                     + (if Commands.Lookup(key).Some? then Repeat(Commands.Lookup(key).value, c) else [])
      && (b > 0 ==> QueryTrace(outs, Commands.HeaderCommand(p), 3).result.Ok?)
      && (c > 0 ==> b > 0)
      && (c > 0 ==> (Commands.Lookup(key).Some?
                     && QueryTrace(Drop(outs, a), Commands.ReceiveCommand(p), 3).result.Ok?))
      && (t.result.Ok? ==> c > 0 && Presentable(t.result.value))
  {
    a, b := AddressSequencing(outs, p);
    c := 0;
    var at := AddressTrace(outs, p);
    if at.result.Ok? {
      c := DataSequencing(Drop(outs, |at.issued|), key);
    }
  }

  /** A wrapper fails only with the `ValueError` of `query_command` or with
      the `KeyError` of its own data key, and only when that key is absent;
      a value it returns is presentable. */
  lemma SignalFailures(outs: seq<Outcome>, p: Commands.EcuPair, key: string)
    ensures var t := SignalTrace(outs, p, key);
      (t.result.Err? ==> t.result.error.NoValidResponse?
                         || (t.result.error == MissingKey(key) && Commands.Lookup(key).None?))
      && (t.result.Ok? ==> Commands.Lookup(key).Some? && Presentable(t.result.value))
  {
    var at := AddressTrace(outs, p);
    if at.result.Ok? {
      var c := DataSequencing(Drop(outs, |at.issued|), key);
    }
  }

  /** When the adapter answers the first three queries validly, a wrapper
      sends header, receive and data command once each, never sleeps, and
      returns the third reply's value; with an absent data key it sends the
      two addressing commands and raises `KeyError`. */
  lemma SignalAnswered(outs: seq<Outcome>, p: Commands.EcuPair, key: string)
    requires Accepted(At(outs, 0)) && Accepted(At(outs, 1)) && Accepted(At(outs, 2))
    ensures var t := SignalTrace(outs, p, key);
      var addressing := [Commands.HeaderCommand(p), Commands.ReceiveCommand(p)];
      t.slept == []
      && (Commands.Lookup(key).None? ==> t.result == Err(MissingKey(key)) && t.issued == addressing)
      && (Commands.Lookup(key).Some? ==>
            t.result == Ok(At(outs, 2).reply.value) && t.issued == addressing + [Commands.Lookup(key).value])
  {
    QuerySucceedsAt(outs, Commands.HeaderCommand(p), 3, 0);
    AtDrop(outs, 1, 0);
    QuerySucceedsAt(Drop(outs, 1), Commands.ReceiveCommand(p), 3, 0);
    assert AddressTrace(outs, p).issued == [Commands.HeaderCommand(p), Commands.ReceiveCommand(p)];
    DropDrop(outs, 1, 1);
    AtDrop(outs, 2, 0);
    match Commands.Lookup(key)
    case None =>
    case Some(c) =>
      QuerySucceedsAt(Drop(outs, 2), c, 3, 0);
  }

  /** When the data key is absent from the registry the wrapper raises:
      `KeyError` exactly when both addressing queries succeeded, and the
      `ValueError` of the failed addressing query otherwise; no data command
      is ever sent. */
  lemma SignalMissingKey(outs: seq<Outcome>, p: Commands.EcuPair, key: string)
    requires Commands.Lookup(key) == None
    ensures var t := SignalTrace(outs, p, key);
      t.result.Err? && (t.result.error.MissingKey? || t.result.error.NoValidResponse?)
      && (t.result.error.MissingKey? <==>
            var h := QueryTrace(outs, Commands.HeaderCommand(p), 3);
            h.result.Ok? && QueryTrace(Drop(outs, h.count), Commands.ReceiveCommand(p), 3).result.Ok?)
      && forall j :: 0 <= j < |t.issued| ==> t.issued[j] in {Commands.HeaderCommand(p), Commands.ReceiveCommand(p)}
  {
  }

  // ---------------------------------------------------------------------
  // The stub and the imperative code

  /** The scripted stand-in for the ELM327 adapter behind python-OBD, with
      a record of the host's sleeps. */
  class Adapter {
    /** Outcomes of the coming `connection.query` calls. */
    var outcomes: seq<Outcome>
    /** Statuses of the coming `obd.OBD(...)` connections. */
    var statuses: seq<Status>
    /** Every command sent, in order. */
    ghost var issued: seq<Commands.Command>
    /** Every `time.sleep` argument, in order. */
    ghost var slept: seq<nat>
    /** How many connections were opened. */
    ghost var connections: nat

    constructor (outcomes: seq<Outcome>, statuses: seq<Status>)
      ensures this.outcomes == outcomes && this.statuses == statuses
      ensures issued == [] && slept == [] && connections == 0
    {
      this.outcomes := outcomes;
      this.statuses := statuses;
      issued := [];
      slept := [];
      connections := 0;
    }

    /** `connection.query(cmd, force=True)`: answers from the script. */
    method Query(cmd: Commands.Command) returns (o: Outcome)
      modifies this
      ensures o == At(old(outcomes), 0) && outcomes == Drop(old(outcomes), 1)
      ensures issued == old(issued) + [cmd]
      ensures statuses == old(statuses) && slept == old(slept) && connections == old(connections)
    {
      o := At(outcomes, 0);
      outcomes := Drop(outcomes, 1);
      issued := issued + [cmd];
    }

    /** `obd.OBD(...)` followed by `status()`: opens a connection and
        reports its status from the script. */
    method Open() returns (s: Status)
      modifies this
      ensures s == StatusAt(old(statuses), 0) && statuses == Drop(old(statuses), 1)
      ensures connections == old(connections) + 1
      ensures outcomes == old(outcomes) && issued == old(issued) && slept == old(slept)
    {
      s := StatusAt(statuses, 0);
      statuses := Drop(statuses, 1);
      connections := connections + 1;
    }

    /** `time.sleep(seconds)`. */
    method Sleep(seconds: nat)
      modifies this
      ensures slept == old(slept) + [seconds]
      ensures outcomes == old(outcomes) && statuses == old(statuses)
      ensures issued == old(issued) && connections == old(connections)
    {
      slept := slept + [seconds];
    }
  }

  /** One pass of the retry loop of `query_command`: count the attempt,
      query, note an exception or keep the reply, judge it, and sleep
      `count` seconds when it was invalid and attempts remain. */
  method Attempt(a: Adapter, cmd: Commands.Command, maxAttempts: int, count: nat, exception: bool, response: Reply)
    returns (count': nat, exception': bool, response': Reply, valid: bool)
    modifies a
    ensures var o := At(old(a.outcomes), 0);
      count' == count + 1 && exception' == (exception || o == Raises)
      && response' == (if o.Raises? then response else o.reply)
    ensures valid == (Usable(response') && !exception')
    ensures a.outcomes == Drop(old(a.outcomes), 1) && a.issued == old(a.issued) + [cmd]
    ensures a.slept == old(a.slept) + (if !valid && count' < maxAttempts then [count'] else [])
    ensures a.statuses == old(a.statuses) && a.connections == old(a.connections)
  {
    count', exception', response' := count + 1, exception, response;
    var o := a.Query(cmd);
    if o.Raises? {
      exception' := true;
    } else {
      response' := o.reply;
    }
    valid := Usable(response') && !exception';
    if !valid && count' < maxAttempts {
      a.Sleep(count');
    }
  }

  /** `query_command(connection, command, max_attempts)`. */
  method QueryCommand(a: Adapter, cmd: Commands.Command, maxAttempts: int) returns (r: Result<Reply, Failure>)
    modifies a
    ensures var t := QueryTrace(old(a.outcomes), cmd, maxAttempts);
      r == t.result && a.outcomes == Drop(old(a.outcomes), t.count)
      && a.issued == old(a.issued) + Repeat(cmd, t.count) && a.slept == old(a.slept) + t.slept
    ensures a.statuses == old(a.statuses) && a.connections == old(a.connections)
  {
    ghost var outs := a.outcomes;
    ghost var m: nat := if maxAttempts < 0 then 0 else maxAttempts;
    ghost var i := FirstStop(outs, 0, m);
    var commandCount := 0;
    var cmdResponse := NoReply;
    var exception := false;
    var validResponse := false;
    while !validResponse && commandCount < maxAttempts
      invariant 0 <= commandCount <= m
      invariant a.outcomes == Drop(outs, commandCount)
      invariant a.issued == old(a.issued) + Repeat(cmd, commandCount)
      invariant a.slept == old(a.slept) +
        (if validResponse || commandCount == m then Backoff(commandCount) else Ramp(commandCount))
      invariant a.statuses == old(a.statuses) && a.connections == old(a.connections)
      invariant exception <==> commandCount > i && At(outs, i) == Raises
      invariant validResponse <==> commandCount > i && Accepted(At(outs, i))
      invariant validResponse ==> commandCount == i + 1 && cmdResponse == At(outs, i).reply
    {
      AtDrop(outs, commandCount, 0);
      RepeatOneMore(cmd, commandCount);
      Assoc(old(a.issued), Repeat(cmd, commandCount), [cmd]);
      Assoc(old(a.slept), Ramp(commandCount), [commandCount + 1]);
      commandCount, exception, cmdResponse, validResponse :=
        Attempt(a, cmd, maxAttempts, commandCount, exception, cmdResponse);
    }
    if !validResponse {
      r := Err(NoValidResponse(cmd, maxAttempts));
    } else {
      r := Ok(cmdResponse);
    }
  }

  /** `obd_connect(portstr, baudrate, fast, timeout, max_attempts)`; the
      connection itself is the adapter, so success returns its status. */
  method ObdConnect(a: Adapter, maxAttempts: int) returns (r: Result<Status, Failure>)
    modifies a
    ensures var t := ConnectTrace(old(a.statuses), maxAttempts);
      r == t.result && a.statuses == Drop(old(a.statuses), t.count)
      && a.connections == old(a.connections) + t.count && a.slept == old(a.slept) + t.slept
    ensures a.outcomes == old(a.outcomes) && a.issued == old(a.issued)
  {
    ghost var sts := a.statuses;
    ghost var m: nat := if maxAttempts < 0 then 0 else maxAttempts;
    ghost var i := FirstConnected(sts, 0, m);
    var connectionCount := 0;
    var connection: Option<Status> := None;
    while (connection.None? || connection.value != CarConnected) && connectionCount < maxAttempts
      invariant 0 <= connectionCount <= m
      invariant connectionCount <= i + 1
      invariant connection.None? <==> connectionCount == 0
      invariant connection.Some? ==> connection.value == StatusAt(sts, connectionCount - 1)
      invariant a.statuses == Drop(sts, connectionCount)
      invariant a.connections == old(a.connections) + connectionCount
      invariant a.slept == old(a.slept) +
        (if connectionCount == m || (connection.Some? && connection.value == CarConnected)
         then Backoff(connectionCount) else Ramp(connectionCount))
      invariant a.outcomes == old(a.outcomes) && a.issued == old(a.issued)
    {
      connectionCount := connectionCount + 1;
      var s := a.Open();
      Assoc(old(a.slept), Ramp(connectionCount - 1), [connectionCount]);
      connection := Some(s);
      if s != CarConnected && connectionCount < maxAttempts {
        a.Sleep(connectionCount);
      }
    }
    if connection.None? {
      r := Err(NoConnection);
    } else if connection.value != CarConnected {
      r := Err(ConnectionError(connection.value));
    } else {
      r := Ok(connection.value);
    }
  }

  /** The header and receive-address queries of a wrapper. */
  method SetAddressing(a: Adapter, p: Commands.EcuPair) returns (r: Result<(), Failure>)
    modifies a
    ensures var t := AddressTrace(old(a.outcomes), p);
      r == t.result && a.outcomes == Drop(old(a.outcomes), |t.issued|)
      && a.issued == old(a.issued) + t.issued && a.slept == old(a.slept) + t.slept
    ensures a.statuses == old(a.statuses) && a.connections == old(a.connections)
  {
    ghost var outs, log, naps := a.outcomes, a.issued, a.slept;
    var h := QueryCommand(a, Commands.HeaderCommand(p), 3);
    if h.Err? {
      return Err(h.error);
    }
    ghost var ht := QueryTrace(outs, Commands.HeaderCommand(p), 3);
    var rc := QueryCommand(a, Commands.ReceiveCommand(p), 3);
    ghost var rt := QueryTrace(Drop(outs, ht.count), Commands.ReceiveCommand(p), 3);
    DropDrop(outs, ht.count, rt.count);
    Assoc(log, Repeat(Commands.HeaderCommand(p), ht.count), Repeat(Commands.ReceiveCommand(p), rt.count));
    Assoc(naps, ht.slept, rt.slept);
    if rc.Err? {
      return Err(rc.error);
    }
    r := Ok(());
  }

  /** The data step of a wrapper. */
  method QueryData(a: Adapter, key: string) returns (r: Result<Value, Failure>)
    modifies a
    ensures var t := DataTrace(old(a.outcomes), key);
      r == t.result && a.outcomes == Drop(old(a.outcomes), |t.issued|)
      && a.issued == old(a.issued) + t.issued && a.slept == old(a.slept) + t.slept
    ensures a.statuses == old(a.statuses) && a.connections == old(a.connections)
  {
    var entry := Commands.Lookup(key);
    if entry.None? {
      return Err(MissingKey(key));
    }
    var d := QueryCommand(a, entry.value, 3);
    if d.Err? {
      return Err(d.error);
    }
    r := Ok(d.value.value);
  }

  /** The generic `query_*` wrapper for the pair `p` and data key `key`. */
  method QuerySignal(a: Adapter, p: Commands.EcuPair, key: string) returns (r: Result<Value, Failure>)
    modifies a
    ensures var t := SignalTrace(old(a.outcomes), p, key);
      r == t.result && a.outcomes == Drop(old(a.outcomes), |t.issued|)
      && a.issued == old(a.issued) + t.issued && a.slept == old(a.slept) + t.slept
    ensures a.statuses == old(a.statuses) && a.connections == old(a.connections)
  {
    ghost var outs, log, naps := a.outcomes, a.issued, a.slept;
    ghost var at := AddressTrace(outs, p);
    var addressed := SetAddressing(a, p);
    if addressed.Err? {
      assert SignalTrace(outs, p, key) == Run(Err(at.result.error), at.issued, at.slept);
      return Err(addressed.error);
    }
    ghost var dt := DataTrace(Drop(outs, |at.issued|), key);
    assert SignalTrace(outs, p, key) == Run(dt.result, at.issued + dt.issued, at.slept + dt.slept);
    r := QueryData(a, key);
    DropDrop(outs, |at.issued|, |dt.issued|);
    Assoc(log, at.issued, dt.issued);
    Assoc(naps, at.slept, dt.slept);
  }
}
