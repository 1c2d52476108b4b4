/** The polling cycle of `main`: connect, run every `query_*` wrapper in
    order, collect the values that came back into the state dictionary, and
    publish that dictionary as one message. */
module Poll {
  import opened Wrappers
  import Commands
  import Query
  import Dict

  /** One `bolt_state[name] = query_name(connection)` block: the state key,
      the ECU pair the wrapper addresses, and its data key in the registry. */
  datatype Signal = Signal(name: string, pair: Commands.EcuPair, key: string)

  /** A cell number written with two digits, as in `bat_cell_volt_07`. */
  function TwoDigits(n: nat): string
    requires n < 100
  {
    [Commands.HexDigit(n / 10), Commands.HexDigit(n % 10)]
  }

  /** The wrapper for cell `n`, on the pair 7E7/7EF. */
  function CellSignal(n: nat): Signal
    requires n < 100
  {
    Signal("bat_cell_volt_" + TwoDigits(n), Commands.Pair7E7, "BAT_CELL_VOLT_" + TwoDigits(n))
  }

  /** The wrappers for cells 1..n, in order. */
  function CellSignals(n: nat): (r: seq<Signal>)
    requires n < 100
    ensures |r| == n
  {
    if n == 0 then [] else CellSignals(n - 1) + [CellSignal(n)]
  }

  /** The first three blocks of `main`. */
  const CapAhRaw2018 := Signal("bat_pack_cap_ah_raw_2018", Commands.Pair7E4, "BAT_PACK_CAP_AH_RAW_2018")
  const CapAhRaw2019 := Signal("bat_pack_cap_ah_raw_2019", Commands.Pair7E4, "BAT_PACK_CAP_AH_RAW_2019")
  const CapKwhEst2018 := Signal("bat_pack_cap_kwh_est_2018", Commands.Pair7E4, "BAT_PACK_CAP_KWH_EST_2018")

  /** The capacity blocks: raw and estimated, 2017-2018 and 2019+ packs. */
  const CapacitySignals: seq<Signal> :=
    [
      CapAhRaw2018,
      CapAhRaw2019,
      CapKwhEst2018,
      Signal("bat_pack_cap_kwh_est_2019", Commands.Pair7E4, "BAT_PACK_CAP_KWH_EST_2019")
    ]

  /** The state-of-charge blocks, the pack current and the charge count. */
  const ChargeSignals: seq<Signal> :=
    [
      Signal("bat_pack_soc_disp", Commands.Pair7E4, "BAT_PACK_SOC_DISP"),
      Signal("bat_pack_soc_raw_hd", Commands.Pair7E4, "BAT_PACK_SOC_RAW_HD"),
      Signal("bat_pack_soc_raw_ld", Commands.Pair7E0, "BAT_PACK_SOC_RAW_LD"),
      Signal("bat_pack_soc_raw_ld2", Commands.Pair7E1, "BAT_PACK_SOC_RAW_LD2"),
      Signal("bat_pack_soc_raw_ld3", Commands.Pair7E4, "BAT_PACK_SOC_RAW_LD3"),
      Signal("bat_pack_soc_var", Commands.Pair7E4, "BAT_PACK_SOC_VAR"),
      Signal("bat_pack_current_hd", Commands.Pair7E7, "BAT_PACK_CURRENT_HD"),
      Signal("bat_pack_num_charges", Commands.Pair7E4, "BAT_PACK_NUM_CHARGES")
    ]

  /** The six battery-module temperatures, then their maximum, minimum and
      average. */
  const ModuleTempSignals: seq<Signal> :=
    [
      Signal("bat_mod_temp_1", Commands.Pair7E7, "BAT_MOD_TEMP_1"),
      Signal("bat_mod_temp_2", Commands.Pair7E7, "BAT_MOD_TEMP_2"),
      Signal("bat_mod_temp_3", Commands.Pair7E7, "BAT_MOD_TEMP_3"),
      Signal("bat_mod_temp_4", Commands.Pair7E7, "BAT_MOD_TEMP_4"),
      Signal("bat_mod_temp_5", Commands.Pair7E7, "BAT_MOD_TEMP_5"),
      Signal("bat_mod_temp_6", Commands.Pair7E7, "BAT_MOD_TEMP_6"),
      Signal("bat_mod_temp_max", Commands.Pair7E4, "BAT_MOD_TEMP_MAX"),
      Signal("bat_mod_temp_min", Commands.Pair7E4, "BAT_MOD_TEMP_MIN"),
      Signal("bat_mod_temp_avg", Commands.Pair7E4, "BAT_MOD_TEMP_AVG")
    ]

  /** The lowest and highest cell voltage with their cell numbers, and the
      average. */
  const CellSummarySignals: seq<Signal> :=
    [
      Signal("bat_cell_volt_min", Commands.Pair7E4, "BAT_CELL_VOLT_MIN"),
      Signal("bat_cell_volt_min_num", Commands.Pair7E4, "BAT_CELL_VOLT_MIN_NUM"),
      Signal("bat_cell_volt_max", Commands.Pair7E4, "BAT_CELL_VOLT_MAX"),
      Signal("bat_cell_volt_max_num", Commands.Pair7E4, "BAT_CELL_VOLT_MAX_NUM"),
      Signal("bat_cell_volt_avg", Commands.Pair7E7, "BAT_CELL_VOLT_AVG")
    ]

  /** The pack resistance, the pack voltage range, the two high-voltage
      currents and the ambient temperature. */
  const PackElectricalSignals: seq<Signal> :=
    [
      Signal("bat_pack_resistance", Commands.Pair7E4, "BAT_PACK_RESISTANCE"),
      Signal("bat_pack_volt_min", Commands.Pair7E4, "BAT_PACK_VOLT_MIN"),
      Signal("bat_pack_volt_max", Commands.Pair7E4, "BAT_PACK_VOLT_MAX"),
      Signal("hv_current_hd", Commands.Pair7E4, "HV_CURRENT_HD"),
      Signal("hv_current", Commands.Pair7E4, "HV_CURRENT"),
      Signal("ambient_air_temp", Commands.Pair7E4, "AMBIENT_AIR_TEMP")
    ]

  /** The first 32 blocks of `main`: pack, module and summary signals. */
  const PackSignals: seq<Signal> :=
    CapacitySignals + ChargeSignals + ModuleTempSignals + CellSummarySignals + PackElectricalSignals

  /** The 128 blocks of `main`, in the order they run: the pack signals,
      then cells 01..96. */
  const Signals: seq<Signal> := PackSignals + CellSignals(96)

  /** `except (ValueError, CanError)`: the failures a block swallows. Only
      `query_command` raises `ValueError` here, and nothing raises
      `CanError`; any other exception leaves the blocks. */
  predicate Skipped(f: Query.Failure)
  {
    f.NoValidResponse?
  }

  /** A wrapper as a block of `main` calls it: given the signal and the
      outcomes the adapter has not yet given, what the wrapper returns or
      raises, the commands it sends and the sleeps it takes. */
  type Wrapper = (seq<Query.Outcome>, Signal) -> Query.Run<Query.Value>

  /** The wrapper every block of `main` calls: the generic `query_*`
      wrapper for the signal's pair and data key. */
  function Block(outs: seq<Query.Outcome>, s: Signal): Query.Run<Query.Value>
  {
    Query.SignalTrace(outs, s.pair, s.key)
  }

  /** What the cycle relies on from one wrapper run for signal `s`: a value
      it returns is presentable, and it raises only `ValueError` or the
      `KeyError` of the signal's own data key, when that key is absent. */
  predicate RunBehaves(t: Query.Run<Query.Value>, s: Signal)
  {
    && (t.result.Ok? ==> Query.Presentable(t.result.value))
    && (t.result.Err? ==>
          t.result.error.NoValidResponse?
          || (t.result.error == Query.MissingKey(s.key) && Commands.Lookup(s.key).None?))
  }

  /** Every run of the wrapper `w` behaves. */
  ghost predicate Behaves(w: Wrapper)
  {
    forall outs, s :: RunBehaves(w(outs, s), s)
  }

  /** The wrapper of `main` behaves. */
  lemma BlockBehaves()
    ensures Behaves(Block)
  {
    forall outs, s ensures RunBehaves(Block(outs, s), s) {
      Query.SignalFailures(outs, s.pair, s.key);
    }
  }

  /** The blocks run so far: the state dictionary, each block's outcome,
      whether an exception left the blocks, and the commands and sleeps. */
  datatype Cycle = Cycle(state: Dict.Entries<Query.Value>, results: seq<Result<Query.Value, Query.Failure>>,
                         aborted: bool, issued: seq<Commands.Command>, slept: seq<nat>)

  /** One more block, for signal `s`, whose wrapper run was `t`: a returned
      value is stored under the signal's name, a `ValueError` is swallowed,
      and any other exception ends the run. */
  function Extend(prev: Cycle, s: Signal, t: Query.Run<Query.Value>): Cycle
  {
    Cycle(if t.result.Ok? then Dict.Put(prev.state, s.name, t.result.value) else prev.state,
          prev.results + [t.result],
          t.result.Err? && !Skipped(t.result.error),
          prev.issued + t.issued, prev.slept + t.slept)
  }

  /** The blocks for `sigs`, each calling the wrapper `w` on the outcomes
      the earlier blocks left unread, until one raises something other
      than `ValueError`: no later block runs. */
  function CycleTrace(w: Wrapper, outs: seq<Query.Outcome>, sigs: seq<Signal>): (c: Cycle)
    ensures |c.results| <= |sigs|
    ensures !c.aborted ==> |c.results| == |sigs|
    decreases |sigs|
  {
    if sigs == [] then Cycle([], [], false, [], [])
    else
      var prev := CycleTrace(w, outs, sigs[..|sigs| - 1]);
      if prev.aborted then prev
      else Extend(prev, sigs[|sigs| - 1], w(Query.Drop(outs, |prev.issued|), sigs[|sigs| - 1]))
  }

  /** One entry of `mqtt_msgs`; the payload is the dictionary that
      `json.dumps` serialises. */
  datatype Message = Message(topic: string, payload: Dict.Entries<Query.Value>, qos: nat, retain: bool)

  /** What `main` publishes when its blocks are `sigs` run by the wrapper
      `w` (they are `Signals` and `Block`), given the statuses of the
      connections it opens and the outcomes of the queries it sends. */
  function PollTrace(w: Wrapper, sts: seq<Query.Status>, outs: seq<Query.Outcome>, sigs: seq<Signal>,
                     topicPrefix: string): seq<Message>
  {
    if Query.ConnectTrace(sts, 3).result.Err? then []
    else
      var c := CycleTrace(w, outs, sigs);
      if c.aborted then [] else [Message(topicPrefix + "state", c.state, 0, true)]
  }

  // ---------------------------------------------------------------------
  // Properties of the cycle

  /** Running one more block extends the run by that block's wrapper, called
      on the outcomes the earlier blocks left unread. */
  lemma CycleStep(w: Wrapper, outs: seq<Query.Outcome>, sigs: seq<Signal>, i: nat)
    requires i < |sigs|
    ensures var prev := CycleTrace(w, outs, sigs[..i]);
      CycleTrace(w, outs, sigs[..i + 1]) ==
        if prev.aborted then prev else Extend(prev, sigs[i], w(Query.Drop(outs, |prev.issued|), sigs[i]))
  {
    assert sigs[..i + 1][..i] == sigs[..i];
  }

  /** Once an exception has left the blocks, running more of them changes
      nothing. */
  lemma {:induction false} AbortedStays(w: Wrapper, outs: seq<Query.Outcome>, sigs: seq<Signal>, n: nat)
    requires n <= |sigs|
    requires CycleTrace(w, outs, sigs[..n]).aborted
    ensures CycleTrace(w, outs, sigs) == CycleTrace(w, outs, sigs[..n])
    decreases |sigs| - n
  {
    if n < |sigs| {
      var init := sigs[..|sigs| - 1];
      assert init[..n] == sigs[..n];
      AbortedStays(w, outs, init, n);
    } else {
      assert sigs[..n] == sigs;
    }
  }

  /** Every block before the last one run either stored its value or
      swallowed a `ValueError`; the run ends early exactly when the last
      block raised something else, which can only be the `KeyError` of a
      data key absent from the registry. */
  lemma {:induction false} CycleShape(w: Wrapper, outs: seq<Query.Outcome>, sigs: seq<Signal>)
    requires Behaves(w)
    ensures var c := CycleTrace(w, outs, sigs);
      (forall j :: 0 <= j < |c.results| - 1 ==> c.results[j].Ok? || Skipped(c.results[j].error))
      && (c.aborted <==> |c.results| > 0 && c.results[|c.results| - 1].Err?
                         && !Skipped(c.results[|c.results| - 1].error))
      && (c.aborted ==> var j := |c.results| - 1;
            c.results[j] == Err(Query.MissingKey(sigs[j].key)) && Commands.Lookup(sigs[j].key).None?)
    decreases |sigs|
  {
    if sigs != [] {
      var init := sigs[..|sigs| - 1];
      CycleShape(w, outs, init);
      var prev := CycleTrace(w, outs, init);
      if !prev.aborted {
        var s := sigs[|sigs| - 1];
        assert RunBehaves(w(Query.Drop(outs, |prev.issued|), s), s);
      }
    }
  }

  /** The names of the signals among `sigs` whose block stored a value. */
  function StoredNames(sigs: seq<Signal>, results: seq<Result<Query.Value, Query.Failure>>): set<string>
    requires |results| <= |sigs|
  {
    set j | 0 <= j < |results| && results[j].Ok? :: sigs[j].name
  }

  /** Storing one more block's outcome adds its name exactly when it
      returned a value. */
  lemma StoredNamesStep(sigs: seq<Signal>, results: seq<Result<Query.Value, Query.Failure>>,
                        r: Result<Query.Value, Query.Failure>)
    requires |results| < |sigs|
    ensures StoredNames(sigs, results + [r]) ==
      StoredNames(sigs, results) + (if r.Ok? then {sigs[|results|].name} else {})
  {
    var rs := results + [r];
    forall x | x in StoredNames(sigs, rs)
      ensures x in StoredNames(sigs, results) + (if r.Ok? then {sigs[|results|].name} else {})
    {
      var j :| 0 <= j < |rs| && rs[j].Ok? && sigs[j].name == x;
      if j < |results| {
        assert rs[j] == results[j];
      }
    }
  }

  /** Blocks with the same signals and outcomes store the same names. */
  lemma StoredNamesPrefix(sigs: seq<Signal>, n: nat, results: seq<Result<Query.Value, Query.Failure>>)
    requires |results| <= n <= |sigs|
    ensures StoredNames(sigs[..n], results) == StoredNames(sigs, results)
  {
    assert forall j :: 0 <= j < |results| ==> sigs[..n][j] == sigs[j];
  }

  /** The state holds exactly the names of the signals whose wrapper
      returned. */
  lemma {:induction false} StateKeys(w: Wrapper, outs: seq<Query.Outcome>, sigs: seq<Signal>)
    ensures var c := CycleTrace(w, outs, sigs);
      Dict.Keys(c.state) == StoredNames(sigs, c.results)
    decreases |sigs|
  {
    if sigs != [] {
      var init := sigs[..|sigs| - 1];
      StateKeys(w, outs, init);
      var prev := CycleTrace(w, outs, init);
      StoredNamesPrefix(sigs, |sigs| - 1, prev.results);
      if !prev.aborted {
        var s := sigs[|sigs| - 1];
        var t := w(Query.Drop(outs, |prev.issued|), s);
        StoredNamesStep(sigs, prev.results, t.result);
      }
    }
  }

  /** Each name is stored once, and every stored value is presentable (not
      `None`, `"?"` or `""`). */
  lemma {:induction false} StateWellFormed(w: Wrapper, outs: seq<Query.Outcome>, sigs: seq<Signal>)
    requires Behaves(w)
    ensures var c := CycleTrace(w, outs, sigs);
      Dict.UniqueKeys(c.state) && forall j :: 0 <= j < |c.state| ==> Query.Presentable(c.state[j].1)
    decreases |sigs|
  {
    if sigs != [] {
      var init := sigs[..|sigs| - 1];
      StateWellFormed(w, outs, init);
      var prev := CycleTrace(w, outs, init);
      if !prev.aborted {
        var s := sigs[|sigs| - 1];
        var t := w(Query.Drop(outs, |prev.issued|), s);
        assert RunBehaves(t, s);
        if t.result.Ok? {
          Dict.PutKeepsKeysUnique(prev.state, s.name, t.result.value);
        }
      }
    }
  }

  /** No block after block `j` of `sigs` stored a value under the same name;
      blocks that store under one name overwrite each other. */
  predicate LastOfName(sigs: seq<Signal>, results: seq<Result<Query.Value, Query.Failure>>, j: nat)
    requires j < |results| <= |sigs|
  {
    forall i :: j < i < |results| && results[i].Ok? ==> sigs[i].name != sigs[j].name
  }

  /** Every value a wrapper returned is stored under its signal's name,
      unless a later block stored another value under that name. */
  lemma {:induction false} StateValues(w: Wrapper, outs: seq<Query.Outcome>, sigs: seq<Signal>)
    ensures var c := CycleTrace(w, outs, sigs);
      forall j :: 0 <= j < |c.results| && c.results[j].Ok? && LastOfName(sigs, c.results, j) ==>
        (sigs[j].name, c.results[j].value) in c.state
    decreases |sigs|
  {
    if sigs != [] {
      var init := sigs[..|sigs| - 1];
      StateValues(w, outs, init);
      var prev := CycleTrace(w, outs, init);
      var c := CycleTrace(w, outs, sigs);
      assert forall j :: 0 <= j < |init| ==> init[j] == sigs[j];
      if !prev.aborted {
        var s := sigs[|sigs| - 1];
        var t := w(Query.Drop(outs, |prev.issued|), s);
        assert c == Extend(prev, s, t);
        forall j | 0 <= j < |c.results| && c.results[j].Ok? && LastOfName(sigs, c.results, j)
          ensures (sigs[j].name, c.results[j].value) in c.state
        {
          if j < |prev.results| {
            assert c.results[j] == prev.results[j];
            assert LastOfName(init, prev.results, j) by {
              forall i | j < i < |prev.results| && prev.results[i].Ok?
                ensures init[i].name != init[j].name
              {
                assert c.results[i] == prev.results[i];
              }
            }
            if t.result.Ok? {
              assert c.results[|prev.results|] == t.result;
              Dict.PutKeepsOthers(prev.state, s.name, t.result.value, sigs[j].name, c.results[j].value);
            }
          }
        }
      }
    }
  }

  /** `main` publishes at most one message: the retained, QoS 0 `state`
      message under the topic prefix. It does so exactly when the connection
      reached `CAR_CONNECTED` and no block raised anything but `ValueError`;
      its payload then holds one presentable value for each signal whose
      wrapper returned, and nothing else, and that value is what the last
      block of that name returned. This holds for every wrapper that
      behaves, so for `Block` by `BlockBehaves`. */
  lemma Published(w: Wrapper, sts: seq<Query.Status>, outs: seq<Query.Outcome>, sigs: seq<Signal>, topicPrefix: string)
    requires Behaves(w)
    ensures var msgs := PollTrace(w, sts, outs, sigs, topicPrefix);
      var c := CycleTrace(w, outs, sigs);
      |msgs| <= 1
      && (|msgs| == 1 <==> Query.ConnectTrace(sts, 3).result.Ok? && !c.aborted)
      && (|msgs| == 1 ==>
            msgs[0].topic == topicPrefix + "state" && msgs[0].qos == 0 && msgs[0].retain
            && |c.results| == |sigs|
            && (forall j :: 0 <= j < |sigs| ==> c.results[j].Ok? || Skipped(c.results[j].error))
            && Dict.Keys(msgs[0].payload) == StoredNames(sigs, c.results)
            && Dict.UniqueKeys(msgs[0].payload)
            && (forall j :: 0 <= j < |msgs[0].payload| ==> Query.Presentable(msgs[0].payload[j].1))
            && forall j :: 0 <= j < |sigs| && c.results[j].Ok? && LastOfName(sigs, c.results, j) ==>
                 (sigs[j].name, c.results[j].value) in msgs[0].payload)
  {
    var c := CycleTrace(w, outs, sigs);
    CycleShape(w, outs, sigs);
    StateKeys(w, outs, sigs);
    StateWellFormed(w, outs, sigs);
    StateValues(w, outs, sigs);
    if Query.ConnectTrace(sts, 3).result.Ok? && !c.aborted {
      assert PollTrace(w, sts, outs, sigs, topicPrefix) == [Message(topicPrefix + "state", c.state, 0, true)];
    } else {
      assert PollTrace(w, sts, outs, sigs, topicPrefix) == [];
    }
  }

  /** A wrapper run for `s` on outcomes `o` whose first three replies are
      valid, with the data key registered: the third reply's value comes
      back after three commands and no sleep. */
  predicate StoresWhenAnswered(t: Query.Run<Query.Value>, o: seq<Query.Outcome>, s: Signal)
  {
    Query.Accepted(Query.At(o, 0)) && Query.Accepted(Query.At(o, 1)) && Query.Accepted(Query.At(o, 2))
    && Commands.Lookup(s.key).Some?
    ==> t.result == Ok(Query.At(o, 2).reply.value) && |t.issued| == 3
  }

  /** A wrapper run for `s` on outcomes `o` whose first two replies are
      valid, with the data key absent: `KeyError` after two commands. */
  predicate RaisesWhenAnswered(t: Query.Run<Query.Value>, o: seq<Query.Outcome>, s: Signal)
  {
    Query.Accepted(Query.At(o, 0)) && Query.Accepted(Query.At(o, 1)) && Commands.Lookup(s.key).None?
    ==> t.result == Err(Query.MissingKey(s.key)) && |t.issued| == 2
  }

  /** Every run of `w` against an adapter that answers behaves as above. */
  ghost predicate Answers(w: Wrapper)
  {
    forall o, s :: StoresWhenAnswered(w(o, s), o, s) && RaisesWhenAnswered(w(o, s), o, s)
  }

  /** The wrapper of `main` answers so. */
  lemma BlockAnswers()
    ensures Answers(Block)
  {
    forall o, s ensures StoresWhenAnswered(Block(o, s), o, s) && RaisesWhenAnswered(Block(o, s), o, s) {
      if Query.Accepted(Query.At(o, 0)) && Query.Accepted(Query.At(o, 1)) && Commands.Lookup(s.key).None? {
        Query.SignalMissingKey(o, s.pair, s.key);
        Query.QuerySucceedsAt(o, Commands.HeaderCommand(s.pair), 3, 0);
        Query.AtDrop(o, 1, 0);
        Query.QuerySucceedsAt(Query.Drop(o, 1), Commands.ReceiveCommand(s.pair), 3, 0);
      }
      if Query.Accepted(Query.At(o, 0)) && Query.Accepted(Query.At(o, 1)) && Query.Accepted(Query.At(o, 2)) {
        Query.SignalAnswered(o, s.pair, s.key);
      }
    }
  }

  /** A block whose data key is in the registry and whose three queries
      are answered validly stores the third reply's value under its name,
      after three commands. */
  lemma AnsweredBlockStores(w: Wrapper, outs: seq<Query.Outcome>, sigs: seq<Signal>, i: nat)
    requires Answers(w)
    requires i < |sigs| && Commands.Lookup(sigs[i].key).Some?
    requires !CycleTrace(w, outs, sigs[..i]).aborted
    requires var n := |CycleTrace(w, outs, sigs[..i]).issued|;
      Query.Accepted(Query.At(outs, n)) && Query.Accepted(Query.At(outs, n + 1))
      && Query.Accepted(Query.At(outs, n + 2))
    ensures var prev := CycleTrace(w, outs, sigs[..i]);
      var next := CycleTrace(w, outs, sigs[..i + 1]);
      var n := |prev.issued|;
      !next.aborted && |next.issued| == n + 3
      && next.results == prev.results + [Ok(Query.At(outs, n + 2).reply.value)]
      && next.state == Dict.Put(prev.state, sigs[i].name, Query.At(outs, n + 2).reply.value)
  {
    var n := |CycleTrace(w, outs, sigs[..i]).issued|;
    CycleStep(w, outs, sigs, i);
    Query.AtDrop(outs, n, 0);
    Query.AtDrop(outs, n, 1);
    Query.AtDrop(outs, n, 2);
    assert StoresWhenAnswered(w(Query.Drop(outs, n), sigs[i]), Query.Drop(outs, n), sigs[i]);
  }

  /** A block whose data key is absent from the registry and whose two
      addressing queries are answered validly raises `KeyError` and ends the
      run, after two commands. */
  lemma AnsweredBlockRaises(w: Wrapper, outs: seq<Query.Outcome>, sigs: seq<Signal>, i: nat)
    requires Answers(w)
    requires i < |sigs| && Commands.Lookup(sigs[i].key).None?
    requires !CycleTrace(w, outs, sigs[..i]).aborted
    requires var n := |CycleTrace(w, outs, sigs[..i]).issued|;
      Query.Accepted(Query.At(outs, n)) && Query.Accepted(Query.At(outs, n + 1))
    ensures var prev := CycleTrace(w, outs, sigs[..i]);
      var next := CycleTrace(w, outs, sigs[..i + 1]);
      next.aborted && |next.issued| == |prev.issued| + 2
      && next.results == prev.results + [Err(Query.MissingKey(sigs[i].key))]
      && next.state == prev.state
  {
    var n := |CycleTrace(w, outs, sigs[..i]).issued|;
    CycleStep(w, outs, sigs, i);
    Query.AtDrop(outs, n, 0);
    Query.AtDrop(outs, n, 1);
    assert RaisesWhenAnswered(w(Query.Drop(outs, n), sigs[i]), Query.Drop(outs, n), sigs[i]);
  }

  /** The data keys of the first two blocks are in the registry; that of
      the third is not. */
  lemma FirstKeys()
    ensures Commands.Lookup(CapAhRaw2018.key).Some? && Commands.Lookup(CapAhRaw2019.key).Some?
    ensures Commands.Lookup(CapKwhEst2018.key).None?
  {
    Commands.SomeCallerKeysMissing();
  }

  /** Blocks that start like `main`'s, against an adapter that answers the
      first six queries: the first two wrappers return their values. */
  lemma FirstTwoBlocks(w: Wrapper, outs: seq<Query.Outcome>, sigs: seq<Signal>)
    requires Answers(w)
    requires 2 <= |sigs| && sigs[0] == CapAhRaw2018 && sigs[1] == CapAhRaw2019
    requires forall k :: 0 <= k < 6 ==> Query.Accepted(Query.At(outs, k))
    ensures var c := CycleTrace(w, outs, sigs[..2]);
      !c.aborted && |c.issued| == 6 && |c.results| == 2 && c.results[0].Ok? && c.results[1].Ok?
      && Dict.Keys(c.state) == {"bat_pack_cap_ah_raw_2018", "bat_pack_cap_ah_raw_2019"}
  {
    FirstKeys();
    assert sigs[..0] == [];
    assert Query.Accepted(Query.At(outs, 0)) && Query.Accepted(Query.At(outs, 1)) && Query.Accepted(Query.At(outs, 2));
    AnsweredBlockStores(w, outs, sigs, 0);
    assert Query.Accepted(Query.At(outs, 3)) && Query.Accepted(Query.At(outs, 4)) && Query.Accepted(Query.At(outs, 5));
    AnsweredBlockStores(w, outs, sigs, 1);
  }

  /** Blocks that start like `main`'s, against an adapter that answers the
      first eight queries: the first two wrappers return, the third sends
      its two addressing commands and raises `KeyError`. */
  lemma FirstThreeBlocks(w: Wrapper, outs: seq<Query.Outcome>, sigs: seq<Signal>)
    requires Answers(w)
    requires 3 <= |sigs| && sigs[0] == CapAhRaw2018 && sigs[1] == CapAhRaw2019 && sigs[2] == CapKwhEst2018
    requires forall k :: 0 <= k < 8 ==> Query.Accepted(Query.At(outs, k))
    ensures var c := CycleTrace(w, outs, sigs[..3]);
      c.aborted && |c.results| == 3
      && c.results[0].Ok? && c.results[1].Ok?
      && c.results[2] == Err(Query.MissingKey("BAT_PACK_CAP_KWH_EST_2018"))
      && Dict.Keys(c.state) == {"bat_pack_cap_ah_raw_2018", "bat_pack_cap_ah_raw_2019"}
      && |c.issued| == 8
  {
    FirstTwoBlocks(w, outs, sigs);
    FirstKeys();
    assert Query.Accepted(Query.At(outs, 6)) && Query.Accepted(Query.At(outs, 7));
    AnsweredBlockRaises(w, outs, sigs, 2);
  }

  /** `main` runs 128 blocks; the first three are those above. */
  lemma SignalsStart()
    ensures |Signals| == 128
    ensures Signals[0] == CapAhRaw2018 && Signals[1] == CapAhRaw2019 && Signals[2] == CapKwhEst2018
  {
    assert |PackSignals| == 32;
    assert PackSignals[0] == CapAhRaw2018 && PackSignals[1] == CapAhRaw2019;
    assert PackSignals[2] == CapKwhEst2018;
  }

  /** When the adapter answers every query, the third block of `main` runs
      into the `KeyError` of `BAT_PACK_CAP_KWH_EST_2018`, which it does not
      catch: the run ends with two values stored and nothing is published. */
  lemma AnsweringAdapterPublishesNothing(sts: seq<Query.Status>, outs: seq<Query.Outcome>, topicPrefix: string)
    requires forall k :: 0 <= k < 8 ==> Query.Accepted(Query.At(outs, k))
    ensures var c := CycleTrace(Block, outs, Signals);
      c.aborted && |c.results| == 3
      && c.results[2] == Err(Query.MissingKey("BAT_PACK_CAP_KWH_EST_2018"))
      && Dict.Keys(c.state) == {"bat_pack_cap_ah_raw_2018", "bat_pack_cap_ah_raw_2019"}
    ensures PollTrace(Block, sts, outs, Signals, topicPrefix) == []
  {
    SignalsStart();
    BlockAnswers();
    FirstThreeBlocks(Block, outs, Signals);
    AbortedStays(Block, outs, Signals, 3);
  }

  // ---------------------------------------------------------------------
  // main

  /** Block `i` of `sigs`, run after blocks `0..i-1`, which left the run
      `c`: it calls the wrapper, stores a returned value, and reports
      whether an exception other than `ValueError` left it. */
  method RunBlock(a: Query.Adapter, sigs: seq<Signal>, i: nat, boltState: Dict.Entries<Query.Value>,
                  ghost outs: seq<Query.Outcome>, ghost c: Cycle)
    returns (state: Dict.Entries<Query.Value>, aborted: bool, ghost next: Cycle, ghost t: Query.Run<Query.Value>)
    requires i < |sigs| && c == CycleTrace(Block, outs, sigs[..i]) && !c.aborted && boltState == c.state
    requires a.outcomes == Query.Drop(outs, |c.issued|)
    modifies a
    ensures next == CycleTrace(Block, outs, sigs[..i + 1])
    ensures state == next.state && aborted == next.aborted
    ensures a.outcomes == Query.Drop(outs, |next.issued|)
    ensures next.issued == c.issued + t.issued && a.issued == old(a.issued) + t.issued
    ensures next.slept == c.slept + t.slept && a.slept == old(a.slept) + t.slept
    ensures a.statuses == old(a.statuses) && a.connections == old(a.connections)
  {
    var s := sigs[i];
    t := Block(a.outcomes, s);
    var r := Query.QuerySignal(a, s.pair, s.key);
    CycleStep(Block, outs, sigs, i);
    next := Extend(c, s, t);
    Query.DropDrop(outs, |c.issued|, |t.issued|);
    state, aborted := boltState, false;
    if r.Ok? {
      state := Dict.Put(boltState, s.name, r.value);
    } else if !Skipped(r.error) {
      aborted := true;
    }
  }

  /** The blocks `sigs` of `main` run one after another against an
      adapter: a returned value goes into `bolt_state`, a `ValueError` is
      swallowed, and any other exception ends the run. */
  method RunBlocks(a: Query.Adapter, sigs: seq<Signal>) returns (boltState: Dict.Entries<Query.Value>, aborted: bool)
    modifies a
    ensures var c := CycleTrace(Block, old(a.outcomes), sigs);
      boltState == c.state && aborted == c.aborted
      && a.outcomes == Query.Drop(old(a.outcomes), |c.issued|)
      && a.issued == old(a.issued) + c.issued && a.slept == old(a.slept) + c.slept
    ensures a.statuses == old(a.statuses) && a.connections == old(a.connections)
  {
    ghost var outs, log, naps := a.outcomes, a.issued, a.slept;
    boltState, aborted := [], false;
    var i := 0;
    assert sigs[..0] == [];
    ghost var c := CycleTrace(Block, outs, sigs[..0]);
    assert outs == Query.Drop(outs, 0) && log == log + [] && naps == naps + [];
    while i < |sigs|
      invariant 0 <= i <= |sigs|
      invariant c == CycleTrace(Block, outs, sigs[..i])
      invariant !c.aborted && boltState == c.state && !aborted
      invariant a.outcomes == Query.Drop(outs, |c.issued|)
      invariant a.issued == log + c.issued && a.slept == naps + c.slept
      invariant a.statuses == old(a.statuses) && a.connections == old(a.connections)
    {
      var stop;
      ghost var next, t;
      boltState, stop, next, t := RunBlock(a, sigs, i, boltState, outs, c);
      Query.Assoc(log, c.issued, t.issued);
      Query.Assoc(naps, c.slept, t.slept);
      if stop {
        AbortedStays(Block, outs, sigs, i + 1);
        return boltState, true;
      }
      c, i := next, i + 1;
    }
    assert sigs[..|sigs|] == sigs;
  }

  /** The body of `main` from `obd_connect` to the `state` message, against
      an adapter. `OBDIIConnectionError` and the `KeyError` of an absent
      data key both leave `mqtt_msgs` empty. */
  method PollCycle(a: Query.Adapter, topicPrefix: string) returns (msgs: seq<Message>)
    modifies a
    ensures msgs == PollTrace(Block, old(a.statuses), old(a.outcomes), Signals, topicPrefix)
    ensures var ct := Query.ConnectTrace(old(a.statuses), 3);
      var c := if ct.result.Ok? then CycleTrace(Block, old(a.outcomes), Signals) else Cycle([], [], false, [], []);
      a.statuses == Query.Drop(old(a.statuses), ct.count) && a.connections == old(a.connections) + ct.count
      && a.outcomes == Query.Drop(old(a.outcomes), |c.issued|)
      && a.issued == old(a.issued) + c.issued && a.slept == old(a.slept) + ct.slept + c.slept
  {
    var connection := Query.ObdConnect(a, 3);
    if connection.Err? {
      assert a.outcomes == Query.Drop(old(a.outcomes), 0);
      assert a.issued == old(a.issued) + [];
      assert a.slept == old(a.slept) + Query.ConnectTrace(old(a.statuses), 3).slept + [];
      return [];
    }
    var boltState, aborted := RunBlocks(a, Signals);
    if aborted {
      return [];
    }
    msgs := [Message(topicPrefix + "state", boltState, 0, true)];
  }

  /** Names `i` and `j` of `sigs` differ for every `i < j` with `i` in
      `lo1..hi1-1` and `j` in `lo2..hi2-1`. */
  predicate NamesDiffer(sigs: seq<Signal>, lo1: nat, hi1: nat, lo2: nat, hi2: nat)
    requires hi1 <= |sigs| && hi2 <= |sigs|
  {
    forall i, j :: lo1 <= i < hi1 && lo2 <= j < hi2 && i < j ==> sigs[i].name != sigs[j].name
  }

  /** The pack names differ, shown a range of blocks against another at a
      time: 0..7 among themselves. */
  lemma PackNames0To7()
    ensures NamesDiffer(PackSignals, 0, 8, 0, 8)
  {
  }

  /** Blocks 8..15 among themselves. */
  lemma PackNames8To15()
    ensures NamesDiffer(PackSignals, 8, 16, 8, 16)
  {
  }

  /** Blocks 0..7 against 8..15. */
  lemma PackNames0To7Against8To15()
    ensures NamesDiffer(PackSignals, 0, 8, 8, 16)
  {
  }

  /** Blocks 16..31 among themselves. */
  lemma PackNames16To31()
    ensures NamesDiffer(PackSignals, 16, 32, 16, 32)
  {
  }

  /** Blocks 0..15 against 16..23. */
  lemma PackNames0To15Against16To23()
    ensures NamesDiffer(PackSignals, 0, 16, 16, 24)
  {
  }

  /** Blocks 0..15 against 24..31. */
  lemma PackNames0To15Against24To31()
    ensures NamesDiffer(PackSignals, 0, 16, 24, 32)
  {
  }

  /** A decimal digit is written as the character that many places after
      `'0'`. */
  lemma DigitChar(n: nat)
    requires n < 10
    ensures Commands.HexDigit(n) as int == '0' as int + n
  {
  }

  /** Two cell numbers written alike are equal. */
  lemma TwoDigitsInjective(a: nat, b: nat)
    requires a < 100 && b < 100 && TwoDigits(a) == TwoDigits(b)
    ensures a == b
  {
    assert TwoDigits(a)[0] == TwoDigits(b)[0] && TwoDigits(a)[1] == TwoDigits(b)[1];
    DigitChar(a / 10);
    DigitChar(b / 10);
    DigitChar(a % 10);
    DigitChar(b % 10);
  }

  /** Block `i` of the cell blocks is the wrapper for cell `i + 1`. */
  lemma {:induction false} CellSignalsAt(n: nat, i: nat)
    requires i < n < 100
    ensures CellSignals(n)[i] == CellSignal(i + 1)
    decreases n
  {
    if i < n - 1 {
      CellSignalsAt(n - 1, i);
    }
  }

  /** Block `j` of `main`, past the 32 pack blocks, is the wrapper for cell
      `j - 31`. */
  lemma CellBlockAt(j: nat)
    requires 32 <= j < |Signals|
    ensures Signals[j] == CellSignal(j - 31)
  {
    CellSignalsAt(96, j - 32);
  }

  /** The 96 cell blocks have distinct names. */
  lemma CellNamesDistinct()
    ensures forall i, j :: 0 <= i < j < 96 ==> CellSignals(96)[i].name != CellSignals(96)[j].name
  {
    forall i, j | 0 <= i < j < 96 ensures CellSignals(96)[i].name != CellSignals(96)[j].name {
      CellSignalsAt(96, i);
      CellSignalsAt(96, j);
      if CellSignal(i + 1).name == CellSignal(j + 1).name {
        assert CellSignal(i + 1).name[14..] == TwoDigits(i + 1);
        assert CellSignal(j + 1).name[14..] == TwoDigits(j + 1);
        TwoDigitsInjective(i + 1, j + 1);
      }
    }
  }

  /** No pack block is named like a cell block: a cell name has 16
      characters and a `c` in fifth place. */
  lemma PackNamesAreNotCellNames()
    ensures forall i :: 0 <= i < |PackSignals| ==> |PackSignals[i].name| != 16 || PackSignals[i].name[4] != 'c'
  {
  }

  /** The 128 blocks of `main` store under 128 distinct names. */
  lemma SignalNamesDistinct()
    ensures forall i, j :: 0 <= i < j < |Signals| ==> Signals[i].name != Signals[j].name
  {
    PackNames0To7();
    PackNames8To15();
    PackNames0To7Against8To15();
    PackNames16To31();
    PackNames0To15Against16To23();
    PackNames0To15Against24To31();
    CellNamesDistinct();
    PackNamesAreNotCellNames();
    forall i, j | 0 <= i < j < |Signals| ensures Signals[i].name != Signals[j].name {
      if 32 <= i {
        assert Signals[i] == CellSignals(96)[i - 32] && Signals[j] == CellSignals(96)[j - 32];
      } else if 32 <= j {
        CellSignalsAt(96, j - 32);
        assert Signals[i] == PackSignals[i] && Signals[j] == CellSignals(96)[j - 32];
        assert |Signals[j].name| == 16 && Signals[j].name[4] == 'c';
      } else {
        assert Signals[i] == PackSignals[i] && Signals[j] == PackSignals[j];
      }
    }
  }

  /** In `main`, whatever wrapper the blocks call, every value a wrapper
      returned is in the state under its signal's name. */
  lemma SignalsStoreTheirValues(w: Wrapper, outs: seq<Query.Outcome>)
    ensures var c := CycleTrace(w, outs, Signals);
      forall j :: 0 <= j < |c.results| && c.results[j].Ok? ==> (Signals[j].name, c.results[j].value) in c.state
  {
    var c := CycleTrace(w, outs, Signals);
    StateValues(w, outs, Signals);
    SignalNamesDistinct();
    forall j | 0 <= j < |c.results| && c.results[j].Ok? ensures LastOfName(Signals, c.results, j) {
    }
  }

  /** The blocks of `main` whose data key is in the registry: the two raw
      capacities, the state-of-charge readings, the pack current and the
      ambient temperature. */
  const RegisteredBlocks: set<nat> := {0, 1, 4, 5, 6, 7, 8, 9, 10, 31}

  /** No registry key is spelled like a cell key, which has 16 characters
      and an `E` in sixth place. */
  lemma NoCellKeyRegistered()
    ensures forall k :: k in Commands.RegistryKeys ==> |k| != 16 || k[5] != 'E'
  {
  }

  /** No cell block looks up a registered key. */
  lemma CellKeyUnregistered(n: nat)
    requires n < 100
    ensures CellSignal(n).key !in Commands.RegistryKeys
  {
    NoCellKeyRegistered();
    assert |CellSignal(n).key| == 16 && CellSignal(n).key[5] == 'E';
  }

  /** Ten blocks of `main` look up a registered key. */
  lemma RegisteredBlocksCount()
    ensures |RegisteredBlocks| == 10
  {
  }

  /** The raw capacities are registered, the estimated ones are not. */
  lemma CapacityKeys()
    ensures forall j :: 0 <= j < |CapacitySignals| ==> (CapacitySignals[j].key in Commands.RegistryKeys <==> j < 2)
  {
  }

  /** Every state-of-charge key and the pack current are registered, the
      charge count is not. */
  lemma ChargeKeys()
    ensures forall j :: 0 <= j < |ChargeSignals| ==> (ChargeSignals[j].key in Commands.RegistryKeys <==> j < 7)
  {
  }

  /** No module temperature is registered. */
  lemma ModuleTempKeys()
    ensures forall j :: 0 <= j < |ModuleTempSignals| ==> ModuleTempSignals[j].key !in Commands.RegistryKeys
  {
  }

  /** No cell summary is registered. */
  lemma CellSummaryKeys()
    ensures forall j :: 0 <= j < |CellSummarySignals| ==> CellSummarySignals[j].key !in Commands.RegistryKeys
  {
  }

  /** Of the last six pack blocks only the ambient temperature is
      registered. */
  lemma PackElectricalKeys()
    ensures forall j :: 0 <= j < |PackElectricalSignals| ==> (PackElectricalSignals[j].key in Commands.RegistryKeys <==> j == 5)
  {
  }

  /** Where each of the first 32 blocks of `main` comes from. */
  lemma PackBlockAt(j: nat)
    requires j < 32
    ensures Signals[j] ==
      if j < 4 then CapacitySignals[j]
      else if j < 12 then ChargeSignals[j - 4]
      else if j < 21 then ModuleTempSignals[j - 12]
      else if j < 26 then CellSummarySignals[j - 21]
      else PackElectricalSignals[j - 26]
  {
  }

  lemma CapacityBlocks()
    ensures forall j :: 0 <= j < 4 ==> (Signals[j].key in Commands.RegistryKeys <==> j < 2)
  {
    CapacityKeys();
    forall j | 0 <= j < 4 ensures Signals[j].key in Commands.RegistryKeys <==> j < 2 {
      PackBlockAt(j);
    }
  }

  lemma ChargeBlocks()
    ensures forall j :: 4 <= j < 12 ==> (Signals[j].key in Commands.RegistryKeys <==> j < 11)
  {
    ChargeKeys();
    forall j | 4 <= j < 12 ensures Signals[j].key in Commands.RegistryKeys <==> j < 11 {
      PackBlockAt(j);
    }
  }

  lemma ModuleTempBlocks()
    ensures forall j :: 12 <= j < 21 ==> Signals[j].key !in Commands.RegistryKeys
  {
    ModuleTempKeys();
    forall j | 12 <= j < 21 ensures Signals[j].key !in Commands.RegistryKeys {
      PackBlockAt(j);
    }
  }

  lemma CellSummaryBlocks()
    ensures forall j :: 21 <= j < 26 ==> Signals[j].key !in Commands.RegistryKeys
  {
    CellSummaryKeys();
    forall j | 21 <= j < 26 ensures Signals[j].key !in Commands.RegistryKeys {
      PackBlockAt(j);
    }
  }

  lemma PackElectricalBlocks()
    ensures forall j :: 26 <= j < 32 ==> (Signals[j].key in Commands.RegistryKeys <==> j == 31)
  {
    PackElectricalKeys();
    forall j | 26 <= j < 32 ensures Signals[j].key in Commands.RegistryKeys <==> j == 31 {
      PackBlockAt(j);
    }
  }

  /** Of the first 32 blocks of `main`, exactly those in `RegisteredBlocks`
      look up a registered key. */
  lemma PackBlocksRegistered()
    ensures forall j :: 0 <= j < 32 ==> (Signals[j].key in Commands.RegistryKeys <==> j in RegisteredBlocks)
  {
    CapacityBlocks();
    ChargeBlocks();
    ModuleTempBlocks();
    CellSummaryBlocks();
    PackElectricalBlocks();
    forall j | 0 <= j < 32 ensures Signals[j].key in Commands.RegistryKeys <==> j in RegisteredBlocks {
      if j < 11 {
        assert j in RegisteredBlocks <==> j < 2 || 4 <= j;
      } else {
        assert j in RegisteredBlocks <==> j == 31;
      }
    }
  }

  /** None of the 96 cell blocks of `main` looks up a registered key. */
  lemma CellBlocksUnregistered()
    ensures forall j :: 32 <= j < |Signals| ==> Signals[j].key !in Commands.RegistryKeys
  {
    forall j | 32 <= j < |Signals| ensures Signals[j].key !in Commands.RegistryKeys {
      CellBlockAt(j);
      CellKeyUnregistered(j - 31);
    }
  }

  /** The blocks of `main` that look up a key in the registry (so
      `Lookup` finds it) are exactly those in `RegisteredBlocks`, ten of
      the 128 by `RegisteredBlocksCount`; the other 118 find none, so each of
      them raises `KeyError` once its addressing queries succeed. */
  lemma SignalsRegistered()
    ensures forall j :: 0 <= j < |Signals| ==> (Signals[j].key in Commands.RegistryKeys <==> j in RegisteredBlocks)
  {
    PackBlocksRegistered();
    CellBlocksUnregistered();
    forall j | 0 <= j < |Signals| ensures Signals[j].key in Commands.RegistryKeys <==> j in RegisteredBlocks {
      if 32 <= j {
        assert j !in RegisteredBlocks;
      }
    }
  }

}
