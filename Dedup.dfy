/**
 * Alert de-duplication: the process-wide set of alerted flight ids, the mesh
 * link alerts are broadcast on, and what a batch of observations does to
 * both.
 */
module Dedup {
  import opened Flights
  import opened AlertFormat

  /** Mesh destination meaning every reachable node. */
  const BROADCAST_ALL: string := "^all"
  /** Channel used when none is configured. */
  const DEFAULT_CHANNEL_INDEX: nat := 2

  /** One text handed to the radio, with the addressing it is sent with. */
  datatype Packet = Packet(text: string, destinationId: string, wantAck: bool, channelIndex: nat)

  /** The broadcast of an alert: to every node, without delivery acknowledgment. */
  function AlertPacket(f: Flight, r: Render, channel: nat): (p: Packet)
    ensures p.destinationId == BROADCAST_ALL && !p.wantAck && p.channelIndex == channel
  {
    Packet(FormatAlert(f, r), BROADCAST_ALL, false, channel)
  }

  /**
   * The radio link. Whether a send goes through is not up to the alerter: the
   * link's `accepts` says, for each attempt number, whether that attempt
   * succeeds, and may say anything.
   */
  class MeshInterface {
    const accepts: nat -> bool
    var attempts: nat
    var delivered: seq<Packet>

    constructor (accepts: nat -> bool)
      ensures this.accepts == accepts && attempts == 0 && delivered == []
    {
      this.accepts := accepts;
      attempts := 0;
      delivered := [];
    }

    /** Hand one packet to the radio; `ok` is false where the library would raise. */
    method SendText(p: Packet) returns (ok: bool)
      modifies this
      ensures ok == accepts(old(attempts))
      ensures attempts == old(attempts) + 1
      ensures delivered == if ok then old(delivered) + [p] else old(delivered)
    {
      ok := accepts(attempts);
      if ok {
        delivered := delivered + [p];
      }
      attempts := attempts + 1;
    }
  }

  /**
   * Format the alert and broadcast it. A failed send is only logged: the
   * method returns normally either way and reports nothing to its caller.
   */
  method SendAlert(iface: MeshInterface, f: Flight, r: Render, channel: nat)
    modifies iface
    ensures iface.attempts == old(iface.attempts) + 1
    ensures iface.delivered == old(iface.delivered) + (if iface.accepts(old(iface.attempts)) then [AlertPacket(f, r, channel)] else [])
  {
    var msg := FormatAlert(f, r);
    var ok := iface.SendText(Packet(msg, BROADCAST_ALL, false, channel));
  }

  /**
   * What de-duplication acts on: the alerted ids, the ids dispatched so far in
   * order, and the link's attempt count and accepted packets.
   */
  datatype DedupState = DedupState(alerted: set<string>, sent: seq<string>, attempts: nat, delivered: seq<Packet>)

  predicate NoDuplicates(s: seq<string>) {
    forall i, j :: 0 <= i < j < |s| ==> s[i] != s[j]
  }

  /** Every alerted id was dispatched exactly once, and only non-empty ids are alerted. */
  predicate ValidState(s: DedupState) {
    && (forall k :: 0 <= k < |s.sent| ==> s.sent[k] in s.alerted)
    && (forall x :: x in s.alerted ==> x in s.sent)
    && NoDuplicates(s.sent)
    && "" !in s.alerted
  }

  /** Whether a record is dispatched given the ids alerted so far: its id is non-empty and new. */
  predicate IsNew(f: Flight, alerted: set<string>) {
    IdOf(f) != "" && IdOf(f) !in alerted
  }

  /**
   * One iteration of the alert loop: skip a record without an id or with an
   * alerted one; otherwise try the send (attempt number `s.attempts`) and
   * then record the id, whatever the send's outcome.
   */
  function Step(s: DedupState, f: Flight, accepts: nat -> bool, r: Render, channel: nat): (t: DedupState)
    ensures t.alerted == s.alerted + (if IdOf(f) != "" then {IdOf(f)} else {})
    ensures t == s <==> !IsNew(f, s.alerted)
  {
    if !IsNew(f, s.alerted) then s
    else DedupState(s.alerted + {IdOf(f)}, s.sent + [IdOf(f)], s.attempts + 1,
                    s.delivered + (if accepts(s.attempts) then [AlertPacket(f, r, channel)] else []))
  }

  /** The alert loop over a whole batch, record by record in order. */
  function Run(s: DedupState, fs: seq<Flight>, accepts: nat -> bool, r: Render, channel: nat): (t: DedupState)
    ensures t.alerted == s.alerted + BatchIds(fs)
  {
    if fs == [] then s
    else Step(Run(s, fs[..|fs| - 1], accepts, r, channel), fs[|fs| - 1], accepts, r, channel)
  }

  /** The non-empty ids occurring in a batch. */
  function BatchIds(fs: seq<Flight>): (ids: set<string>)
    ensures "" !in ids
  {
    if fs == [] then {}
    else BatchIds(fs[..|fs| - 1]) + (if IdOf(fs[|fs| - 1]) != "" then {IdOf(fs[|fs| - 1])} else {})
  }

  lemma {:induction false} BatchIdsMembers(fs: seq<Flight>, x: string)
    ensures x in BatchIds(fs) <==> x != "" && exists k :: 0 <= k < |fs| && IdOf(fs[k]) == x
  {
    if fs != [] {
      var init := fs[..|fs| - 1];
      BatchIdsMembers(init, x);
      if x in BatchIds(init) {
        var k :| 0 <= k < |init| && IdOf(init[k]) == x;
        assert IdOf(fs[k]) == x;
      }
      if x != "" && exists k :: 0 <= k < |fs| && IdOf(fs[k]) == x {
        var k :| 0 <= k < |fs| && IdOf(fs[k]) == x;
        if k < |init| { assert IdOf(init[k]) == x; }
      }
    }
  }

  lemma {:induction false} BatchIdsAppend(a: seq<Flight>, b: seq<Flight>)
    ensures BatchIds(a + b) == BatchIds(a) + BatchIds(b)
  {
    if b == [] {
      assert a + b == a;
    } else {
      var init := b[..|b| - 1];
      assert (a + b)[..|a + b| - 1] == a + init;
      BatchIdsAppend(a, init);
    }
  }

  /** One iteration keeps the de-duplication invariant. */
  lemma StepPreservesValid(s: DedupState, f: Flight, accepts: nat -> bool, r: Render, channel: nat)
    requires ValidState(s)
    ensures ValidState(Step(s, f, accepts, r, channel))
  {
    if IsNew(f, s.alerted) {
      var t := Step(s, f, accepts, r, channel);
      assert t.sent[|s.sent|] == IdOf(f);
      forall x | x in t.alerted ensures x in t.sent {
        if x != IdOf(f) { assert x in s.sent; }
      }
    }
  }

  /** A whole batch keeps it: no id is ever dispatched twice, within a batch or across batches. */
  lemma {:induction false} RunPreservesValid(s: DedupState, fs: seq<Flight>, accepts: nat -> bool, r: Render, channel: nat)
    requires ValidState(s)
    ensures ValidState(Run(s, fs, accepts, r, channel))
  {
    if fs != [] {
      RunPreservesValid(s, fs[..|fs| - 1], accepts, r, channel);
      StepPreservesValid(Run(s, fs[..|fs| - 1], accepts, r, channel), fs[|fs| - 1], accepts, r, channel);
    }
  }

  /**
   * The logs only grow: what was dispatched and delivered before stays,
   * and each dispatch is one send attempt.
   */
  lemma {:induction false} RunExtends(s: DedupState, fs: seq<Flight>, accepts: nat -> bool, r: Render, channel: nat)
    ensures var t := Run(s, fs, accepts, r, channel);
      && |s.sent| <= |t.sent| && t.sent[..|s.sent|] == s.sent
      && |s.delivered| <= |t.delivered| && t.delivered[..|s.delivered|] == s.delivered
      && t.attempts - s.attempts == |t.sent| - |s.sent|
      && |t.delivered| - |s.delivered| <= |t.sent| - |s.sent|
  {
    if fs != [] {
      var u := Run(s, fs[..|fs| - 1], accepts, r, channel);
      RunExtends(s, fs[..|fs| - 1], accepts, r, channel);
      var t := Step(u, fs[|fs| - 1], accepts, r, channel);
      assert t.sent[..|u.sent|] == u.sent;
      assert t.sent[..|s.sent|] == u.sent[..|s.sent|];
      assert t.delivered[..|u.delivered|] == u.delivered;
      assert t.delivered[..|s.delivered|] == u.delivered[..|s.delivered|];
    }
  }

  /**
   * An id is dispatched by the batch exactly when it is a non-empty id of
   * the batch that was not alerted before.
   */
  lemma {:induction false} RunNewlySent(s: DedupState, fs: seq<Flight>, accepts: nat -> bool, r: Render, channel: nat, x: string)
    requires ValidState(s)
    ensures var t := Run(s, fs, accepts, r, channel);
      |s.sent| <= |t.sent| && (x in t.sent[|s.sent|..] <==> x in BatchIds(fs) && x !in s.alerted)
  {
    var t := Run(s, fs, accepts, r, channel);
    RunExtends(s, fs, accepts, r, channel);
    RunPreservesValid(s, fs, accepts, r, channel);
    NewEntries(s, t, BatchIds(fs), x);
  }

  /**
   * Between two valid states where the later one extends the earlier one's
   * log and alerts `ids` more, the new log entries are the ids not alerted
   * before.
   */
  lemma NewEntries(s: DedupState, t: DedupState, ids: set<string>, x: string)
    requires ValidState(s) && ValidState(t)
    requires |s.sent| <= |t.sent| && t.sent[..|s.sent|] == s.sent
    requires t.alerted == s.alerted + ids
    ensures x in t.sent[|s.sent|..] <==> x in ids && x !in s.alerted
  {
    var n := |s.sent|;
    if x in t.sent[n..] {
      var m :| 0 <= m < |t.sent| - n && t.sent[n..][m] == x;
      assert t.sent[n + m] == x;
      forall j | 0 <= j < n
        ensures s.sent[j] != x
      {
        assert t.sent[..n][j] == t.sent[j];
      }
      assert x !in s.sent;
      assert x in t.alerted;
    }
    if x in ids && x !in s.alerted {
      assert x in t.alerted;
      forall j | 0 <= j < n
        ensures t.sent[j] != x
      {
        assert t.sent[..n][j] == t.sent[j];
        assert s.sent[j] in s.alerted;
      }
      var k :| 0 <= k < |t.sent| && t.sent[k] == x;
      assert t.sent[n..][k - n] == x;
    }
  }

  /** No record before position `i` of the batch carries the id of the record at `i`. */
  predicate FirstOfId(fs: seq<Flight>, i: int)
    requires 0 <= i < |fs|
  {
    forall j :: 0 <= j < i ==> IdOf(fs[j]) != IdOf(fs[i])
  }

  /** `p` is the alert for a record of `fs` that is new against `alerted` and the first with its id. */
  predicate AlertForFirstNew(p: Packet, fs: seq<Flight>, alerted: set<string>, r: Render, channel: nat) {
    exists i :: 0 <= i < |fs| && IsNew(fs[i], alerted) && FirstOfId(fs, i) && p == AlertPacket(fs[i], r, channel)
  }

  lemma AlertForFirstNewExtends(p: Packet, init: seq<Flight>, last: Flight, alerted: set<string>, r: Render, channel: nat)
    requires AlertForFirstNew(p, init, alerted, r, channel)
    ensures AlertForFirstNew(p, init + [last], alerted, r, channel)
  {
    var fs := init + [last];
    var i :| 0 <= i < |init| && IsNew(init[i], alerted) && FirstOfId(init, i) && p == AlertPacket(init[i], r, channel);
    assert fs[i] == init[i];
    forall j | 0 <= j < i
      ensures IdOf(fs[j]) != IdOf(fs[i])
    {
      assert fs[j] == init[j];
    }
    assert FirstOfId(fs, i);
  }

  lemma LastIsFirstNew(init: seq<Flight>, last: Flight, alerted: set<string>, r: Render, channel: nat)
    requires IsNew(last, alerted + BatchIds(init))
    ensures AlertForFirstNew(AlertPacket(last, r, channel), init + [last], alerted, r, channel)
  {
    var fs := init + [last];
    var i := |init|;
    assert fs[i] == last;
    forall j | 0 <= j < i
      ensures IdOf(fs[j]) != IdOf(fs[i])
    {
      assert fs[j] == init[j];
      BatchIdsMembers(init, IdOf(last));
    }
    assert FirstOfId(fs, i);
  }

  /**
   * Every packet a batch delivers is the alert for a record of the batch
   * that was new when the batch began and is the first record with its id:
   * a later duplicate of an id is never sent.
   */
  lemma {:induction false} RunDeliveredAlerts(s: DedupState, fs: seq<Flight>, accepts: nat -> bool, r: Render, channel: nat)
    ensures var t := Run(s, fs, accepts, r, channel);
      && |s.delivered| <= |t.delivered|
      && forall k :: |s.delivered| <= k < |t.delivered| ==> AlertForFirstNew(t.delivered[k], fs, s.alerted, r, channel)
  {
    if fs != [] {
      var init := fs[..|fs| - 1];
      var last := fs[|fs| - 1];
      assert fs == init + [last];
      var u := Run(s, init, accepts, r, channel);
      var t := Run(s, fs, accepts, r, channel);
      RunDeliveredAlerts(s, init, accepts, r, channel);
      var extra := if IsNew(last, u.alerted) && accepts(u.attempts) then [AlertPacket(last, r, channel)] else [];
      assert t.delivered == u.delivered + extra;
      forall k | |s.delivered| <= k < |t.delivered|
        ensures AlertForFirstNew(t.delivered[k], fs, s.alerted, r, channel)
      {
        if k < |u.delivered| {
          assert t.delivered[k] == u.delivered[k];
          AlertForFirstNewExtends(u.delivered[k], init, last, s.alerted, r, channel);
        } else {
          assert t.delivered[k] == AlertPacket(last, r, channel);
          LastIsFirstNew(init, last, s.alerted, r, channel);
        }
      }
    }
  }

  /** A batch whose ids are all alerted already changes nothing. */
  lemma {:induction false} RunAlreadyAlerted(s: DedupState, fs: seq<Flight>, accepts: nat -> bool, r: Render, channel: nat)
    requires BatchIds(fs) <= s.alerted
    ensures Run(s, fs, accepts, r, channel) == s
  {
    if fs != [] {
      RunAlreadyAlerted(s, fs[..|fs| - 1], accepts, r, channel);
    }
  }

  /** Processing the same batch a second time dispatches nothing and changes nothing. */
  lemma RunRepeatIsIdle(s: DedupState, fs: seq<Flight>, accepts: nat -> bool, r: Render, channel: nat)
    ensures var t := Run(s, fs, accepts, r, channel); Run(t, fs, accepts, r, channel) == t
  {
    RunAlreadyAlerted(Run(s, fs, accepts, r, channel), fs, accepts, r, channel);
  }

  /** Two batches in a row act as their concatenation. */
  lemma {:induction false} RunAppend(s: DedupState, a: seq<Flight>, b: seq<Flight>, accepts: nat -> bool, r: Render, channel: nat)
    ensures Run(Run(s, a, accepts, r, channel), b, accepts, r, channel) == Run(s, a + b, accepts, r, channel)
  {
    if b == [] {
      assert a + b == a;
    } else {
      var init := b[..|b| - 1];
      assert (a + b)[..|a + b| - 1] == a + init;
      assert (a + b)[|a + b| - 1] == b[|b| - 1];
      RunAppend(s, a, init, accepts, r, channel);
    }
  }

  /**
   * When no send ever goes through, nothing is delivered, yet every
   * non-empty id of the batch ends up alerted: a failed send is not retried.
   */
  lemma {:induction false} RunAllSendsFail(s: DedupState, fs: seq<Flight>, accepts: nat -> bool, r: Render, channel: nat)
    requires forall k :: !accepts(k)
    ensures Run(s, fs, accepts, r, channel).delivered == s.delivered
    ensures Run(s, fs, accepts, r, channel).alerted == s.alerted + BatchIds(fs)
  {
    if fs != [] {
      RunAllSendsFail(s, fs[..|fs| - 1], accepts, r, channel);
    }
  }

  /** The set of alerted ids, with a ghost log of every dispatched id in order. */
  class AlertLog {
    var alerted: set<string>
    ghost var sent: seq<string>

    ghost predicate Valid()
      reads this
    {
      ValidState(DedupState(alerted, sent, 0, []))
    }

    /** The log together with the state of the link it sends on. */
    ghost function State(iface: MeshInterface): (s: DedupState)
      reads this, iface
      ensures Valid() <==> ValidState(s)
    {
      DedupState(alerted, sent, iface.attempts, iface.delivered)
    }

    constructor ()
      ensures Valid() && alerted == {} && sent == []
    {
      alerted := {};
      sent := [];
    }

    /** Send the alert for a record not yet alerted, then record its id whatever the outcome. */
    method Dispatch(iface: MeshInterface, f: Flight, r: Render, channel: nat)
      requires Valid() && IsNew(f, alerted)
      modifies this, iface
      ensures Valid()
      ensures State(iface) == Step(old(State(iface)), f, iface.accepts, r, channel)
    {
      StepPreservesValid(State(iface), f, iface.accepts, r, channel);
      SendAlert(iface, f, r, channel);
      alerted := alerted + {IdOf(f)};
      sent := sent + [IdOf(f)];
    }

    /**
     * Dispatch an alert for each record whose id is non-empty and not yet
     * alerted, then record the id, whether or not the send went through.
     */
    method ProcessAlerts(iface: MeshInterface, fs: seq<Flight>, r: Render, channel: nat)
      requires Valid()
      modifies this, iface
      ensures Valid()
      ensures State(iface) == Run(old(State(iface)), fs, iface.accepts, r, channel)
    {
      for i := 0 to |fs|
        invariant Valid()
        invariant State(iface) == Run(old(State(iface)), fs[..i], iface.accepts, r, channel)
      {
        assert fs[..i + 1][..i] == fs[..i];
        var flightId := IdOf(fs[i]);
        if flightId == "" {
          continue;
        }
        if flightId in alerted {
          continue;
        }
        Dispatch(iface, fs[i], r, channel);
      }
      assert fs[..|fs|] == fs;
    }
  }
}
