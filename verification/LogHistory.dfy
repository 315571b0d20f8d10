/** What the tables say that no counter mirrors, told from the logs alone: which
    capabilities are on offer and whose they are, each agent's identity, and which
    alerts have been raised. */
module LogHistory {

  import opened Parties
  import opened Alerts
  import opened IndexDb
  import opened IndexMirror

  // ---- capabilities ----

  predicate RegisteredAt(logs: seq<Log>, i: int, id: nat)
    requires 0 <= i < |logs|
  {
    logs[i].event.CapabilityRegistered? && logs[i].event.capabilityId == id
  }

  /** Log `i` registered the capability, and its bond has not been withdrawn since. */
  predicate Standing(logs: seq<Log>, i: int, id: nat)
  {
    && 0 <= i < |logs| && RegisteredAt(logs, i, id)
    && forall j :: i < j < |logs| ==> logs[j].event != BondWithdrawn(id)
  }

  /** The last registration of those. */
  predicate Latest(logs: seq<Log>, i: int, id: nat)
  {
    Standing(logs, i, id) && forall j :: i < j < |logs| ==> !RegisteredAt(logs, j, id)
  }

  /** The event has come after a registration that still stands. */
  ghost predicate Since(logs: seq<Log>, id: nat, e: Event)
  {
    exists i, j :: Standing(logs, i, id) && i < j < |logs| && logs[j].event == e
  }

  /** The chain offers the capability under that type. */
  ghost predicate OfferedBy(logs: seq<Log>, id: nat, capabilityType: nat)
  {
    && (exists i :: Latest(logs, i, id) && logs[i].event.capabilityType == capabilityType)
    && Since(logs, id, CapabilityCertified(id)) && !Since(logs, id, CapabilitySlashed(id))
  }

  /** There is a row exactly while some registration stands. */
  ghost predicate Present(capabilities: map<nat, Capability>, logs: seq<Log>, id: nat)
  {
    id in capabilities <==> exists i :: Standing(logs, i, id)
  }

  /** Creator and type are those of the latest registration. */
  ghost predicate Described(capabilities: map<nat, Capability>, logs: seq<Log>, id: nat)
  {
    id in capabilities ==>
      exists i :: Latest(logs, i, id)
               && capabilities[id].creator == logs[i].event.creator
               && capabilities[id].capabilityType == logs[i].event.capabilityType
  }

  /** The two flags say what has come since. */
  ghost predicate Flagged(capabilities: map<nat, Capability>, logs: seq<Log>, id: nat)
  {
    id in capabilities ==>
      && (capabilities[id].certified <==> Since(logs, id, CapabilityCertified(id)))
      && (capabilities[id].slashed <==> Since(logs, id, CapabilitySlashed(id)))
  }

  /** What one log more changes of which registrations stand. */
  lemma StandingNext(logs: seq<Log>, log: Log, i: int, id: nat)
    ensures Standing(logs + [log], i, id)
       <==> if i == |logs| then log.event.CapabilityRegistered? && log.event.capabilityId == id
            else Standing(logs, i, id) && log.event != BondWithdrawn(id)
  {
    var more := logs + [log];
    assert more[|logs|] == log;
    if 0 <= i < |logs| {
      assert more[i] == logs[i];
      assert forall j :: i < j < |logs| ==> more[j] == logs[j];
    }
  }

  lemma LatestNext(logs: seq<Log>, log: Log, i: int, id: nat)
    ensures Latest(logs + [log], i, id)
       <==> if log.event.CapabilityRegistered? && log.event.capabilityId == id then i == |logs|
            else Latest(logs, i, id) && log.event != BondWithdrawn(id)
  {
    var more := logs + [log];
    StandingNext(logs, log, i, id);
    assert RegisteredAt(more, |logs|, id) <==> log.event.CapabilityRegistered? && log.event.capabilityId == id;
    assert forall j :: 0 <= j < |logs| ==> (RegisteredAt(more, j, id) <==> RegisteredAt(logs, j, id));
  }

  lemma SinceNext(logs: seq<Log>, log: Log, id: nat, e: Event)
    requires !e.CapabilityRegistered? && !e.BondWithdrawn?
    ensures Since(logs + [log], id, e)
       <==> log.event != BondWithdrawn(id)
            && (Since(logs, id, e) || (log.event == e && exists i :: Standing(logs, i, id)))
  {
    var more := logs + [log];
    assert more[|logs|] == log && forall j :: 0 <= j < |logs| ==> more[j] == logs[j];
    forall i
      ensures Standing(more, i, id)
         <==> if i == |logs| then log.event.CapabilityRegistered? && log.event.capabilityId == id
              else Standing(logs, i, id) && log.event != BondWithdrawn(id)
    {
      StandingNext(logs, log, i, id);
    }
    if Since(logs, id, e) && log.event != BondWithdrawn(id) {
      var i, j :| Standing(logs, i, id) && i < j < |logs| && logs[j].event == e;
      assert Standing(more, i, id) && more[j].event == e;
    }
    if log.event == e && exists i :: Standing(logs, i, id) {
      var i :| Standing(logs, i, id);
      assert Standing(more, i, id) && more[|logs|].event == e;
    }
  }

  lemma PresentNext(capabilities: map<nat, Capability>, logs: seq<Log>, log: Log, id: nat)
    requires Present(capabilities, logs, id)
    ensures Present(ApplyCapability(capabilities, log.event), logs + [log], id)
  {
    StandingNext(logs, log, |logs|, id);
    if exists i :: Standing(logs, i, id) {
      var i :| Standing(logs, i, id);
      StandingNext(logs, log, i, id);
    }
    if exists i :: Standing(logs + [log], i, id) {
      var i :| Standing(logs + [log], i, id);
      StandingNext(logs, log, i, id);
    }
  }

  lemma DescribedNext(capabilities: map<nat, Capability>, logs: seq<Log>, log: Log, id: nat)
    requires Described(capabilities, logs, id)
    ensures Described(ApplyCapability(capabilities, log.event), logs + [log], id)
  {
    LatestNext(logs, log, |logs|, id);
    if id in capabilities {
      var i :| Latest(logs, i, id)
            && capabilities[id].creator == logs[i].event.creator
            && capabilities[id].capabilityType == logs[i].event.capabilityType;
      LatestNext(logs, log, i, id);
      assert (logs + [log])[i] == logs[i];
    }
    assert (logs + [log])[|logs|] == log;
  }

  lemma FlaggedNext(capabilities: map<nat, Capability>, logs: seq<Log>, log: Log, id: nat)
    requires Present(capabilities, logs, id) && Flagged(capabilities, logs, id)
    ensures Flagged(ApplyCapability(capabilities, log.event), logs + [log], id)
  {
    SinceNext(logs, log, id, CapabilityCertified(id));
    SinceNext(logs, log, id, CapabilitySlashed(id));
  }

  /** Events about completions and their receipts. */
  predicate Counts(e: Event)
  {
    e.SelfAttested? || e.ReceiptAttested? || e.ReceiptRevoked? || (e.ChallengeResolved? && e.upheld)
  }

  lemma RevokedKeeps(t: Tables, id: nat)
    ensures
      var t' := Revoked(t, id, true);
      && t'.capabilities == t.capabilities && t'.identity == t.identity
      && t'.receipts == t.receipts - {id}
  {
  }

  lemma DisputedKeeps(t: Tables, id: nat)
    ensures
      var t' := Disputed(t, id, true);
      && t'.capabilities == t.capabilities && t'.identity == t.identity
      && (id in t.completions ==> t'.receipts == t.receipts - {id})
  {
  }

  /** What one log does to the tables that are not counters. */
  lemma CountsKeep(t: Tables, log: Log)
    requires Counts(log.event)
    ensures ApplyLog(t, log).capabilities == t.capabilities && ApplyLog(t, log).identity == t.identity
    ensures log.event.SelfAttested? ==> ApplyLog(t, log).receipts == t.receipts
    ensures log.event.ReceiptAttested? ==> ApplyLog(t, log).receipts == t.receipts[log.event.id := ReceiptOf(log)]
    ensures log.event.ReceiptRevoked? ==> ApplyLog(t, log).receipts == t.receipts - {log.event.id}
    ensures log.event.ChallengeResolved? && log.event.id in t.completions ==>
              ApplyLog(t, log).receipts == t.receipts - {log.event.id}
  {
    var e := log.event;
    if e.ReceiptRevoked? {
      RevokedKeeps(t, e.id);
    } else if e.ChallengeResolved? {
      DisputedKeeps(t, e.id);
    }
  }

  lemma OthersMove(t: Tables, log: Log)
    requires !Counts(log.event)
    ensures ApplyLog(t, log).receipts == t.receipts
    ensures ApplyLog(t, log).identity
         == if log.event.AgentRegistered? then t.identity[log.event.agent := log.event.metadataCID] else t.identity
    ensures ApplyLog(t, log).capabilities == ApplyCapability(t.capabilities, log.event)
  {
    OtherLogs(t, log);
    if log.event.AgentRegistered? {
      assert ApplyLog(t, log) == t.(identity := t.identity[log.event.agent := log.event.metadataCID]);
    } else if !log.event.ChallengeResolved? {
      assert ApplyLog(t, log) == t.(capabilities := ApplyCapability(t.capabilities, log.event));
    }
  }

  /** Only the four registry events touch the capabilities. */
  lemma CapabilitiesMove(t: Tables, log: Log)
    ensures ApplyLog(t, log).capabilities == ApplyCapability(t.capabilities, log.event)
  {
    if Counts(log.event) {
      CountsKeep(t, log);
    } else {
      OthersMove(t, log);
    }
  }

  ghost predicate Told(capabilities: map<nat, Capability>, logs: seq<Log>, id: nat)
  {
    Present(capabilities, logs, id) && Described(capabilities, logs, id) && Flagged(capabilities, logs, id)
  }

  lemma ToldNext(capabilities: map<nat, Capability>, logs: seq<Log>, log: Log, id: nat)
    requires Told(capabilities, logs, id)
    ensures Told(ApplyCapability(capabilities, log.event), logs + [log], id)
  {
    PresentNext(capabilities, logs, log, id);
    DescribedNext(capabilities, logs, log, id);
    FlaggedNext(capabilities, logs, log, id);
  }

  lemma {:induction false} CapabilitiesTold(logs: seq<Log>, id: nat)
    ensures Told(Fold(NO_TABLES, logs).capabilities, logs, id)
  {
    if logs != [] {
      var n := |logs| - 1;
      var before := Fold(NO_TABLES, logs[..n]);
      CapabilitiesTold(logs[..n], id);
      CapabilitiesMove(before, logs[n]);
      ToldNext(before.capabilities, logs[..n], logs[n], id);
      assert logs[..n] + [logs[n]] == logs;
    }
  }

  lemma LatestIsOne(logs: seq<Log>, i: int, j: int, id: nat)
    requires Latest(logs, i, id) && Latest(logs, j, id)
    ensures i == j
  {
    assert RegisteredAt(logs, i, id) && RegisteredAt(logs, j, id);
  }

  /** After any logs a capability has a row with this type, is certified and is not slashed
      if and only if, since its last withdrawal, its latest registration was under that type,
      it was certified after a registration, and never slashed after one. Its creator is
      then that of the latest registration. */
  lemma OfferedIff(logs: seq<Log>, id: nat, capabilityType: nat)
    ensures
      var capabilities := Fold(NO_TABLES, logs).capabilities;
      && (OfferedBy(logs, id, capabilityType)
          <==> id in capabilities && capabilities[id].capabilityType == capabilityType
               && capabilities[id].certified && !capabilities[id].slashed)
      && (forall i :: Latest(logs, i, id) ==> id in capabilities && capabilities[id].creator == logs[i].event.creator)
  {
    CapabilitiesTold(logs, id);
    var capabilities := Fold(NO_TABLES, logs).capabilities;
    forall i | Latest(logs, i, id)
      ensures id in capabilities && capabilities[id].creator == logs[i].event.creator
      ensures capabilities[id].capabilityType == logs[i].event.capabilityType
    {
      assert Standing(logs, i, id);
      var j :| Latest(logs, j, id)
            && capabilities[id].creator == logs[j].event.creator
            && capabilities[id].capabilityType == logs[j].event.capabilityType;
      LatestIsOne(logs, i, j, id);
    }
  }

  // ---- capabilities after a fork ----

  predicate Happens(logs: seq<Log>, e: Event)
  {
    exists j :: 0 <= j < |logs| && logs[j].event == e
  }

  lemma HappensNext(logs: seq<Log>, log: Log, e: Event)
    ensures Happens(logs + [log], e) <==> Happens(logs, e) || log.event == e
  {
    assert (logs + [log])[|logs|] == log;
    if Happens(logs, e) {
      var j :| 0 <= j < |logs| && logs[j].event == e;
      assert (logs + [log])[j] == logs[j];
    }
  }

  /** The same row, or none, on both sides. */
  predicate SameRow(c: map<nat, Capability>, d: map<nat, Capability>, id: nat)
  {
    (id in c <==> id in d) && (id in c ==> c[id] == d[id])
  }

  /** A row replayed over `kept`, beside the row of a fresh index: a withdrawal makes them one; until
      then the kept row and its flags are still there. */
  ghost predicate Beside(kept: map<nat, Capability>, c: map<nat, Capability>, d: map<nat, Capability>, logs: seq<Log>,
                         id: nat)
  {
    if id !in kept || Happens(logs, BondWithdrawn(id)) then SameRow(c, d, id)
    else
      && id in c
      && (c[id].certified <==> kept[id].certified || Happens(logs, CapabilityCertified(id)))
      && (c[id].slashed <==> kept[id].slashed || Happens(logs, CapabilitySlashed(id)))
      && (id in d ==> c[id].creator == d[id].creator && c[id].capabilityType == d[id].capabilityType)
  }

  lemma BesideNext(kept: map<nat, Capability>, c: map<nat, Capability>, d: map<nat, Capability>, logs: seq<Log>,
                   log: Log, id: nat)
    requires Beside(kept, c, d, logs, id)
    ensures Beside(kept, ApplyCapability(c, log.event), ApplyCapability(d, log.event), logs + [log], id)
  {
    HappensNext(logs, log, BondWithdrawn(id));
    HappensNext(logs, log, CapabilityCertified(id));
    HappensNext(logs, log, CapabilitySlashed(id));
  }

  lemma {:induction false} ReplayedBeside(t: Tables, logs: seq<Log>, id: nat)
    ensures Beside(t.capabilities, Fold(Reset(t), logs).capabilities, Fold(NO_TABLES, logs).capabilities, logs, id)
  {
    if logs != [] {
      var before, last := logs[..|logs| - 1], logs[|logs| - 1];
      ReplayedBeside(t, before, id);
      CapabilitiesMove(Fold(Reset(t), before), last);
      CapabilitiesMove(Fold(NO_TABLES, before), last);
      BesideNext(t.capabilities, Fold(Reset(t), before).capabilities, Fold(NO_TABLES, before).capabilities,
                 before, last, id);
      assert before + [last] == logs;
    }
  }

  /** The reset keeps the capability rows. After the replay a row is what a fresh index has if and
      only if the abandoned chain had left none, or the canonical one has withdrawn its bond,
      or it registers it and has each flag set after that, of those the old row or the replay set. */
  lemma CapabilityRebuiltIff(t: Tables, logs: seq<Log>, id: nat)
    ensures
      SameRow(Fold(Reset(t), logs).capabilities, Fold(NO_TABLES, logs).capabilities, id)
      <==> || id !in t.capabilities || Happens(logs, BondWithdrawn(id))
           || (&& (exists i :: Standing(logs, i, id))
               && (t.capabilities[id].certified || Happens(logs, CapabilityCertified(id)) ==>
                     Since(logs, id, CapabilityCertified(id)))
               && (t.capabilities[id].slashed || Happens(logs, CapabilitySlashed(id)) ==>
                     Since(logs, id, CapabilitySlashed(id))))
  {
    ReplayedBeside(t, logs, id);
    CapabilitiesTold(logs, id);
    SinceHappens(logs, id, CapabilityCertified(id));
    SinceHappens(logs, id, CapabilitySlashed(id));
  }

  lemma SinceHappens(logs: seq<Log>, id: nat, e: Event)
    ensures Since(logs, id, e) ==> Happens(logs, e)
  {
  }

  // ---- receipts ----

  /** Log `i` is the receipt of the completion, neither replaced, nor revoked, nor ruled away since. */
  predicate ReceiptStands(logs: seq<Log>, i: int, id: nat)
  {
    && 0 <= i < |logs| && logs[i].event.ReceiptAttested? && logs[i].event.id == id
    && forall j :: i < j < |logs| ==> !EndsReceipt(logs[j].event, id)
  }

  predicate EndsReceipt(e: Event, id: nat)
  {
    e == ReceiptRevoked(id) || e == ChallengeResolved(id, true) || (e.ReceiptAttested? && e.id == id)
  }

  ghost predicate ReceiptTold(receipts: map<nat, Receipt>, logs: seq<Log>, id: nat)
  {
    && (id in receipts ==> exists i :: ReceiptStands(logs, i, id) && receipts[id] == ReceiptOf(logs[i]))
    && (id !in receipts ==> forall i :: !ReceiptStands(logs, i, id))
  }

  function ReceiptOf(log: Log): Receipt
    requires log.event.ReceiptAttested?
  {
    Receipt(log.event.agent, log.event.counterparty, log.ts)
  }

  lemma ReceiptStandsNext(logs: seq<Log>, log: Log, i: int, id: nat)
    ensures ReceiptStands(logs + [log], i, id)
       <==> if i == |logs| then log.event.ReceiptAttested? && log.event.id == id
            else ReceiptStands(logs, i, id) && !EndsReceipt(log.event, id)
  {
    var more := logs + [log];
    assert more[|logs|] == log;
    if 0 <= i < |logs| {
      assert more[i] == logs[i];
      assert forall j :: i < j < |logs| ==> more[j] == logs[j];
    }
  }

  /** The row of one receipt before and after a log. */
  predicate ReceiptMoved(receipts: map<nat, Receipt>, receipts': map<nat, Receipt>, log: Log, id: nat)
  {
    if log.event.ReceiptAttested? && log.event.id == id then id in receipts' && receipts'[id] == ReceiptOf(log)
    else if EndsReceipt(log.event, id) then id !in receipts'
    else (id in receipts' <==> id in receipts) && (id in receipts' ==> receipts'[id] == receipts[id])
  }

  lemma ReceiptsMove(t: Tables, log: Log, id: nat)
    requires log.event.ChallengeResolved? && log.event.upheld ==> log.event.id in t.completions
    ensures ReceiptMoved(t.receipts, ApplyLog(t, log).receipts, log, id)
  {
    if Counts(log.event) {
      CountsKeep(t, log);
    } else {
      OthersMove(t, log);
    }
  }

  lemma ReceiptToldNext(receipts: map<nat, Receipt>, receipts': map<nat, Receipt>, logs: seq<Log>, log: Log, id: nat)
    requires ReceiptTold(receipts, logs, id) && ReceiptMoved(receipts, receipts', log, id)
    ensures ReceiptTold(receipts', logs + [log], id)
  {
    forall i
      ensures ReceiptStands(logs + [log], i, id)
         <==> if i == |logs| then log.event.ReceiptAttested? && log.event.id == id
              else ReceiptStands(logs, i, id) && !EndsReceipt(log.event, id)
    {
      ReceiptStandsNext(logs, log, i, id);
    }
    assert (logs + [log])[|logs|] == log;
    if id in receipts {
      var i :| ReceiptStands(logs, i, id) && receipts[id] == ReceiptOf(logs[i]);
      assert (logs + [log])[i] == logs[i];
    }
  }

  lemma ReceiptToldLast(receipts: map<nat, Receipt>, receipts': map<nat, Receipt>, logs: seq<Log>, id: nat)
    requires logs != [] && ReceiptTold(receipts, logs[..|logs| - 1], id)
    requires ReceiptMoved(receipts, receipts', logs[|logs| - 1], id)
    ensures ReceiptTold(receipts', logs, id)
  {
    assert logs == logs[..|logs| - 1] + [logs[|logs| - 1]];
    ReceiptToldNext(receipts, receipts', logs[..|logs| - 1], logs[|logs| - 1], id);
  }

  function ReceiptRows(logs: seq<Log>): map<nat, Receipt>
  {
    Fold(NO_TABLES, logs).receipts
  }

  lemma LastReceiptMoves(logs: seq<Log>, id: nat)
    requires LawfulLogs(logs) && logs != []
    ensures ReceiptMoved(ReceiptRows(logs[..|logs| - 1]), ReceiptRows(logs), logs[|logs| - 1], id)
  {
    var n := |logs| - 1;
    LawfulPrefix(logs);
    FreshOwners(logs[..n]);
    assert Lawful(ViewOf(logs[..n]), logs[n].event);
    ReceiptsMove(Fold(NO_TABLES, logs[..n]), logs[n], id);
  }

  /** After any lawful logs a completion has a receipt row if and only if its latest receipt was
      neither revoked nor ruled away since, and the row is that receipt. */
  lemma {:induction false} ReceiptsTold(logs: seq<Log>, id: nat)
    requires LawfulLogs(logs)
    ensures ReceiptTold(ReceiptRows(logs), logs, id)
  {
    if logs != [] {
      var before := logs[..|logs| - 1];
      LawfulPrefix(logs);
      ReceiptsTold(before, id);
      LastReceiptMoves(logs, id);
      ReceiptToldLast(ReceiptRows(before), ReceiptRows(logs), logs, id);
    }
  }

  // ---- identities ----

  predicate Registers(e: Event, a: Address)
  {
    e.AgentRegistered? && e.agent == a
  }

  ghost predicate IdentityTold(identity: map<Address, string>, logs: seq<Log>, a: Address)
  {
    && (a in identity <==> exists i :: 0 <= i < |logs| && Registers(logs[i].event, a))
    && (forall i :: 0 <= i < |logs| && Registers(logs[i].event, a)
                    && (forall j :: i < j < |logs| ==> !Registers(logs[j].event, a)) ==>
          a in identity && identity[a] == logs[i].event.metadataCID)
  }

  /** The identity before and after a log. */
  predicate IdentityMoved(identity: map<Address, string>, identity': map<Address, string>, log: Log, a: Address)
  {
    if Registers(log.event, a) then a in identity' && identity'[a] == log.event.metadataCID
    else (a in identity' <==> a in identity) && (a in identity' ==> identity'[a] == identity[a])
  }

  lemma IdentityToldNext(identity: map<Address, string>, identity': map<Address, string>, logs: seq<Log>, log: Log,
                         a: Address)
    requires IdentityTold(identity, logs, a) && IdentityMoved(identity, identity', log, a)
    ensures IdentityTold(identity', logs + [log], a)
  {
    var more := logs + [log];
    assert more[|logs|] == log && forall i :: 0 <= i < |logs| ==> more[i] == logs[i];
  }

  /** An agent's identity is the one it registered last. */
  lemma {:induction false} IdentityIsLatest(logs: seq<Log>, a: Address)
    ensures IdentityTold(Fold(NO_TABLES, logs).identity, logs, a)
  {
    if logs != [] {
      var before, last := logs[..|logs| - 1], logs[|logs| - 1];
      IdentityIsLatest(before, a);
      IdentityMoves(Fold(NO_TABLES, before), last, a);
      IdentityToldNext(Fold(NO_TABLES, before).identity, Fold(NO_TABLES, logs).identity, before, last, a);
      assert before + [last] == logs;
    }
  }

  lemma IdentityMoves(t: Tables, log: Log, a: Address)
    ensures IdentityMoved(t.identity, ApplyLog(t, log).identity, log, a)
  {
    if Counts(log.event) {
      CountsKeep(t, log);
    } else {
      OthersMove(t, log);
    }
  }

  // ---- alerts ----

  /** Which events are worth an alert, and under which name. */
  predicate Raises(e: Event, kind: string)
  {
    || (kind == "ChallengeSubmitted" && e.ChallengeSubmitted?)
    || (kind == "ChallengeResolved" && e.ChallengeResolved?)
    || (kind == "ChallengeCancelled" && e.ChallengeCancelled?)
    || (kind == "CapabilitySlashed" && e.CapabilitySlashed?)
    || (kind == "BondWithdrawn" && e.BondWithdrawn?)
    || (e.Notice? && e.kind == kind)
  }

  predicate IsAlert(r: Alert, kind: string, block: nat, tx: nat)
  {
    r.kind == kind && r.blockNumber == block && r.txHash == tx
  }

  predicate RaisedBy(log: Log, kind: string, block: nat, tx: nat)
  {
    log.block == block && log.key.tx == tx && Raises(log.event, kind)
  }

  ghost predicate AlertsSay(rows: seq<Alert>, logs: seq<Log>, kind: string, block: nat, tx: nat)
  {
    (exists r :: r in rows && IsAlert(r, kind, block, tx))
    <==> (exists log :: log in logs && RaisedBy(log, kind, block, tx))
  }

  lemma AlertsSayNext(t: Table, logs: seq<Log>, log: Log, kind: string, block: nat, tx: nat)
    requires AlertsSay(t.rows, logs, kind, block, tx)
    ensures AlertsSay(RaiseAlert(t, log).rows, logs + [log], kind, block, tx)
  {
    RaisesOne(log.event, kind);
    var raised, rows := AlertKind(log.event), RaiseAlert(t, log).rows;
    if raised.Some? {
      RecordAdds(t, raised.value, log.block, log.key.tx);
    }
    assert forall l :: l in logs + [log] <==> l in logs || l == log;
    if exists r :: r in t.rows && IsAlert(r, kind, block, tx) {
      var r :| r in t.rows && IsAlert(r, kind, block, tx);
      assert r in rows;
    }
    if RaisedBy(log, kind, block, tx) {
      var r :| r in rows && r.kind == kind && r.blockNumber == block && r.txHash == tx;
      assert IsAlert(r, kind, block, tx);
    }
  }

  lemma RaisesOne(e: Event, kind: string)
    ensures Raises(e, kind) <==> AlertKind(e) == Some(kind)
  {
  }

  /** From nothing, and with no retention, there is an alert of a kind for a transaction in a
      block if and only if one of its logs raises one of that kind, and there is only one. */
  lemma {:induction false} AlertsTold(logs: seq<Log>, kind: string, block: nat, tx: nat)
    ensures
      var rows := FoldAlerts(Table([], 0), logs).rows;
      && AlertsSay(rows, logs, kind, block, tx)
      && (forall r, s :: r in rows && s in rows && IsAlert(r, kind, block, tx) && IsAlert(s, kind, block, tx) ==>
            r == s)
  {
    FoldedOnce(logs);
    if logs != [] {
      var n := |logs| - 1;
      AlertsTold(logs[..n], kind, block, tx);
      AlertsSayNext(FoldAlerts(Table([], 0), logs[..n]), logs[..n], logs[n], kind, block, tx);
      assert logs[..n] + [logs[n]] == logs;
    }
  }

  lemma {:induction false} FoldedOnce(logs: seq<Log>)
    ensures Valid(FoldAlerts(Table([], 0), logs)) && EventsUnique(FoldAlerts(Table([], 0), logs).rows)
  {
    if logs != [] {
      var n := |logs| - 1;
      FoldedOnce(logs[..n]);
      var kind := AlertKind(logs[n].event);
      if kind.Some? {
        RecordValid(FoldAlerts(Table([], 0), logs[..n]), kind.value, logs[n].block, logs[n].key.tx);
      }
    }
  }

  // ---- counters on any logs at all ----

  /** No counter is below zero, and whoever has a receipt has a score row. */
  ghost predicate NothingNegative(t: Tables)
  {
    && (forall a :: a in t.scores ==> t.scores[a].confirmed >= 0)
    && (forall a :: a in t.diversity ==> t.diversity[a] >= 0)
    && (forall id :: id in t.receipts ==> t.receipts[id].agent in t.scores)
  }

  lemma UnconfirmNotNegative(t: Tables, id: nat, p: Pair, disputes: nat)
    requires NothingNegative(t) && (p.agent in t.scores || disputes > 0)
    ensures NothingNegative(Unconfirm(t, id, p, disputes, true))
  {
  }

  lemma AttestedNotNegative(t: Tables, id: nat, a: Address, ts: nat)
    requires NothingNegative(t)
    ensures NothingNegative(Attested(t, id, a, ts))
  {
  }

  lemma ConfirmedNotNegative(t: Tables, id: nat, p: Pair, ts: nat)
    requires NothingNegative(t)
    ensures NothingNegative(Confirmed(t, id, p, ts))
  {
  }

  lemma RevokedNotNegative(t: Tables, id: nat)
    requires NothingNegative(t)
    ensures NothingNegative(Revoked(t, id, true))
  {
    if id in t.receipts {
      UnconfirmNotNegative(t, id, Pair(t.receipts[id].agent, t.receipts[id].counterparty), 0);
    }
  }

  lemma DisputedNotNegative(t: Tables, id: nat)
    requires NothingNegative(t)
    ensures NothingNegative(Disputed(t, id, true))
  {
    if id in t.completions && id in t.receipts {
      UnconfirmNotNegative(t, id, Pair(t.completions[id], t.receipts[id].counterparty), 1);
    }
  }

  lemma SameNotNegative(t: Tables, t': Tables)
    requires NothingNegative(t) && SameCounters(t, t')
    ensures NothingNegative(t')
  {
  }

  lemma OneLogNotNegative(t: Tables, log: Log)
    requires NothingNegative(t)
    ensures NothingNegative(ApplyLog(t, log))
  {
    var e := log.event;
    if e.SelfAttested? {
      AttestedNotNegative(t, e.id, e.agent, log.ts);
    } else if e.ReceiptAttested? {
      ConfirmedNotNegative(t, e.id, Pair(e.agent, e.counterparty), log.ts);
    } else if e.ReceiptRevoked? {
      RevokedNotNegative(t, e.id);
    } else if e.ChallengeResolved? && e.upheld {
      DisputedNotNegative(t, e.id);
    } else {
      OtherLogs(t, log);
      SameNotNegative(t, ApplyLog(t, log));
    }
  }

  /** Whatever logs come, lawful or not, and over whatever a reset has left: no confirmed and no
      distinct counter ever falls below zero. */
  lemma {:induction false} NeverNegative(t: Tables, logs: seq<Log>)
    requires NothingNegative(t)
    ensures NothingNegative(Fold(t, logs)) && NothingNegative(Reset(Fold(t, logs)))
  {
    if logs != [] {
      NeverNegative(t, logs[..|logs| - 1]);
      OneLogNotNegative(Fold(t, logs[..|logs| - 1]), logs[|logs| - 1]);
    }
  }
}
