/** The tables the log indexer keeps, and what one log does to them. */
module IndexDb {

  import opened Parties
  import opened Arithmetic
  import opened Alerts

  datatype Address = Address(n: nat)

  datatype Scores = Scores(completions: int, confirmed: int, disputes: int, lastActivity: int)

  datatype Receipt = Receipt(agent: Address, counterparty: Address, ts: nat)

  /** An (agent, counterparty) key. */
  datatype Pair = Pair(agent: Address, counterparty: Address)

  datatype Capability = Capability(creator: Address, capabilityType: nat, certified: bool, slashed: bool)

  /** Everything denormalised from logs, except the alerts. */
  datatype Tables = Tables(
    scores: map<Address, Scores>,
    receipts: map<nat, Receipt>,
    identity: map<Address, string>,
    pairs: map<Pair, nat>,
    diversity: map<Address, int>,
    completions: map<nat, Address>,
    capabilities: map<nat, Capability>)

  const NO_TABLES := Tables(map[], map[], map[], map[], map[], map[], map[])

  datatype Event =
    | SelfAttested(id: nat, agent: Address)
    | ReceiptAttested(id: nat, agent: Address, counterparty: Address)
    | ReceiptRevoked(id: nat)
    | ChallengeSubmitted(id: nat)
    | ChallengeResolved(id: nat, upheld: bool)
    | ChallengeCancelled(id: nat)
    | AgentRegistered(agent: Address, metadataCID: string)
    | CapabilityRegistered(capabilityId: nat, creator: Address, capabilityType: nat)
    | CapabilityCertified(capabilityId: nat)
    | CapabilitySlashed(capabilityId: nat)
    | BondWithdrawn(capabilityId: nat)
    | Notice(kind: string)
    | Unparsed

  datatype LogKey = LogKey(tx: nat, index: nat)

  datatype Log = Log(block: nat, key: LogKey, ts: nat, event: Event)

  // ---- what each write does ----

  /** `clamp` says whether a lowered counter is held at zero, as the stored statements do. */
  function Lower(n: int, clamp: bool): int
  {
    if clamp then Max(0, n) else n
  }

  function Bump(scores: map<Address, Scores>, agent: Address, delta: Scores, clamp: bool): map<Address, Scores>
  {
    scores[agent :=
      if agent !in scores then delta
      else
        var s := scores[agent];
        Scores(s.completions + delta.completions, Lower(s.confirmed + delta.confirmed, clamp),
               s.disputes + delta.disputes, Max(s.lastActivity, delta.lastActivity))]
  }

  function PairCount(pairs: map<Pair, nat>, p: Pair): nat
  {
    if p in pairs then pairs[p] else 0
  }

  function Distinct(diversity: map<Address, int>, agent: Address): int
  {
    if agent in diversity then diversity[agent] else 0
  }

  function AddPair(pairs: map<Pair, nat>, p: Pair): map<Pair, nat>
  {
    pairs[p := PairCount(pairs, p) + 1]
  }

  /** A pair's first confirmation makes its counterparty distinct. */
  function AddDistinct(diversity: map<Address, int>, pairs: map<Pair, nat>, p: Pair): map<Address, int>
  {
    if PairCount(pairs, p) == 0 then diversity[p.agent := Distinct(diversity, p.agent) + 1] else diversity
  }

  function DropPair(pairs: map<Pair, nat>, p: Pair): map<Pair, nat>
  {
    if PairCount(pairs, p) >= 2 then pairs[p := PairCount(pairs, p) - 1] else pairs - {p}
  }

  function DropDistinct(diversity: map<Address, int>, pairs: map<Pair, nat>, p: Pair, clamp: bool): map<Address, int>
  {
    if PairCount(pairs, p) == 1 && p.agent in diversity
    then diversity[p.agent := Lower(diversity[p.agent] - 1, clamp)] else diversity
  }

  /** Take a confirmation back: the score, the pair count and the receipt row. */
  function Unconfirm(t: Tables, id: nat, p: Pair, disputes: int, clamp: bool): Tables
  {
    var scores := if disputes == 0 then t.scores else Bump(t.scores, p.agent, Scores(0, 0, disputes, 0), clamp);
    t.(scores := Bump(scores, p.agent, Scores(0, -1, 0, 0), clamp),
       pairs := DropPair(t.pairs, p),
       diversity := DropDistinct(t.diversity, t.pairs, p, clamp),
       receipts := t.receipts - {id})
  }

  function Attested(t: Tables, id: nat, agent: Address, ts: nat): Tables
  {
    t.(scores := Bump(t.scores, agent, Scores(1, 0, 0, ts), true),
       completions := if id in t.completions then t.completions else t.completions[id := agent])
  }

  function Confirmed(t: Tables, id: nat, p: Pair, ts: nat): Tables
  {
    t.(scores := Bump(t.scores, p.agent, Scores(0, 1, 0, ts), true),
       pairs := AddPair(t.pairs, p),
       diversity := AddDistinct(t.diversity, t.pairs, p),
       receipts := t.receipts[id := Receipt(p.agent, p.counterparty, ts)])
  }

  /** An upheld ruling counts a dispute against the completion's agent, and
      takes the confirmation back if there is one. */
  function Disputed(t: Tables, id: nat, clamp: bool): Tables
  {
    if id !in t.completions then t
    else if id in t.receipts then Unconfirm(t, id, Pair(t.completions[id], t.receipts[id].counterparty), 1, clamp)
    else t.(scores := Bump(t.scores, t.completions[id], Scores(0, 0, 1, 0), clamp))
  }

  function Revoked(t: Tables, id: nat, clamp: bool): Tables
  {
    if id in t.receipts then Unconfirm(t, id, Pair(t.receipts[id].agent, t.receipts[id].counterparty), 0, clamp) else t
  }

  function ApplyCapability(capabilities: map<nat, Capability>, e: Event): map<nat, Capability>
  {
    match e
    case CapabilityRegistered(id, creator, capabilityType) =>
      capabilities[id :=
        if id in capabilities then capabilities[id].(creator := creator, capabilityType := capabilityType)
        else Capability(creator, capabilityType, false, false)]
    case CapabilityCertified(id) =>
      if id in capabilities then capabilities[id := capabilities[id].(certified := true)] else capabilities
    case CapabilitySlashed(id) =>
      if id in capabilities then capabilities[id := capabilities[id].(slashed := true)] else capabilities
    case BondWithdrawn(id) => capabilities - {id}
    case _ => capabilities
  }

  /** What one log does to the derived tables. */
  function ApplyLog(t: Tables, log: Log, clamp: bool := true): Tables
  {
    match log.event
    case SelfAttested(id, agent) => Attested(t, id, agent, log.ts)
    case ReceiptAttested(id, agent, counterparty) => Confirmed(t, id, Pair(agent, counterparty), log.ts)
    case ReceiptRevoked(id) => Revoked(t, id, clamp)
    case ChallengeResolved(id, upheld) => if upheld then Disputed(t, id, clamp) else t
    case AgentRegistered(agent, metadataCID) => t.(identity := t.identity[agent := metadataCID])
    case _ => t.(capabilities := ApplyCapability(t.capabilities, log.event))
  }

  /** The alert a log raises, if any. */
  function AlertKind(e: Event): Option<string>
  {
    match e
    case ChallengeSubmitted(_) => Some("ChallengeSubmitted")
    case ChallengeResolved(_, _) => Some("ChallengeResolved")
    case ChallengeCancelled(_) => Some("ChallengeCancelled")
    case CapabilitySlashed(_) => Some("CapabilitySlashed")
    case BondWithdrawn(_) => Some("BondWithdrawn")
    case Notice(kind) => Some(kind)
    case _ => None
  }

  function RaiseAlert(alerts: Table, log: Log): Table
  {
    var kind := AlertKind(log.event);
    if kind.Some? then Record(alerts, kind.value, log.block, log.key.tx) else alerts
  }

  /** The alert table after every alert that `logs` raise, in order. */
  function FoldAlerts(alerts: Table, logs: seq<Log>): Table
  {
    if logs == [] then alerts else RaiseAlert(FoldAlerts(alerts, logs[..|logs| - 1]), logs[|logs| - 1])
  }

  /** The reference the index must agree with: all logs in order, each once. */
  function Fold(t: Tables, logs: seq<Log>): Tables
  {
    if logs == [] then t else ApplyLog(Fold(t, logs[..|logs| - 1]), logs[|logs| - 1])
  }

  /** The tables a reorg clears; the pair counts, diversity, completions and capabilities survive. */
  function Reset(t: Tables): Tables
  {
    t.(scores := map[], receipts := map[], identity := map[])
  }

  /** Markers within `keepBlocks` of `currentBlock`; pruning is off at zero, and
      until the chain is longer than the window. */
  function RecentMarkers(markers: map<LogKey, nat>, currentBlock: int, keepBlocks: int): map<LogKey, nat>
  {
    if keepBlocks <= 0 || currentBlock - keepBlocks <= 0 then markers
    else map k | k in markers && markers[k] >= currentBlock - keepBlocks :: markers[k]
  }

  // ---- the database object ----

  class Database {
    var scores: map<Address, Scores>
    var receipts: map<nat, Receipt>
    var identity: map<Address, string>
    var pairs: map<Pair, nat>
    var diversity: map<Address, int>
    var completions: map<nat, Address>
    var capabilities: map<nat, Capability>
    var markers: map<LogKey, nat>
    var lastBlock: Option<int>
    var lastHash: nat

    function Value(): Tables
      reads this
    {
      Tables(scores, receipts, identity, pairs, diversity, completions, capabilities)
    }

    constructor ()
      ensures Value() == NO_TABLES && markers == map[] && lastBlock == None && lastHash == 0
    {
      scores, receipts, identity, pairs, diversity := map[], map[], map[], map[], map[];
      completions, capabilities, markers := map[], map[], map[];
      lastBlock, lastHash := None, 0;
    }

    method BumpAgent(agent: Address, delta: Scores)
      modifies this`scores
      ensures scores == Bump(old(scores), agent, delta, true)
    {
      if agent !in scores {
        scores := scores[agent := delta];
      } else {
        var row := scores[agent];
        row := row.(completions := row.completions + delta.completions);
        row := row.(confirmed := Max(0, row.confirmed + delta.confirmed));
        row := row.(disputes := row.disputes + delta.disputes);
        row := row.(lastActivity := Max(row.lastActivity, delta.lastActivity));
        scores := scores[agent := row];
      }
    }

    /** One step up or down in the pair count, keeping the distinct count beside it. */
    method BumpCounterparty(agent: Address, counterparty: Address, up: bool)
      modifies this`pairs, this`diversity
      ensures var p := Pair(agent, counterparty);
        if up then pairs == AddPair(old(pairs), p) && diversity == AddDistinct(old(diversity), old(pairs), p)
        else pairs == DropPair(old(pairs), p) && diversity == DropDistinct(old(diversity), old(pairs), p, true)
    {
      var p := Pair(agent, counterparty);
      var current: int := if p in pairs then pairs[p] else 0;
      var next := if up then current + 1 else current - 1;
      if next <= 0 {
        pairs := pairs - {p};
        if current > 0 && agent in diversity {
          diversity := diversity[agent := Max(0, diversity[agent] - 1)];
        }
      } else {
        pairs := pairs[p := next];
        if current == 0 {
          diversity := diversity[agent := (if agent in diversity then diversity[agent] else 0) + 1];
        }
      }
    }

    method RecordIndexedCompletion(id: nat, agent: Address)
      modifies this`completions
      ensures completions == if id in old(completions) then old(completions) else old(completions)[id := agent]
    {
      if id !in completions {
        completions := completions[id := agent];
      }
    }

    method AddReceiptIndex(id: nat, agent: Address, counterparty: Address, ts: nat)
      modifies this`receipts
      ensures receipts == old(receipts)[id := Receipt(agent, counterparty, ts)]
    {
      receipts := receipts[id := Receipt(agent, counterparty, ts)];
    }

    method DeleteReceiptIndex(id: nat)
      modifies this`receipts
      ensures receipts == old(receipts) - {id}
    {
      receipts := receipts - {id};
    }

    /** The live receipt's agent and counterparty lose the confirmation. */
    method ApplyRevocation(id: nat)
      modifies this`scores, this`receipts, this`pairs, this`diversity
      ensures Value() == Revoked(old(Value()), id, true)
    {
      if id in receipts {
        var agent, counterparty := receipts[id].agent, receipts[id].counterparty;
        BumpAgent(agent, Scores(0, -1, 0, 0));
        BumpCounterparty(agent, counterparty, false);
      }
      ghost var known := id in old(receipts);
      DeleteReceiptIndex(id);
      assert !known ==> receipts == old(receipts);
    }

    /** The completion's agent gains a dispute and loses the confirmation, if there is one. */
    method ApplyUpheld(id: nat)
      modifies this`scores, this`receipts, this`pairs, this`diversity
      ensures Value() == Disputed(old(Value()), id, true)
    {
      if id in completions {
        var agent := completions[id];
        BumpAgent(agent, Scores(0, 0, 1, 0));
        if id in receipts {
          var counterparty := receipts[id].counterparty;
          BumpAgent(agent, Scores(0, -1, 0, 0));
          BumpCounterparty(agent, counterparty, false);
          DeleteReceiptIndex(id);
        }
      }
    }

    /** Apply one contract event, statement by statement. */
    method ApplyEvent(log: Log)
      modifies this`scores, this`receipts, this`identity, this`pairs, this`diversity, this`completions
      modifies this`capabilities
      ensures Value() == ApplyLog(old(Value()), log)
    {
      match log.event {
        case SelfAttested(id, agent) =>
          RecordIndexedCompletion(id, agent);
          BumpAgent(agent, Scores(1, 0, 0, log.ts));
        case ReceiptAttested(id, agent, counterparty) =>
          AddReceiptIndex(id, agent, counterparty, log.ts);
          BumpAgent(agent, Scores(0, 1, 0, log.ts));
          BumpCounterparty(agent, counterparty, true);
        case ReceiptRevoked(id) =>
          ApplyRevocation(id);
        case ChallengeResolved(id, upheld) =>
          if upheld {
            ApplyUpheld(id);
          }
        case AgentRegistered(agent, metadataCID) =>
          identity := identity[agent := metadataCID];
        case CapabilityRegistered(id, creator, capabilityType) =>
          if id in capabilities {
            capabilities := capabilities[id := capabilities[id].(creator := creator, capabilityType := capabilityType)];
          } else {
            capabilities := capabilities[id := Capability(creator, capabilityType, false, false)];
          }
        case CapabilityCertified(id) =>
          if id in capabilities {
            capabilities := capabilities[id := capabilities[id].(certified := true)];
          }
        case CapabilitySlashed(id) =>
          if id in capabilities {
            capabilities := capabilities[id := capabilities[id].(slashed := true)];
          }
        case BondWithdrawn(id) =>
          capabilities := capabilities - {id};
        case _ =>
      }
    }

    method MarkIndexed(log: Log)
      modifies this`markers
      ensures markers == if log.key in old(markers) then old(markers) else old(markers)[log.key := log.block]
    {
      if log.key !in markers {
        markers := markers[log.key := log.block];
      }
    }

    /** Drop the markers of blocks far enough behind `currentBlock`. */
    method PruneIndexedLogs(currentBlock: int, keepBlocks: int) returns (deleted: nat)
      modifies this`markers
      ensures markers == RecentMarkers(old(markers), currentBlock, keepBlocks)
      ensures forall k :: k in old(markers) ==>
                (k !in markers <==> keepBlocks > 0 && currentBlock > keepBlocks
                                    && old(markers)[k] < currentBlock - keepBlocks)
      ensures deleted == |old(markers)| - |markers|
    {
      deleted := 0;
      if keepBlocks <= 0 {
        return;
      }
      var cutoff := currentBlock - keepBlocks;
      if cutoff <= 0 {
        return;
      }
      var kept := map k | k in markers && markers[k] >= cutoff :: markers[k];
      FewerKeys(kept.Keys, markers.Keys);
      deleted := |markers| - |kept|;
      markers := kept;
    }

    /** Clear the tables a reorg rebuild replays into. */
    method ResetIndexerDerived()
      modifies this`scores, this`receipts, this`identity, this`markers
      ensures Value() == Reset(old(Value())) && markers == map[]
      ensures scores == map[] && receipts == map[] && identity == map[]
    {
      scores := map[];
      receipts := map[];
      identity := map[];
      markers := map[];
    }
  }

  lemma FewerKeys(a: set<LogKey>, b: set<LogKey>)
    requires a <= b
    ensures |a| <= |b|
  {
    assert b == a + (b - a);
  }
}
