/** Retention planning over the store's completion records, and the codec of the planned tombstones. */
module Planning {
  import opened Options
  import opened CentralProtocol
  import opened Tombstones

  datatype Mode = Central | Hybrid | InGuest

  datatype WorkStatus = Ready | Failed | Cleaned

  /** What the store reports of one completed execution; `lab` tells the execution family. */
  datatype Record = Record(
    task: Task,
    mode: Mode,
    status: WorkStatus,
    succeeded: bool,
    created: int,
    delivered: Option<int>,
    scratchAt: int,
    evidenceAt: Option<int>,
    jobs: seq<Text>,
    bundle: Option<Text>,
    lab: bool,
    barriers: seq<Text>,
    dispatch: Option<DispatchRecord>,
    results: seq<Text>)

  predicate TimesOk(r: Record)
  {
    && 0 <= r.created <= r.scratchAt
    && (r.delivered.Some? <==> r.evidenceAt.Some?)
    && (r.delivered.Some? ==> r.created <= r.delivered.value <= r.evidenceAt.value)
  }

  predicate CentralOk(r: Record)
  {
    && !r.lab && r.status == Cleaned
    && Unique(r.jobs) && AllDigests(r.jobs)
    && (r.bundle.Some? ==> IsDigest(r.bundle.value))
    && if r.succeeded then |r.jobs| == 3 && r.bundle.Some? else 1 <= |r.jobs| <= 3
  }

  /** The planner's own consistency check of a record. */
  predicate RecordOk(r: Record)
  {
    && Genuine(r.task)
    && TimesOk(r)
    && |r.results| == |r.jobs| && AllDigests(r.results)
    && if r.mode == Central then CentralOk(r)
       else if r.lab then r.status == Cleaned && LabOk(r.jobs, r.barriers, r.dispatch) && r.bundle.None?
       else r.jobs == [] && r.bundle.None?
  }

  // ----- planning

  function ScratchOf(r: Record): Tombstone
    requires RecordOk(r)
  {
    Tombstone(r.task, r.scratchAt,
              if r.lab then LabScratch(r.jobs, r.barriers, r.dispatch) else CentralScratch(r.jobs), r.results)
  }

  predicate EvidenceDue(r: Record, now: int)
  {
    !r.lab && r.delivered.Some? && r.evidenceAt.Some? && now >= r.evidenceAt.value && r.bundle.Some?
  }

  function EvidenceOf(r: Record): Tombstone
    requires RecordOk(r) && r.evidenceAt.Some? && r.bundle.Some?
  {
    Tombstone(r.task, r.evidenceAt.value, Evidence(r.bundle.value), r.results)
  }

  /** Scratch first; the bundle follows once its delivery is old enough. */
  function PlansOf(r: Record, now: int): seq<Tombstone>
  {
    if !RecordOk(r) || r.status != Cleaned || now < r.scratchAt || r.jobs == [] then []
    else if EvidenceDue(r, now) then [ScratchOf(r), EvidenceOf(r)]
    else [ScratchOf(r)]
  }

  function Pending(plans: seq<Tombstone>, completed: Tombstone -> bool): seq<Tombstone>
  {
    if plans == [] then []
    else (if completed(plans[0]) then [] else [plans[0]]) + Pending(plans[1..], completed)
  }

  /** Everything that the records call for and that is not completed. */
  function AllPlans(records: seq<Record>, now: int, completed: Tombstone -> bool): seq<Tombstone>
  {
    if records == [] then []
    else AllPlans(records[..|records| - 1], now, completed) + Pending(PlansOf(records[|records| - 1], now), completed)
  }

  function Take(plans: seq<Tombstone>, limit: nat): seq<Tombstone>
  {
    if |plans| <= limit then plans else plans[..limit]
  }

  /** The record is inconsistent or repeats an event. */
  predicate Offends(records: seq<Record>, i: nat)
    requires i < |records|
  {
    !RecordOk(records[i]) || exists k | 0 <= k < i :: records[k].task.event == records[i].task.event
  }

  /** The loop over the records; it stops as soon as the limit is reached. */
  method PlanRetention(records: seq<Record>, now: int, limit: nat, completed: Tombstone -> bool)
    returns (plans: Option<seq<Tombstone>>)
    requires 1 <= limit
    ensures plans.Some? ==> plans.value == Take(AllPlans(records, now, completed), limit)
    ensures plans.None? <==>
      exists i: nat :: i < |records| && Offends(records, i) && |AllPlans(records[..i], now, completed)| < limit
  {
    hide PlansOf, RecordOk, Pending;
    var found: seq<Tombstone> := [];
    var seen: set<Text> := {};
    for i := 0 to |records|
      invariant found == AllPlans(records[..i], now, completed) && |found| < limit
      invariant forall e :: e in seen <==> exists k | 0 <= k < i :: records[k].task.event == e
      invariant forall k | 0 <= k < i :: !Offends(records, k)
    {
      var r := records[i];
      if !RecordOk(r) || r.task.event in seen {
        assert Offends(records, i);
        return None;
      }
      seen := seen + {r.task.event};
      found := found + Pending(PlansOf(r, now), completed);
      assert records[..i + 1][..i] == records[..i];
      if |found| >= limit {
        StopsHere(records, now, limit, completed, i);
        return Some(found[..limit]);
      }
    }
    assert records[..|records|] == records;
    NoneOffends(records, now, limit, completed);
    return Some(found);
  }

  lemma NoneOffends(records: seq<Record>, now: int, limit: nat, completed: Tombstone -> bool)
    requires forall k | 0 <= k < |records| :: !Offends(records, k)
    ensures !exists i: nat :: i < |records| && Offends(records, i) && |AllPlans(records[..i], now, completed)| < limit
  {
  }

  /** Plans only grow with the records. */
  lemma {:induction false} PlansGrow(records: seq<Record>, i: nat, now: int, completed: Tombstone -> bool)
    requires i <= |records|
    ensures AllPlans(records[..i], now, completed) <= AllPlans(records, now, completed)
    decreases |records| - i
  {
    if i == |records| {
      assert records[..i] == records;
    } else {
      assert records[..i + 1][..i] == records[..i];
      PlansGrow(records, i + 1, now, completed);
    }
  }

  lemma {:induction false} StopsHere(records: seq<Record>, now: int, limit: nat, completed: Tombstone -> bool, i: nat)
    requires i < |records| && |AllPlans(records[..i + 1], now, completed)| >= limit
    requires forall k | 0 <= k <= i :: !Offends(records, k)
    ensures AllPlans(records[..i + 1], now, completed)[..limit] == Take(AllPlans(records, now, completed), limit)
    ensures !exists k: nat :: k < |records| && Offends(records, k) && |AllPlans(records[..k], now, completed)| < limit
  {
    hide PlansOf, RecordOk, Pending, Offends;
    PlansGrow(records, i + 1, now, completed);
    forall k: nat | i < k < |records| ensures |AllPlans(records[..k], now, completed)| >= limit {
      PlansGrow(records[..k], i + 1, now, completed);
      assert records[..k][..i + 1] == records[..i + 1];
    }
  }

  // ----- what is planned, and when

  /** Every plan is a tombstone that its decoder accepts, and due; scratch comes first. */
  lemma PlansAreWellFormed(r: Record, now: int)
    ensures forall t | t in PlansOf(r, now) ::
      WellFormed(t) && t.task == r.task && t.eligibleAt as int <= now
    ensures PlansOf(r, now) != [] ==> !PlansOf(r, now)[0].target.Evidence?
    ensures forall i | 0 < i < |PlansOf(r, now)| :: PlansOf(r, now)[i].target.Evidence?
  {
  }

  /** A record of the store with the ages that its query was asked for. */
  predicate Aged(r: Record, scratchTtl: nat, evidenceTtl: nat)
  {
    && r.scratchAt == r.created + scratchTtl
    && (r.delivered.Some? ==> r.evidenceAt == Some(r.delivered.value + evidenceTtl))
  }

  /** No scratch before the scratch age of the execution, no bundle before the evidence age of its delivery. */
  lemma PlansRespectAges(r: Record, now: int, scratchTtl: nat, evidenceTtl: nat, t: Tombstone)
    requires Aged(r, scratchTtl, evidenceTtl) && t in PlansOf(r, now)
    ensures if t.target.Evidence? then r.delivered.Some? && t.eligibleAt as int == r.delivered.value + evidenceTtl
            else t.eligibleAt as int == r.created + scratchTtl
    ensures t.eligibleAt as int <= now
  {
  }

  // ----- the codec

  datatype Word = Prepared | Committed | Scratch | EvidencePhase | Lab | CentralFamily

  datatype Key =
    | StateKey | TombstoneId | EventKey | TaskKey | RevisionDigest | TargetPhase | EligibleAt | JobIds
    | BundleDigest | ResultDigests | ExecutionFamily | BarrierIds | DispatchId | DispatchDigest | CommittedAt

  /** The values of a canonical metadata record; a digest of fields stands for itself. */
  datatype Json =
    | Word(word: Word)
    | String(text: Text)
    | Number(number: int)
    | List(items: seq<Text>)
    | Null
    | Hash(of: map<Key, Json>)

  type Fields = map<Key, Json>

  function Optional(t: Option<Text>): Json
  {
    if t.Some? then String(t.value) else Null
  }

  function PhaseOf(t: Tombstone): Word
  {
    if t.target.Evidence? then EvidencePhase else Scratch
  }

  function BundleOf(t: Tombstone): Option<Text>
  {
    if t.target.Evidence? then Some(t.target.bundle) else None
  }

  function CommonFields(t: Tombstone): Fields
  {
    map[EventKey := String(t.task.event), TaskKey := String(t.task.key), RevisionDigest := String(t.task.revision),
        TargetPhase := Word(PhaseOf(t)), EligibleAt := Number(t.eligibleAt), JobIds := List(t.Jobs()),
        BundleDigest := Optional(BundleOf(t)), ResultDigests := List(t.results)]
  }

  function LabFields(barriers: seq<Text>, dispatch: Option<DispatchRecord>): Fields
  {
    map[ExecutionFamily := Word(Lab), BarrierIds := List(barriers),
        DispatchId := if dispatch.Some? then String(dispatch.value.id) else Null,
        DispatchDigest := if dispatch.Some? then String(dispatch.value.digest) else Null]
  }

  /** The fields that the tombstone's identifier is the digest of. */
  function IdentityFields(t: Tombstone): Fields
  {
    if t.target.LabScratch? then CommonFields(t) + LabFields(t.target.barriers, t.target.dispatch) else CommonFields(t)
  }

  function Encode(t: Tombstone): Fields
  {
    IdentityFields(t)[TombstoneId := Hash(IdentityFields(t))][StateKey := Word(Prepared)]
  }

  const COMMON_KEYS := {EventKey, TaskKey, RevisionDigest, TargetPhase, EligibleAt, JobIds, BundleDigest, ResultDigests}

  const LAB_KEYS := {ExecutionFamily, BarrierIds, DispatchId, DispatchDigest}

  predicate KeysOk(m: Fields)
  {
    m.Keys == COMMON_KEYS + {TombstoneId, StateKey} || m.Keys == COMMON_KEYS + LAB_KEYS + {TombstoneId, StateKey}
  }

  predicate CommonShapeOk(m: Fields)
    requires KeysOk(m)
  {
    && m[StateKey] == Word(Prepared)
    && m[EventKey].String? && m[TaskKey].String? && m[RevisionDigest].String?
    && m[TargetPhase].Word? && m[EligibleAt].Number? && m[EligibleAt].number >= 0
    && m[JobIds].List? && m[ResultDigests].List?
    && (m[BundleDigest].String? || m[BundleDigest].Null?)
  }

  predicate LabShapeOk(m: Fields)
    requires KeysOk(m) && ExecutionFamily in m
  {
    && m[ExecutionFamily].Word? && m[BarrierIds].List?
    && (m[DispatchId].String? || m[DispatchId].Null?)
    && (m[DispatchDigest].String? || m[DispatchDigest].Null?)
    && (m[DispatchId].Null? <==> m[DispatchDigest].Null?)
  }

  predicate ShapeOk(m: Fields)
  {
    KeysOk(m) && CommonShapeOk(m) && (ExecutionFamily in m ==> LabShapeOk(m))
  }

  function DispatchIn(m: Fields): Option<DispatchRecord>
    requires ShapeOk(m) && ExecutionFamily in m
  {
    if m[DispatchId].String? then Some(DispatchRecord(m[DispatchId].text, m[DispatchDigest].text)) else None
  }

  function TargetIn(m: Fields): Option<Target>
    requires ShapeOk(m)
  {
    if ExecutionFamily in m then
      if m[ExecutionFamily] == Word(Lab) && m[TargetPhase] == Word(Scratch) && m[BundleDigest].Null? then
        Some(LabScratch(m[JobIds].items, m[BarrierIds].items, DispatchIn(m)))
      else None
    else if m[TargetPhase] == Word(Scratch) then
      if m[BundleDigest].Null? then Some(CentralScratch(m[JobIds].items)) else None
    else if m[TargetPhase] == Word(EvidencePhase) && m[BundleDigest].String? && m[JobIds].items == [] then
      Some(Evidence(m[BundleDigest].text))
    else None
  }

  /** The tombstone that the fields spell out, whatever its identifier says. */
  function Read(m: Fields): Option<Tombstone>
  {
    if !ShapeOk(m) || TargetIn(m).None? then None
    else
      Some(Tombstone(Task(m[EventKey].text, m[TaskKey].text, m[RevisionDigest].text), m[EligibleAt].number,
                     TargetIn(m).value, m[ResultDigests].items))
  }

  /** Decoding checks the shape, every field, both identities, and that the text was canonical. */
  function Decode(m: Fields): Option<Tombstone>
  {
    var t := Read(m);
    if t.Some? && WellFormed(t.value) && m[TombstoneId] == Hash(IdentityFields(t.value)) && Encode(t.value) == m then t
    else None
  }

  lemma KeepsCommon(t: Tombstone, k: Key)
    requires k in COMMON_KEYS
    ensures k in Encode(t) && Encode(t)[k] == CommonFields(t)[k]
  {
  }

  lemma KeepsLab(t: Tombstone, k: Key)
    requires t.target.LabScratch? && k in LAB_KEYS
    ensures k in Encode(t) && Encode(t)[k] == LabFields(t.target.barriers, t.target.dispatch)[k]
  {
  }

  lemma EncodedKeys(t: Tombstone)
    ensures KeysOk(Encode(t))
    ensures ExecutionFamily in Encode(t) <==> t.target.LabScratch?
    ensures Encode(t)[StateKey] == Word(Prepared)
  {
    var m := Encode(t);
    if t.target.LabScratch? {
      assert m.Keys == COMMON_KEYS + LAB_KEYS + {TombstoneId, StateKey};
    } else {
      assert m.Keys == COMMON_KEYS + {TombstoneId, StateKey};
    }
  }

  lemma EncodedCommon(t: Tombstone)
    ensures KeysOk(Encode(t)) && CommonShapeOk(Encode(t))
    ensures forall k | k in COMMON_KEYS :: k in Encode(t) && Encode(t)[k] == CommonFields(t)[k]
  {
    EncodedKeys(t);
    forall k | k in COMMON_KEYS ensures k in Encode(t) && Encode(t)[k] == CommonFields(t)[k] { KeepsCommon(t, k); }
    hide Encode, IdentityFields, KeysOk;
  }

  lemma EncodedLab(t: Tombstone)
    requires t.target.LabScratch?
    ensures ShapeOk(Encode(t)) && TargetIn(Encode(t)) == Some(t.target)
  {
    var m, lab := Encode(t), LabFields(t.target.barriers, t.target.dispatch);
    EncodedKeys(t);
    EncodedCommon(t);
    forall k | k in LAB_KEYS ensures k in m && m[k] == lab[k] { KeepsLab(t, k); }
    hide Encode, IdentityFields, KeysOk, CommonShapeOk;
    assert m[BarrierIds] == List(t.target.barriers) && m[ExecutionFamily] == Word(Lab);
    assert m[DispatchId] == lab[DispatchId] && m[DispatchDigest] == lab[DispatchDigest];
    assert LabShapeOk(m);
    assert m[TargetPhase] == Word(Scratch) && m[BundleDigest] == Null && m[JobIds] == List(t.target.jobs);
  }

  lemma EncodedCentral(t: Tombstone)
    requires !t.target.LabScratch?
    ensures ShapeOk(Encode(t)) && TargetIn(Encode(t)) == Some(t.target)
  {
    EncodedKeys(t);
    EncodedCommon(t);
    hide Encode, IdentityFields, KeysOk, CommonShapeOk;
  }

  lemma ReadsItsFields(t: Tombstone)
    ensures Read(Encode(t)) == Some(t)
  {
    var m := Encode(t);
    if t.target.LabScratch? { EncodedLab(t); } else { EncodedCentral(t); }
    EncodedCommon(t);
    hide Encode, IdentityFields, TargetIn, ShapeOk;
  }

  /** A tombstone survives encoding exactly if it is well formed, and nothing else decodes. */
  lemma RoundTrip(t: Tombstone)
    ensures WellFormed(t) ==> Decode(Encode(t)) == Some(t)
    ensures forall m | Decode(m) == Some(t) :: m == Encode(t) && WellFormed(t)
  {
    if WellFormed(t) { ReadsItsFields(t); }
  }

  /** Every planned tombstone survives its codec unchanged. */
  lemma PlansSurvive(r: Record, now: int, t: Tombstone)
    requires t in PlansOf(r, now)
    ensures Decode(Encode(t)) == Some(t)
  {
    PlansAreWellFormed(r, now);
    RoundTrip(t);
  }

  /** Two well-formed tombstones with the same identifier are the same tombstone. */
  lemma IdentifierFixesTombstone(t: Tombstone, u: Tombstone)
    requires WellFormed(t) && WellFormed(u) && Encode(t)[TombstoneId] == Encode(u)[TombstoneId]
    ensures t == u
  {
    assert IdentityFields(t) == IdentityFields(u);
    assert Encode(t) == Encode(u);
    RoundTrip(t);
    RoundTrip(u);
  }
}
