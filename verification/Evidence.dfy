/** The immutable evidence registry, and what one observation's evidence entitles it to. */
module Evidence {
  import opened Prelude

  datatype Outcome =
    | Pass | Success | VerifiedOutcome | ApprovedOutcome
    | Fail | FailedOutcome | ErrorOutcome | Rejected
    | OtherOutcome(text: string)

  datatype Record = Record(id: string, project: string, objective: string, kind: string, outcome: Outcome,
                           source: string,
                           observedAt: int, expiresAt: int, actor: string, independent: bool, humanApproval: bool,
                           contradictory: bool, ledgerHash: Option<string>)

  /** The states an observation can claim; any other text is unknown. */
  datatype State = Unverified | Verified | Approved | Released | Hold | Failed | UnknownState(text: string)

  datatype Observation = Observation(project: string, objective: string, state: State, evidence: seq<string>,
                                     observedAt: int, dependencies: seq<string>, production: bool)

  datatype RegistryError = EvidenceIdRequired | EvidenceIdCollision

  // ---- The registry ----------------------------------------------------------------------

  /** Every record is filed under its own id with its own digest. */
  ghost predicate Filed(records: map<string, Record>, digests: map<string, string>, digest: Record -> string) {
    && records.Keys == digests.Keys
    && forall id :: id in records ==> id != "" && records[id].id == id && digests[id] == digest(records[id])
  }

  class EvidenceRegistry {
    const digest: Record -> string
    var records: map<string, Record>
    var digests: map<string, string>

    ghost predicate Valid() reads this {
      Filed(records, digests, digest)
    }

    constructor (digest: Record -> string)
      ensures Valid() && records == map[] && this.digest == digest
    {
      this.digest := digest;
      records, digests := map[], map[];
    }

    /** An id is filed once. A record whose digest differs from the one filed is refused; any other answer is
        the record filed first, which is the one offered unless the two digests collide. */
    method Register(record: Record) returns (r: Result<Record, RegistryError>)
      requires Valid()
      modifies this
      ensures Valid()
      ensures record.id == "" ==> r == Err(EvidenceIdRequired)
      ensures record.id != "" ==>
        (r == Err(EvidenceIdCollision) <==>
          record.id in old(records) && digest(old(records)[record.id]) != digest(record))
      ensures record.id != "" && r.Err? ==> r.error == EvidenceIdCollision
      ensures records == Registered(old(records), record)
      ensures r.Ok? ==> records[record.id] == r.value
      ensures r.Ok? && r.value != record ==> digest(r.value) == digest(record)
    {
      if record.id == "" {
        return Err(EvidenceIdRequired);
      }
      var d := digest(record);
      if record.id in digests && digests[record.id] != d {
        return Err(EvidenceIdCollision);
      }
      if record.id !in records {
        records := records[record.id := record];
      }
      if record.id !in digests {
        digests := digests[record.id := d];
      }
      r := Ok(records[record.id]);
    }

    function Get(id: string): (r: Option<Record>)
      reads this
    {
      if id in records then Some(records[id]) else None
    }
  }

  /** One registration, on the records alone. */
  function Registered(records: map<string, Record>, record: Record): map<string, Record> {
    if record.id == "" || record.id in records then records else records[record.id := record]
  }

  function RegisterAll(offered: seq<Record>): map<string, Record> {
    if offered == [] then map[]
    else Registered(RegisterAll(offered[..|offered| - 1]), offered[|offered| - 1])
  }

  /** Over any run of registrations, an id answers for ever with the first record offered under it. */
  lemma {:induction false} FirstRecordStays(offered: seq<Record>, id: string)
    ensures id in RegisterAll(offered) <==> id != "" && exists i :: 0 <= i < |offered| && offered[i].id == id
    ensures id in RegisterAll(offered) ==>
      exists i :: 0 <= i < |offered| && RegisterAll(offered)[id] == offered[i] && IsFirst(offered, i, id)
  {
    if offered == [] {
    } else {
      var k := |offered| - 1;
      FirstRecordStays(offered[..k], id);
      var before := RegisterAll(offered[..k]);
      if id in before {
        var i :| 0 <= i < k && before[id] == offered[..k][i] && IsFirst(offered[..k], i, id);
        assert RegisterAll(offered)[id] == offered[i] && IsFirst(offered, i, id);
      } else if id != "" && offered[k].id == id {
        forall j | 0 <= j < k ensures offered[j].id != id {
          assert offered[..k][j] == offered[j];
        }
        assert RegisterAll(offered)[id] == offered[k] && IsFirst(offered, k, id);
      }
    }
  }

  ghost predicate IsFirst(offered: seq<Record>, i: int, id: string) {
    0 <= i < |offered| && offered[i].id == id && forall j :: 0 <= j < i ==> offered[j].id != id
  }

  // ---- One observation -------------------------------------------------------------------

  datatype Reason =
    | UnknownProjectState | ProjectAndObjectiveRequired | EvidenceRequired | LedgerIntegrityFailed
    | UnregisteredEvidence | EvidenceScopeMismatch | EvidenceProvenanceRequired | ContradictoryEvidence
    | StaleEvidence | FutureEvidenceTimestamp | EvidenceNotLedgerBound | FailEvidencePresent
    | EvidenceResultNotTrusted | IndependentValidationRequired | HumanApprovalEvidenceRequired
    | ProductionReleaseHumanOnly | EvidenceBoundState | ConflictingProjectObservations | DependencyNotReady

  datatype Decision = Decision(status: State, reason: Reason, dependency: Option<string>)

  /** What the event ledger contributes: whether it verifies, and the hashes of its events. */
  datatype Ledger = Ledger(verifies: bool, hashes: set<string>)

  /** The world an observation is judged in. */
  datatype World = World(records: map<string, Record>, ledger: Ledger, now: int)

  function OnHold(reason: Reason): Decision {
    Decision(Hold, reason, None)
  }

  predicate IsFailure(o: Outcome) {
    o == Fail || o == FailedOutcome || o == ErrorOutcome || o == Rejected
  }

  predicate IsSuccess(o: Outcome) {
    o == Pass || o == Success || o == VerifiedOutcome || o == ApprovedOutcome
  }

  predicate Binds(r: Record, w: World) {
    r.ledgerHash.Some? && r.ledgerHash.value != "" && r.ledgerHash.value in w.ledger.hashes
  }

  /** The record is in scope, sourced, uncontradicted, current, ledger-bound and does not report a failure. */
  predicate Undisputed(o: Observation, r: Record, w: World) {
    && r.project == o.project && r.objective == o.objective && r.source != "" && !r.contradictory
    && r.observedAt <= w.now <= r.expiresAt && Binds(r, w)
    && r.outcome != Fail && r.outcome != FailedOutcome && r.outcome != ErrorOutcome && r.outcome != Rejected
  }

  /** What each complaint is about; only a reported failure fails the project, any other holds it. */
  predicate ComplainsOf(o: Observation, id: string, w: World, d: Decision) {
    if id !in w.records then d.reason == UnregisteredEvidence && d.status == Hold
    else
      var r := w.records[id];
      var inScope := r.project == o.project && r.objective == o.objective;
      var sound := inScope && r.source != "" && !r.contradictory;
      match d.reason
      case EvidenceScopeMismatch => d.status == Hold && !inScope
      case EvidenceProvenanceRequired => d.status == Hold && inScope && r.source == ""
      case ContradictoryEvidence => d.status == Hold && inScope && r.source != "" && r.contradictory
      case StaleEvidence => d.status == Hold && sound && r.expiresAt < w.now
      case FutureEvidenceTimestamp => d.status == Hold && sound && w.now <= r.expiresAt && w.now < r.observedAt
      case EvidenceNotLedgerBound => d.status == Hold && sound && r.observedAt <= w.now <= r.expiresAt && !Binds(r, w)
      case FailEvidencePresent =>
        && d.status == Failed && sound && r.observedAt <= w.now <= r.expiresAt && Binds(r, w)
        && (r.outcome == Fail || r.outcome == FailedOutcome || r.outcome == ErrorOutcome || r.outcome == Rejected)
      case _ => false
  }

  /** What is wrong with one piece of evidence, in the order it is looked for. */
  function Complaint(o: Observation, id: string, w: World): (d: Option<Decision>)
    ensures d.None? <==> id in w.records && Undisputed(o, w.records[id], w)
    ensures d.Some? ==> d.value.dependency.None? && ComplainsOf(o, id, w, d.value)
  {
    if id !in w.records then Some(OnHold(UnregisteredEvidence))
    else
      var r := w.records[id];
      if r.project != o.project || r.objective != o.objective then Some(OnHold(EvidenceScopeMismatch))
      else if r.source == "" then Some(OnHold(EvidenceProvenanceRequired))
      else if r.contradictory then Some(OnHold(ContradictoryEvidence))
      else if r.expiresAt < w.now then Some(OnHold(StaleEvidence))
      else if r.observedAt > w.now then Some(OnHold(FutureEvidenceTimestamp))
      else if r.ledgerHash.None? || r.ledgerHash.value == "" || r.ledgerHash.value !in w.ledger.hashes then
        Some(OnHold(EvidenceNotLedgerBound))
      else if IsFailure(r.outcome) then Some(Decision(Failed, FailEvidencePresent, None))
      else None
  }

  /** Evidence `id` is registered, in scope, sourced, uncontradicted, current, ledger-bound and successful. */
  predicate Supports(o: Observation, id: string, w: World) {
    && id in w.records
    && var r := w.records[id];
      && r.project == o.project && r.objective == o.objective && r.source != "" && !r.contradictory
      && r.observedAt <= w.now <= r.expiresAt
      && (r.outcome == Pass || r.outcome == Success || r.outcome == VerifiedOutcome || r.outcome == ApprovedOutcome)
      && r.ledgerHash.Some? && r.ledgerHash.value != "" && r.ledgerHash.value in w.ledger.hashes
  }

  predicate Untrusted(r: Record)
    ensures Untrusted(r) <==>
      r.outcome != Pass && r.outcome != Success && r.outcome != VerifiedOutcome && r.outcome != ApprovedOutcome
  {
    !IsSuccess(r.outcome)
  }

  predicate Independent(r: Record) {
    r.independent
  }

  predicate Human(r: Record) {
    r.humanApproval
  }

  predicate NeedsIndependence(s: State) {
    s == Verified || s == Approved || s == Released
  }

  predicate NeedsHuman(s: State) {
    s == Approved || s == Released
  }

  /** What the observation's evidence would have to be for its claimed state to stand. */
  ghost predicate Earns(o: Observation, w: World) {
    && !o.state.UnknownState? && o.project != "" && o.objective != "" && o.evidence != [] && w.ledger.verifies
    && (forall i :: 0 <= i < |o.evidence| ==> Supports(o, o.evidence[i], w))
    && (o.state == Verified || o.state == Approved || o.state == Released ==>
          exists i :: 0 <= i < |o.evidence| && w.records[o.evidence[i]].independent)
    && (o.state == Approved || o.state == Released ==>
          exists i :: 0 <= i < |o.evidence| && w.records[o.evidence[i]].humanApproval)
  }

  /** The first complaint about the evidence from the `i`-th piece on. */
  function Scan(o: Observation, w: World, i: nat): Option<Decision>
    requires i <= |o.evidence|
    decreases |o.evidence| - i
  {
    if i == |o.evidence| then None
    else
      var complaint := Complaint(o, o.evidence[i], w);
      if complaint.Some? then complaint else Scan(o, w, i + 1)
  }

  /** From the `i`-th piece of evidence on, the first with a complaint is the `k`-th. */
  ghost predicate FirstComplaint(o: Observation, w: World, i: nat, k: nat) {
    && i <= k < |o.evidence| && Complaint(o, o.evidence[k], w).Some?
    && forall j :: i <= j < k ==> Complaint(o, o.evidence[j], w).None?
  }

  function Judged(o: Observation, w: World): Decision {
    if o.state.UnknownState? then OnHold(UnknownProjectState)
    else if o.project == "" || o.objective == "" then OnHold(ProjectAndObjectiveRequired)
    else if o.evidence == [] then OnHold(EvidenceRequired)
    else if !w.ledger.verifies then OnHold(LedgerIntegrityFailed)
    else
      var complaint := Scan(o, w, 0);
      if complaint.Some? then complaint.value else Weighed(o, Records(o.evidence, w.records))
  }

  /** The records of the evidence that is registered, in order. */
  function Records(ids: seq<string>, records: map<string, Record>): seq<Record> {
    if ids == [] then []
    else
      var id := ids[|ids| - 1];
      Records(ids[..|ids| - 1], records) + if id in records then [records[id]] else []
  }

  /** What evidence without complaint, taken together, makes of the claimed state. */
  function Weighed(o: Observation, records: seq<Record>): Decision {
    if exists r :: r in records && Untrusted(r) then OnHold(EvidenceResultNotTrusted)
    else if NeedsIndependence(o.state) && !(exists r :: r in records && Independent(r)) then
      OnHold(IndependentValidationRequired)
    else if NeedsHuman(o.state) && !exists r :: r in records && Human(r) then OnHold(HumanApprovalEvidenceRequired)
    else if o.production && o.state == Released && !exists r :: r in records && Human(r) then
      OnHold(ProductionReleaseHumanOnly)
    else Decision(o.state, EvidenceBoundState, None)
  }

  lemma {:induction false} RecordsSpec(ids: seq<string>, records: map<string, Record>, r: Record)
    ensures r in Records(ids, records) <==> exists i :: 0 <= i < |ids| && ids[i] in records && records[ids[i]] == r
  {
    if ids == [] {
    } else {
      var k := |ids| - 1;
      RecordsSpec(ids[..k], records, r);
      assert forall i :: 0 <= i < k ==> ids[..k][i] == ids[i];
      assert r in Records(ids, records) <==>
        r in Records(ids[..k], records) || (ids[k] in records && records[ids[k]] == r);
    }
  }

  lemma {:induction false} ScanSpec(o: Observation, w: World, i: nat)
    requires i <= |o.evidence|
    ensures Scan(o, w, i).None? <==> forall j :: i <= j < |o.evidence| ==> Complaint(o, o.evidence[j], w).None?
    ensures forall k: nat :: FirstComplaint(o, w, i, k) ==> Scan(o, w, i) == Complaint(o, o.evidence[k], w)
    ensures Scan(o, w, i).Some? ==> exists k: nat :: FirstComplaint(o, w, i, k)
    decreases |o.evidence| - i
  {
    if i < |o.evidence| {
      if Complaint(o, o.evidence[i], w).None? {
        ScanSpec(o, w, i + 1);
        if Scan(o, w, i).Some? {
          var k: nat :| FirstComplaint(o, w, i + 1, k);
          assert FirstComplaint(o, w, i, k);
        }
      } else {
        assert FirstComplaint(o, w, i, i);
      }
    }
  }

  /** The claimed state stands exactly when it is earned; otherwise the project is held, or failed by a piece of
      failing evidence. The production check never decides: the human check has spoken before it. */
  lemma StandsWhenEarned(o: Observation, w: World)
    ensures Judged(o, w).reason == EvidenceBoundState <==> Earns(o, w)
    ensures Earns(o, w) ==> Judged(o, w) == Decision(o.state, EvidenceBoundState, None)
    ensures !Earns(o, w) ==>
      Judged(o, w).status == Hold || (Judged(o, w).status == Failed && Judged(o, w).reason == FailEvidencePresent)
    ensures Judged(o, w).reason != ProductionReleaseHumanOnly
  {
    if !o.state.UnknownState? && o.project != "" && o.objective != "" && o.evidence != [] && w.ledger.verifies {
      ScanSpec(o, w, 0);
      if Scan(o, w, 0).None? {
        WeighedSpec(o, w);
      } else {
        var k: nat :| FirstComplaint(o, w, 0, k);
        assert !Supports(o, o.evidence[k], w);
        ComplaintHolds(o, o.evidence[k], w);
      }
    }
  }

  /** The observation names a known state, a project and an objective. */
  predicate StatesItsCase(o: Observation) {
    !o.state.UnknownState? && o.project != "" && o.objective != ""
  }

  /** Nothing stands in the way of weighing the evidence together. */
  ghost predicate ToBeWeighed(o: Observation, w: World) {
    && StatesItsCase(o) && o.evidence != [] && w.ledger.verifies
    && forall i :: 0 <= i < |o.evidence| ==>
         o.evidence[i] in w.records && Undisputed(o, w.records[o.evidence[i]], w)
  }

  /** Every reason to hold that is not about a single piece of evidence: something is missing altogether. */
  lemma HeldForLack(o: Observation, w: World)
    ensures Judged(o, w) == OnHold(UnknownProjectState) <==> o.state.UnknownState?
    ensures Judged(o, w) == OnHold(ProjectAndObjectiveRequired) <==>
      !o.state.UnknownState? && (o.project == "" || o.objective == "")
    ensures Judged(o, w) == OnHold(EvidenceRequired) <==> StatesItsCase(o) && o.evidence == []
    ensures Judged(o, w) == OnHold(LedgerIntegrityFailed) <==>
      StatesItsCase(o) && o.evidence != [] && !w.ledger.verifies
  {
    if StatesItsCase(o) && o.evidence != [] && w.ledger.verifies {
      ScanReasons(o, w, 0);
    }
  }

  predicate IsLack(reason: Reason) {
    match reason
    case UnknownProjectState | ProjectAndObjectiveRequired | EvidenceRequired | LedgerIntegrityFailed => true
    case _ => false
  }

  predicate IsInsufficient(reason: Reason) {
    match reason
    case EvidenceResultNotTrusted | IndependentValidationRequired | HumanApprovalEvidenceRequired => true
    case _ => false
  }

  lemma {:induction false} ScanReasons(o: Observation, w: World, i: nat)
    requires i <= |o.evidence|
    ensures Scan(o, w, i).Some? ==>
      !IsLack(Scan(o, w, i).value.reason) && !IsInsufficient(Scan(o, w, i).value.reason)
    decreases |o.evidence| - i
  {
    if i < |o.evidence| {
      ScanReasons(o, w, i + 1);
    }
  }

  /** And the evidence, undisputed piece by piece, may not suffice together. */
  lemma HeldForWeight(o: Observation, w: World)
    ensures IsInsufficient(Judged(o, w).reason) ==> ToBeWeighed(o, w)
    ensures ToBeWeighed(o, w) ==>
      && (Judged(o, w) == OnHold(EvidenceResultNotTrusted) <==> SomeRecord(o, w, Untrusted))
      && (Judged(o, w) == OnHold(IndependentValidationRequired) <==>
            && !SomeRecord(o, w, Untrusted) && !SomeRecord(o, w, Independent)
            && (o.state == Verified || o.state == Approved || o.state == Released))
      && (Judged(o, w) == OnHold(HumanApprovalEvidenceRequired) <==>
            && !SomeRecord(o, w, Untrusted) && SomeRecord(o, w, Independent) && !SomeRecord(o, w, Human)
            && (o.state == Approved || o.state == Released))
  {
    ScanReasons(o, w, 0);
    WeighedReasons(o, Records(o.evidence, w.records));
    SomeRecordSpec(o, w, Independent);
    SomeRecordSpec(o, w, Human);
    SomeRecordSpec(o, w, Untrusted);
    UndisputedIsWeighed(o, w);
  }

  lemma UndisputedIsWeighed(o: Observation, w: World)
    ensures ToBeWeighed(o, w) ==> Judged(o, w) == Weighed(o, Records(o.evidence, w.records))
    ensures StatesItsCase(o) && o.evidence != [] && w.ledger.verifies && Scan(o, w, 0).None? ==> ToBeWeighed(o, w)
  {
    ScanSpec(o, w, 0);
  }

  lemma WeighedReasons(o: Observation, records: seq<Record>)
    ensures
      var d := Weighed(o, records);
      var untrusted := exists r :: r in records && Untrusted(r);
      var independent := exists r :: r in records && Independent(r);
      var human := exists r :: r in records && Human(r);
      && (d.reason == EvidenceBoundState <==>
            && !untrusted && (NeedsIndependence(o.state) ==> independent) && (NeedsHuman(o.state) ==> human))
      && (d.reason == EvidenceBoundState ==> d == Decision(o.state, EvidenceBoundState, None))
      && (d.reason != EvidenceBoundState ==> d.status == Hold) && d.reason != ProductionReleaseHumanOnly
      && (d == OnHold(EvidenceResultNotTrusted) <==> untrusted)
      && (d == OnHold(IndependentValidationRequired) <==>
            !untrusted && !independent && (o.state == Verified || o.state == Approved || o.state == Released))
      && (d == OnHold(HumanApprovalEvidenceRequired) <==>
            !untrusted && independent && !human && (o.state == Approved || o.state == Released))
  {
  }

  lemma ComplaintHolds(o: Observation, id: string, w: World)
    requires Complaint(o, id, w).Some?
    ensures
      var d := Complaint(o, id, w).value;
      && (d.status == Hold || (d.status == Failed && d.reason == FailEvidencePresent)) && d.reason != EvidenceBoundState
      && d.reason != ProductionReleaseHumanOnly
  {
  }

  /** The first complaint about the evidence is the decision. */
  lemma FirstComplaintDecides(o: Observation, w: World, k: nat)
    requires !o.state.UnknownState? && o.project != "" && o.objective != "" && w.ledger.verifies
    requires FirstComplaint(o, w, 0, k)
    ensures Judged(o, w) == Complaint(o, o.evidence[k], w).value
  {
    ScanSpec(o, w, 0);
  }

  /** Some piece of evidence has a record with property `p`. */
  ghost predicate SomeRecord(o: Observation, w: World, p: Record -> bool) {
    exists i :: 0 <= i < |o.evidence| && o.evidence[i] in w.records && p(w.records[o.evidence[i]])
  }

  lemma SomeRecordSpec(o: Observation, w: World, p: Record -> bool)
    ensures SomeRecord(o, w, p) <==> exists r :: r in Records(o.evidence, w.records) && p(r)
  {
    forall r ensures r in Records(o.evidence, w.records) <==>
      exists i :: 0 <= i < |o.evidence| && o.evidence[i] in w.records && w.records[o.evidence[i]] == r
    {
      RecordsSpec(o.evidence, w.records, r);
    }
  }

  lemma WeighedSpec(o: Observation, w: World)
    requires Scan(o, w, 0).None?
    ensures
      var d := Weighed(o, Records(o.evidence, w.records));
      && (d.reason == EvidenceBoundState <==>
          && (forall i :: 0 <= i < |o.evidence| ==> Supports(o, o.evidence[i], w))
          && (NeedsIndependence(o.state) ==> SomeRecord(o, w, Independent))
          && (NeedsHuman(o.state) ==> SomeRecord(o, w, Human)))
      && (d.reason == EvidenceBoundState ==> d == Decision(o.state, EvidenceBoundState, None))
      && (d.reason != EvidenceBoundState ==> d.status == Hold)
      && d.reason != ProductionReleaseHumanOnly
  {
    ScanSpec(o, w, 0);
    WeighedReasons(o, Records(o.evidence, w.records));
    SomeRecordSpec(o, w, Independent);
    SomeRecordSpec(o, w, Human);
    SomeRecordSpec(o, w, Untrusted);
    AllSupport(o, w);
  }

  lemma AllSupport(o: Observation, w: World)
    requires forall i :: 0 <= i < |o.evidence| ==> Complaint(o, o.evidence[i], w).None?
    ensures (forall i :: 0 <= i < |o.evidence| ==> Supports(o, o.evidence[i], w)) <==> !SomeRecord(o, w, Untrusted)
  {
    forall i | 0 <= i < |o.evidence|
      ensures o.evidence[i] in w.records && (Supports(o, o.evidence[i], w) <==> !Untrusted(w.records[o.evidence[i]]))
    {
    }
  }

  /** The loop over the evidence, stopping at the first complaint. */
  method DecideEvidence(o: Observation, w: World) returns (d: Decision)
    ensures d == Judged(o, w)
  {
    if o.state.UnknownState? {
      return OnHold(UnknownProjectState);
    }
    if o.project == "" || o.objective == "" {
      return OnHold(ProjectAndObjectiveRequired);
    }
    if o.evidence == [] {
      return OnHold(EvidenceRequired);
    }
    if !w.ledger.verifies {
      return OnHold(LedgerIntegrityFailed);
    }
    var records: seq<Record> := [];
    for i := 0 to |o.evidence|
      invariant records == Records(o.evidence[..i], w.records)
      invariant Scan(o, w, 0) == Scan(o, w, i)
    {
      var complaint := Complaint(o, o.evidence[i], w);
      if complaint.Some? {
        return complaint.value;
      }
      assert o.evidence[..i + 1][..i] == o.evidence[..i];
      records := records + [w.records[o.evidence[i]]];
    }
    assert o.evidence[..|o.evidence|] == o.evidence;
    d := Weighed(o, records);
  }
}
