/** The append-only run ledger: a keyed hash chain in a file, and a sealed head beside it. */
module RunLedger {
  import opened Prelude
  import Scoring

  datatype TaskState =
    | Queued | Active | Verifying | Remediating | Scored | Certified
    | PreparePr | OnHold | Rejected | Escalated | OtherState(text: string)

  datatype HumanOnlyTarget =
    | ProtectedMainMerge | ProductionRelease | ProductionDataMutation | AuthorityWidening | AuthSecurityPolicyChange
    | CustomerCommitment | BidSubmission | PricingCommitment | ContractCommitment | FinancialCommitment | DataDeletion

  datatype AllowedTarget =
    | Prompt | Routing | Documentation | TestCoverage | NonProdCode | NonProdWorkflow | UiNonProd | Evaluation
    | Observability

  /** A target name: reserved for humans, allowed, or any other text. */
  datatype Target = HumanOnly(which: HumanOnlyTarget) | Allowed(what: AllowedTarget) | OtherTarget(text: string)

  datatype Risk = Low | Medium | High | OtherRisk(text: string)

  datatype TaskSpec = TaskSpec(
    objective: string,
    target: Target,
    risk: Risk,
    reversible: bool,
    production: bool,
    builderId: string,
    validatorId: string,
    certifierId: string,
    maxRemediationAttempts: int,
    sourceEventId: string)

  datatype Reason =
    | Created
    | ProductionBoundary | HumanOnlyTargetReason | UnknownTarget | ReversibilityRequired | RiskThresholdExceeded
    | SeparationOfDuties | RunStarted | ExecutorExceptionReview | ExecutorExceptionRemediate
    | ExecutorExceptionStateInvalid | ExecutorExceptionExhausted | RemediationExhausted
    | CrossedProductionBoundary | AttemptNotReversible | AuthorityScopeInvalid | AttemptEvidenceRequired
    | AttemptReady | ValidatorIdentityInvalid | ValidationEvidenceRequired | ValidationFailedRemediate
    | RemediationBudgetExhausted | ScoringFailedRemediate | ScoringFailed(why: Scoring.Verdict) | ScoringPassed
    | CertificationException | CertifierIdentityInvalid | CertifierNotIndependent | CertificationFailed
    | CertificationEvidenceRequired | AuthorityCeilingInvalid | CertificationPassed | CeilingReached
    | OtherReason(text: string)

  /** An event type together with its payload. `TaskCreatedMalformed` has the wrong payload keys; an
      attempt number that is not an integer is `None`. */
  datatype Event =
    | TaskCreated(spec: TaskSpec)
    | TaskCreatedMalformed
    | TaskStateSet(state: TaskState, reason: Reason)
    | AttemptStarted(attempt: Option<int>)
    | EventAccepted(acceptedId: string)
    | EventRejected(rejectedId: string, rejection: Rejection)
    | ScoreRecorded(report: Scoring.Report)
    | AttemptException(number: int)
    | ValidationException(number: int)
    | CertificationRaised
    | ReleaseCandidate
    | OtherEvent(name: string)

  /** Why the router turned an event away. */
  datatype Rejection =
    | UnknownEventType | ObjectiveRequired | EvidenceReferenceRequired | HumanOnlyEvent | UnknownEventTarget
    | EventProductionBoundary | UnknownRisk | HighRisk | EventNotReversible | RoleIdentityRequired
    | RolesNotSeparate | InvalidRemediationBudget

  datatype Entry = Entry(taskId: string, event: Event)

  datatype Body = Body(sequence: int, entry: Entry, occurredAt: int, previousDigest: string)

  datatype Record = Record(body: Body, digest: string)

  /** The two kinds of text the ledger's key signs. */
  datatype Signed = RecordText(body: Body) | HeadText(sequence: int, digest: string)

  /** A line of the file as the reader finds it; only `Parsed` has all seven fields. */
  datatype Line =
    | BlankLine
    | NotJson
    | WrongKeys
    | PayloadNotObject(sequence: int, previousDigest: string)
    | Parsed(record: Record)

  datatype HeadFile =
    | HeadMissing
    | HeadUnreadable
    | HeadWrongKeys
    | Head(sequence: int, digest: string, signature: string)

  datatype LedgerError =
    | EmptyLine | MalformedJson | SchemaMismatch | SequenceMismatch | ChainMismatch | PayloadInvalid | DigestMismatch
    | SealMissing | SealInvalid | SealSchemaMismatch | SealMismatch | SealSignatureInvalid

  predicate Contains(s: string, part: string) {
    part <= s || (s != [] && Contains(s[1..], part))
  }

  /** A reference has a scheme, or is a URN or a digest. */
  predicate ValidRef(s: string) {
    var t := Strip(s);
    t != [] && (Contains(t, "://") || "urn:" <= t || "sha256:" <= t)
  }

  lemma {:induction false} ContainsExactlyWhen(s: string, part: string)
    ensures Contains(s, part) <==> exists i :: 0 <= i <= |s| && part <= s[i..]
  {
    assert s[0..] == s;
    if s != [] && !(part <= s) {
      ContainsExactlyWhen(s[1..], part);
      if i :| 0 <= i <= |s| - 1 && part <= s[1..][i..] {
        assert s[1..][i..] == s[i + 1..];
      }
      if i :| 0 <= i <= |s| && part <= s[i..] {
        assert i > 0 && s[1..][i - 1..] == s[i..];
      }
    }
  }

  /** A reference is a text that, stripped, contains a scheme or begins as a URN or a digest. */
  lemma ValidRefExactlyWhen(s: string)
    ensures ValidRef(s) <==>
      var t := Strip(s);
      (exists i :: 0 <= i <= |t| && "://" <= t[i..]) || "urn:" <= t || "sha256:" <= t
    ensures Strips(s, Strip(s))
  {
    StripStrips(s);
    ContainsExactlyWhen(Strip(s), "://");
  }

  predicate IsHexDigit(c: char) {
    '0' <= c <= '9' || 'a' <= c <= 'f' || 'A' <= c <= 'F'
  }

  predicate ValidHex(s: string) {
    |s| == 64 && forall i :: 0 <= i < |s| ==> IsHexDigit(s[i])
  }

  const ZERO: string := "0000000000000000000000000000000000000000000000000000000000000000"

  ghost predicate WellFormedMac(mac: Signed -> string) {
    forall s :: ValidHex(mac(s))
  }

  function Tail(records: seq<Record>): string {
    if records == [] then ZERO else records[|records| - 1].digest
  }

  /** Each record counts on from the one before, names its digest, and carries the right digest itself. */
  ghost predicate Chained(mac: Signed -> string, records: seq<Record>) {
    && (forall i :: 0 <= i < |records| ==>
          records[i].body.sequence == i + 1 && records[i].digest == mac(RecordText(records[i].body)))
    && (records != [] ==> records[0].body.previousDigest == ZERO)
    && (forall i, j :: 0 <= i && j == i + 1 && j < |records| ==> records[j].body.previousDigest == records[i].digest)
  }

  /** The head file vouches for exactly this many records and this last digest. */
  ghost predicate Sealed(mac: Signed -> string, records: seq<Record>, head: HeadFile) {
    head == Head(|records|, Tail(records), mac(HeadText(|records|, Tail(records))))
  }

  function AsLines(records: seq<Record>): seq<Line> {
    seq(|records|, i requires 0 <= i < |records| => Parsed(records[i]))
  }

  lemma ChainedAppend(mac: Signed -> string, records: seq<Record>, r: Record)
    requires Chained(mac, records)
    ensures Chained(mac, records + [r]) <==>
      && r.body.sequence == |records| + 1 && r.body.previousDigest == Tail(records)
      && r.digest == mac(RecordText(r.body))
  {
    var more := records + [r];
    assert more[|records|] == r;
    if records != [] {
      var k := |records| - 1;
      assert more[k] == records[k];
      assert Chained(mac, more) ==> more[k + 1].body.previousDigest == more[k].digest;
    }
  }

  lemma ChainedPrefix(mac: Signed -> string, records: seq<Record>, k: nat)
    requires Chained(mac, records) && k <= |records|
    ensures Chained(mac, records[..k])
    ensures k < |records| ==> records[k].body.previousDigest == Tail(records[..k])
  {
  }

  // ---- Tamper evidence -------------------------------------------------------------------

  /** Two different signed texts with one digest. */
  ghost predicate Collision(mac: Signed -> string, rs: seq<Record>, ss: seq<Record>) {
    exists i :: 0 <= i < |rs| && i < |ss| && rs[i].body != ss[i].body &&
      mac(RecordText(rs[i].body)) == mac(RecordText(ss[i].body))
  }

  lemma {:induction false} SameTailSameRecords(mac: Signed -> string, rs: seq<Record>, ss: seq<Record>)
    requires Chained(mac, rs) && Chained(mac, ss) && |rs| == |ss| && Tail(rs) == Tail(ss)
    ensures rs == ss || Collision(mac, rs, ss)
  {
    if rs == [] {
    } else {
      var k := |rs| - 1;
      if rs[k].body == ss[k].body {
        assert Tail(rs[..k]) == Tail(ss[..k]);
        ChainedPrefix(mac, rs, k);
        ChainedPrefix(mac, ss, k);
        SameTailSameRecords(mac, rs[..k], ss[..k]);
        if rs[..k] == ss[..k] {
          assert rs == rs[..k] + [rs[k]] && ss == ss[..k] + [ss[k]];
        } else {
          var i :| 0 <= i < k && rs[..k][i].body != ss[..k][i].body &&
            mac(RecordText(rs[..k][i].body)) == mac(RecordText(ss[..k][i].body));
          assert rs[i].body != ss[i].body;
        }
      }
    }
  }

  /** Two files that verify against one head hold the same records, unless two of their records are a
      collision of the keyed hash: no edit, reorder, insertion or truncation goes unnoticed. */
  lemma SameHeadSameRecords(mac: Signed -> string, rs: seq<Record>, ss: seq<Record>, head: HeadFile)
    requires Chained(mac, rs) && Sealed(mac, rs, head)
    requires Chained(mac, ss) && Sealed(mac, ss, head)
    ensures rs == ss || Collision(mac, rs, ss)
  {
    SameTailSameRecords(mac, rs, ss);
  }

  // ---- The ledger object -----------------------------------------------------------------

  /** The number and the digest of the line before, which every line with a body carries. */
  predicate LineContinues(line: Line, expected: int, previous: string) {
    match line
    case PayloadNotObject(sequence, previousDigest) => sequence == expected && previousDigest == previous
    case Parsed(r) => r.body.sequence == expected && r.body.previousDigest == previous
    case _ => false
  }

  /** What is wrong with a line, by the first thing that is. */
  predicate LineFault(mac: Signed -> string, line: Line, expected: int, previous: string, e: LedgerError) {
    match e
    case EmptyLine => line.BlankLine?
    case MalformedJson => line.NotJson?
    case SchemaMismatch => line.WrongKeys?
    case SequenceMismatch =>
      || (line.PayloadNotObject? && line.sequence != expected)
      || (line.Parsed? && line.record.body.sequence != expected)
    case ChainMismatch =>
      || (line.PayloadNotObject? && line.sequence == expected && line.previousDigest != previous)
      || (line.Parsed? && line.record.body.sequence == expected && line.record.body.previousDigest != previous)
    case PayloadInvalid => line.PayloadNotObject? && LineContinues(line, expected, previous)
    case DigestMismatch =>
      && line.Parsed? && LineContinues(line, expected, previous)
      && !(line.record.digest == mac(RecordText(line.record.body)) && ValidHex(line.record.digest))
    case _ => false
  }

  /** What is wrong with a head over `count` records that end with `digest`. */
  predicate HeadFault(mac: Signed -> string, head: HeadFile, count: nat, digest: string, e: LedgerError) {
    match e
    case SealMissing => head.HeadMissing?
    case SealInvalid => head.HeadUnreadable?
    case SealSchemaMismatch => head.HeadWrongKeys?
    case SealMismatch => head.Head? && !(head.sequence == count && head.digest == digest)
    case SealSignatureInvalid =>
      && head.Head? && head.sequence == count && head.digest == digest
      && !(head.signature == mac(HeadText(count, digest)) && ValidHex(head.signature))
    case _ => false
  }

  /** Line `i` is the first that is wrong. */
  ghost predicate FirstBadLine(mac: Signed -> string, lines: seq<Line>, records: seq<Record>, e: LedgerError) {
    && |records| < |lines| && lines[..|records|] == AsLines(records) && Chained(mac, records)
    && LineFault(mac, lines[|records|], |records| + 1, Tail(records), e)
  }

  class PersistentRunLedger {
    const mac: Signed -> string
    var lines: seq<Line>
    var head: HeadFile

    /** Every line parses, the chain holds, and the head seals it. */
    ghost predicate Intact()
      reads this
    {
      Holds(Contents())
    }

    ghost predicate Holds(records: seq<Record>)
      reads this
    {
      lines == AsLines(records) && Chained(mac, records) && Sealed(mac, records, head)
    }

    ghost function Contents(): seq<Record>
      reads this
    {
      ParsedPrefix(lines)
    }

    /** What the ledger says, digests aside. */
    ghost function Log(): seq<Entry>
      reads this
    {
      Entries(Contents())
    }

    /** A new file, empty and sealed. */
    constructor (mac: Signed -> string)
      ensures this.mac == mac && Intact() && Contents() == []
    {
      this.mac := mac;
      lines := [];
      head := Head(0, ZERO, mac(HeadText(0, ZERO)));
    }

    method CheckHead(count: nat, digest: string) returns (error: Option<LedgerError>)
      requires WellFormedMac(mac)
      ensures error.None? <==> head == Head(count, digest, mac(HeadText(count, digest)))
      ensures error.Some? ==> HeadFault(mac, head, count, digest, error.value)
    {
      match head
      case HeadMissing => return Some(SealMissing);
      case HeadUnreadable => return Some(SealInvalid);
      case HeadWrongKeys => return Some(SealSchemaMismatch);
      case Head(s, d, signature) =>
        if s != count || d != digest {
          return Some(SealMismatch);
        }
        if !ValidHex(signature) || signature != mac(HeadText(count, digest)) {
          return Some(SealSignatureInvalid);
        }
        return None;
    }

    /** The check of one line against what must come before it. */
    function LineError(line: Line, expected: int, previous: string): (e: Option<LedgerError>)
      ensures e.Some? ==> LineFault(mac, line, expected, previous, e.value)
    {
      match line
      case BlankLine => Some(EmptyLine)
      case NotJson => Some(MalformedJson)
      case WrongKeys => Some(SchemaMismatch)
      case PayloadNotObject(sequence, previousDigest) =>
        if sequence != expected then Some(SequenceMismatch)
        else if previousDigest != previous then Some(ChainMismatch)
        else Some(PayloadInvalid)
      case Parsed(r) =>
        if r.body.sequence != expected then Some(SequenceMismatch)
        else if r.body.previousDigest != previous then Some(ChainMismatch)
        else if !ValidHex(r.digest) || r.digest != mac(RecordText(r.body)) then Some(DigestMismatch)
        else None
    }

    /** Reading verifies: records come out exactly when the whole file and its head are intact. */
    method Records() returns (r: Result<seq<Record>, LedgerError>)
      requires WellFormedMac(mac)
      ensures r.Ok? <==> Intact()
      ensures r.Ok? ==> r.value == Contents()
      ensures r.Err? ==>
        || (exists records :: FirstBadLine(mac, lines, records, r.error))
        || (exists records :: lines == AsLines(records) && HeadFault(mac, head, |records|, Tail(records), r.error))
    {
      var records: seq<Record> := [];
      var previous, expected := ZERO, 1;
      for i := 0 to |lines|
        invariant |records| == i && expected == i + 1 && previous == Tail(records)
        invariant lines[..i] == AsLines(records) && Chained(mac, records)
      {
        var error := LineError(lines[i], expected, previous);
        if error.Some? {
          BadLineBreaks(lines, records, mac);
          assert FirstBadLine(mac, lines, records, error.value);
          return Err(error.value);
        }
        var record := lines[i].record;
        ChainedAppend(mac, records, record);
        AsLinesAppend(records, record);
        assert lines[..i + 1] == lines[..i] + [lines[i]];
        records := records + [record];
        previous := record.digest;
        expected := expected + 1;
      }
      assert lines[..|lines|] == lines;
      ParsedPrefixOfRecords(records);
      var error := CheckHead(|records|, previous);
      if error.Some? {
        return Err(error.value);
      }
      r := Ok(records);
    }

    /** The first half of an append: the line is on file, and the head does not know of it yet. A stop here
        leaves a ledger that no longer verifies. */
    method WriteLine(record: Record)
      requires Intact()
      requires record.body.sequence == |Contents()| + 1 && record.body.previousDigest == Tail(Contents())
      requires record.digest == mac(RecordText(record.body))
      modifies this`lines
      ensures lines == AsLines(old(Contents()) + [record]) && Chained(mac, old(Contents()) + [record])
      ensures !Intact()
    {
      ghost var records := Contents();
      IntactContents(lines);
      ChainedAppend(mac, records, record);
      AsLinesAppend(records, record);
      lines := lines + [Parsed(record)];
      HeadBehind(this, records, record);
    }

    /** The second half: a head that seals what is on file. */
    method WriteHead(ghost records: seq<Record>, count: nat, digest: string)
      requires lines == AsLines(records) && Chained(mac, records) && count == |records| && digest == Tail(records)
      modifies this`head
      ensures Intact() && Contents() == records
    {
      head := Head(count, digest, mac(HeadText(count, digest)));
      ParsedPrefixOfRecords(records);
    }

    /** One more record at the end, and a head that seals it; a broken ledger is left as it is. */
    method Append(entry: Entry, occurredAt: int) returns (r: Result<Record, LedgerError>)
      requires WellFormedMac(mac)
      modifies this
      ensures r.Ok? <==> old(Intact())
      ensures r.Ok? ==> Intact() && Contents() == old(Contents()) + [r.value] && r.value.body.entry == entry
      ensures r.Ok? ==> Log() == old(Log()) + [entry]
      ensures r.Err? ==> lines == old(lines) && head == old(head)
    {
      var existing := Records();
      if existing.Err? {
        return Err(existing.error);
      }
      var records := existing.value;
      var body := Body(|records| + 1, entry, occurredAt, Tail(records));
      var record := Record(body, mac(RecordText(body)));
      WriteLine(record);
      WriteHead(records + [record], |records| + 1, record.digest);
      r := Ok(record);
    }
  }

  lemma IntactContents(lines: seq<Line>)
    ensures forall records :: lines == AsLines(records) ==> ParsedPrefix(lines) == records
  {
    forall records | lines == AsLines(records) ensures ParsedPrefix(lines) == records {
      ParsedPrefixOfRecords(records);
    }
  }

  /** A ledger with one chained line more than its head seals does not verify. */
  lemma HeadBehind(ledger: PersistentRunLedger, records: seq<Record>, record: Record)
    requires ledger.lines == AsLines(records + [record]) && Sealed(ledger.mac, records, ledger.head)
    ensures !ledger.Intact()
  {
    ParsedPrefixOfRecords(records + [record]);
  }

  function Entries(records: seq<Record>): seq<Entry> {
    seq(|records|, i requires 0 <= i < |records| => records[i].body.entry)
  }

  /** The records on the lines before the first one that does not parse. */
  function ParsedPrefix(lines: seq<Line>): seq<Record> {
    if lines == [] || !lines[0].Parsed? then [] else [lines[0].record] + ParsedPrefix(lines[1..])
  }

  lemma {:induction false} ParsedPrefixOfRecords(records: seq<Record>)
    ensures ParsedPrefix(AsLines(records)) == records
  {
    if records == [] {
    } else {
      assert AsLines(records)[1..] == AsLines(records[1..]);
      ParsedPrefixOfRecords(records[1..]);
    }
  }

  lemma AsLinesAppend(records: seq<Record>, r: Record)
    ensures AsLines(records + [r]) == AsLines(records) + [Parsed(r)]
  {
  }

  lemma PrefixParsed(lines: seq<Line>, records: seq<Record>, all: seq<Record>)
    requires |records| < |lines| && lines[..|records|] == AsLines(records) && lines == AsLines(all)
    ensures all[..|records|] == records && lines[|records|] == Parsed(all[|records|])
  {
    forall i | 0 <= i < |records| ensures all[i] == records[i] {
      assert lines[..|records|][i] == Parsed(all[i]);
    }
  }

  /** A line that fails its check cannot be the next line of an intact file. */
  lemma BadLineBreaks(lines: seq<Line>, records: seq<Record>, mac: Signed -> string)
    requires |records| < |lines| && lines[..|records|] == AsLines(records) && WellFormedMac(mac)
    requires
      var line := lines[|records|];
      line.Parsed? ==>
        || line.record.body.sequence != |records| + 1
        || line.record.body.previousDigest != Tail(records)
        || line.record.digest != mac(RecordText(line.record.body))
    ensures forall all :: lines == AsLines(all) ==> !Chained(mac, all)
  {
    forall all | lines == AsLines(all) && Chained(mac, all) ensures false {
      var k := |records|;
      ChainedPrefix(mac, all, k);
      PrefixParsed(lines, records, all);
    }
  }
}
