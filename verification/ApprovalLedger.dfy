/** Single-use approval receipts, consumed on an append-only hash chain. */
module ApprovalLedger {
  import opened Prelude

  datatype ReceiptStatus = ApprovedForBoundAction | OtherStatus(text: string)

  /** What one consumption is about: the six fields that bind it. */
  datatype Operation = Operation(workload: string, candidateSha: string, receipt: string, nonce: string, action: string,
                                 key: string)

  datatype Request = Request(op: Operation, status: ReceiptStatus, consumedAt: string, source: string)

  /** The part of an entry that its digest covers. */
  datatype Body = Body(op: Operation, consumedAt: string, source: string, previous: Option<string>)

  datatype Entry = Entry(body: Body, digest: string)

  /** SHA-256 of the canonical text, and the parser of ISO times. */
  datatype World = World(digest: Body -> string, timeOf: string -> Option<int>)

  datatype HoldReason =
    | WorkloadIdRequired | ExactCandidateShaRequired | ReceiptDigestRequired | ValidReceiptNonceRequired
    | ApprovedReceiptRequired | ActionRequired | ValidIdempotencyKeyRequired | SourceReferenceRequired
    | ValidConsumedAtRequired | ConsumedAtInFuture
    | InvalidExistingLedgerEntry(index: nat) | LedgerChainBroken(index: nat) | LedgerRecordDigestMismatch(index: nat)
    | ReceiptReplayOrRebindAttempt | IdempotencyKeyCollision

  datatype Decision = OnHold(reason: HoldReason) | IdempotentNoop | ReadyToAppend(previous: Option<string>)

  /** A text of `n` lower-case hexadecimal digits. */
  predicate IsHex(s: string, n: nat) {
    |s| == n && forall i :: 0 <= i < |s| ==> '0' <= s[i] <= '9' || 'a' <= s[i] <= 'f'
  }

  lemma HexExactlyWhen(s: string, n: nat)
    ensures IsHex(s, n) <==> |s| == n && forall i :: 0 <= i < n ==> s[i] in "0123456789abcdef"
  {
  }

  predicate IsTokenChar(c: char) {
    'A' <= c <= 'Z' || 'a' <= c <= 'z' || '0' <= c <= '9' || c == '.' || c == '_' || c == ':' || c == '-'
  }

  predicate IsToken(s: string) {
    16 <= |s| <= 128 && forall i :: 0 <= i < |s| ==> IsTokenChar(s[i])
  }

  /** A token has 16 to 128 characters, each a letter or a digit of ASCII or one of four marks: hyphen, dot, colon and
      underscore. */
  lemma TokenExactlyWhen(s: string)
    ensures IsToken(s) <==>
      && !(|s| < 16) && !(128 < |s|)
      && forall i :: 0 <= i < |s| ==>
           var code := s[i] as int;
           || code in {45, 46, 58, 95} || 48 <= code <= 57 || 65 <= code <= 90 || 97 <= code <= 122
  {
  }

  ghost predicate WellFormed(w: World) {
    forall b :: IsHex(w.digest(b), 64)
  }

  // ---- The chain -------------------------------------------------------------------------

  function Tail(entries: seq<Entry>): Option<string> {
    if entries == [] then None else Some(entries[|entries| - 1].digest)
  }

  /** The entry names `previous` and carries the digest of its body. */
  predicate Continues(w: World, e: Entry, previous: Option<string>) {
    e.body.previous == previous && e.digest == w.digest(e.body) && IsHex(e.digest, 64)
  }

  /** What is wrong with an entry that should follow the tail `previous`. */
  function EntryFault(w: World, e: Entry, previous: Option<string>, index: nat): (fault: Option<HoldReason>)
    ensures fault.None? <==> Continues(w, e, previous)
    ensures fault.Some? ==>
      match fault.value
      case InvalidExistingLedgerEntry(k) => k == index && !IsHex(e.digest, 64)
      case LedgerChainBroken(k) => k == index && IsHex(e.digest, 64) && e.body.previous != previous
      case LedgerRecordDigestMismatch(k) =>
        k == index && IsHex(e.digest, 64) && e.body.previous == previous && e.digest != w.digest(e.body)
      case _ => false
  {
    if !IsHex(e.digest, 64) then Some(InvalidExistingLedgerEntry(index))
    else if e.body.previous != previous then Some(LedgerChainBroken(index))
    else if e.digest != w.digest(e.body) then Some(LedgerRecordDigestMismatch(index))
    else None
  }

  /** Every entry names its predecessor's digest, the first none, and carries the right digest itself. */
  predicate Chained(w: World, entries: seq<Entry>) {
    entries == [] ||
    var k := |entries| - 1;
    Chained(w, entries[..k]) && Continues(w, entries[k], Tail(entries[..k]))
  }

  lemma {:induction false} ChainedPrefix(w: World, entries: seq<Entry>, k: nat)
    requires Chained(w, entries) && k <= |entries|
    ensures Chained(w, entries[..k])
    ensures k < |entries| ==> Continues(w, entries[k], Tail(entries[..k]))
    decreases |entries|
  {
    if k < |entries| {
      var last := |entries| - 1;
      ChainedPrefix(w, entries[..last], k);
      assert entries[..last][..k] == entries[..k];
    } else {
      assert entries[..k] == entries;
    }
  }

  /** The entry at which the chain first fails. */
  ghost predicate FirstFault(w: World, entries: seq<Entry>, k: nat, reason: HoldReason) {
    k < |entries| && Chained(w, entries[..k]) && EntryFault(w, entries[k], Tail(entries[..k]), k) == Some(reason)
  }

  /** A ledger verifies exactly when it is a chain; otherwise the first faulty entry is named. */
  method VerifyLedgerChain(w: World, entries: seq<Entry>) returns (r: Result<Option<string>, HoldReason>)
    ensures r.Ok? <==> Chained(w, entries)
    ensures r.Ok? ==> r.value == Tail(entries)
    ensures r.Err? ==> exists k :: FirstFault(w, entries, k, r.error)
  {
    var expected: Option<string> := None;
    for k := 0 to |entries|
      invariant Chained(w, entries[..k]) && expected == Tail(entries[..k])
    {
      assert entries[..k + 1][..k] == entries[..k];
      var fault := EntryFault(w, entries[k], expected, k);
      if fault.Some? {
        assert FirstFault(w, entries, k, fault.value);
        if Chained(w, entries) {
          ChainedPrefix(w, entries, k);
        }
        return Err(fault.value);
      }
      expected := Some(entries[k].digest);
    }
    assert entries[..|entries|] == entries;
    r := Ok(expected);
  }

  /** Two different bodies of the two ledgers with one digest. */
  ghost predicate Collision(w: World, rs: seq<Entry>, ss: seq<Entry>) {
    exists i, j ::
      && 0 <= i < |rs| && 0 <= j < |ss| && rs[i].body != ss[j].body
      && w.digest(rs[i].body) == w.digest(ss[j].body)
  }

  /** Two ledgers that verify with one tail are the same ledger, of the same length, unless two of their bodies
      are a collision of the digest. */
  lemma {:induction false} SameTailSameLedger(w: World, rs: seq<Entry>, ss: seq<Entry>)
    requires Chained(w, rs) && Chained(w, ss) && Tail(rs) == Tail(ss)
    ensures rs == ss || Collision(w, rs, ss)
    decreases |rs|
  {
    if rs == [] {
    } else {
      var i, j := |rs| - 1, |ss| - 1;
      if rs[i].body != ss[j].body {
        assert Collision(w, rs, ss);
      } else {
        SameTailSameLedger(w, rs[..i], ss[..j]);
        if rs[..i] == ss[..j] {
          assert rs == rs[..i] + [rs[i]] && ss == ss[..j] + [ss[j]];
        } else {
          var a, b :| 0 <= a < i && 0 <= b < j && rs[..i][a].body != ss[..j][b].body &&
            w.digest(rs[..i][a].body) == w.digest(ss[..j][b].body);
          assert rs[a].body != ss[b].body;
        }
      }
    }
  }

  // ---- One request -----------------------------------------------------------------------

  /** A request that may be consumed: an approved receipt, a named workload, the commit and the receipt by their
      digests, two tokens, a stated action and source, and a readable time that is not to come. */
  predicate Consumable(w: World, req: Request, now: int) {
    && req.status == ApprovedForBoundAction && req.op.workload != ""
    && IsHex(req.op.candidateSha, 40) && IsHex(req.op.receipt, 64) && IsToken(req.op.nonce) && IsToken(req.op.key)
    && !Blank(req.op.action) && !Blank(req.source)
    && w.timeOf(req.consumedAt).Some? && w.timeOf(req.consumedAt).value <= now
  }

  /** What each refusal of a request is about. */
  predicate Lacks(w: World, req: Request, now: int, reason: HoldReason) {
    match reason
    case WorkloadIdRequired => req.op.workload == ""
    case ExactCandidateShaRequired => !IsHex(req.op.candidateSha, 40)
    case ReceiptDigestRequired => !IsHex(req.op.receipt, 64)
    case ValidReceiptNonceRequired => !IsToken(req.op.nonce)
    case ApprovedReceiptRequired => req.status != ApprovedForBoundAction
    case ActionRequired => Blank(req.op.action)
    case ValidIdempotencyKeyRequired => !IsToken(req.op.key)
    case SourceReferenceRequired => Blank(req.source)
    case ValidConsumedAtRequired => w.timeOf(req.consumedAt).None?
    case ConsumedAtInFuture => w.timeOf(req.consumedAt).Some? && w.timeOf(req.consumedAt).value > now
    case _ => false
  }

  /** The order in which a request is read. */
  function Turn(reason: HoldReason): nat {
    match reason
    case WorkloadIdRequired => 0
    case ExactCandidateShaRequired => 1
    case ReceiptDigestRequired => 2
    case ValidReceiptNonceRequired => 3
    case ApprovedReceiptRequired => 4
    case ActionRequired => 5
    case ValidIdempotencyKeyRequired => 6
    case SourceReferenceRequired => 7
    case ValidConsumedAtRequired => 8
    case _ => 9
  }

  ghost predicate FirstLack(w: World, req: Request, now: int, reason: HoldReason) {
    Lacks(w, req, now, reason) && forall other :: Lacks(w, req, now, other) ==> Turn(reason) <= Turn(other)
  }

  function FieldFault(w: World, req: Request, now: int): (fault: Option<HoldReason>)
    ensures fault.None? <==> Consumable(w, req, now)
    ensures fault.Some? ==> FirstLack(w, req, now, fault.value)
  {
    if req.op.workload == "" then Some(WorkloadIdRequired)
    else if !IsHex(req.op.candidateSha, 40) then Some(ExactCandidateShaRequired)
    else if !IsHex(req.op.receipt, 64) then Some(ReceiptDigestRequired)
    else if !IsToken(req.op.nonce) then Some(ValidReceiptNonceRequired)
    else if req.status != ApprovedForBoundAction then Some(ApprovedReceiptRequired)
    else if Blank(req.op.action) then Some(ActionRequired)
    else if !IsToken(req.op.key) then Some(ValidIdempotencyKeyRequired)
    else if Blank(req.source) then Some(SourceReferenceRequired)
    else if w.timeOf(req.consumedAt).None? then Some(ValidConsumedAtRequired)
    else if w.timeOf(req.consumedAt).value > now then Some(ConsumedAtInFuture)
    else None
  }

  predicate SharesReceipt(op: Operation, e: Entry) {
    e.body.op.receipt == op.receipt || e.body.op.nonce == op.nonce
  }

  /** The entry uses this operation's receipt, nonce or idempotency key. */
  predicate Touches(op: Operation, e: Entry) {
    SharesReceipt(op, e) || e.body.op.key == op.key
  }

  /** The entry and the operation have neither receipt nor nonce nor idempotency key in common. */
  predicate Apart(op: Operation, other: Operation) {
    op.receipt != other.receipt && op.nonce != other.nonce && op.key != other.key
  }

  /** What the first entry that touches the operation decides: the same operation is done already, and any other use
      of its receipt or nonce, or else of its key, is held. */
  function Judge(op: Operation, e: Entry): (d: Decision)
    requires Touches(op, e)
    ensures !Apart(op, e.body.op)
    ensures d.IdempotentNoop? <==> op == e.body.op
    ensures d == OnHold(ReceiptReplayOrRebindAttempt) <==>
      op != e.body.op && (op.receipt == e.body.op.receipt || op.nonce == e.body.op.nonce)
    ensures d == OnHold(IdempotencyKeyCollision) <==>
      && op != e.body.op && op.key == e.body.op.key
      && op.receipt != e.body.op.receipt && op.nonce != e.body.op.nonce
  {
    if op == e.body.op then IdempotentNoop
    else if SharesReceipt(op, e) then OnHold(ReceiptReplayOrRebindAttempt)
    else OnHold(IdempotencyKeyCollision)
  }

  /** The scan: the first entry that touches the operation decides. */
  function Scan(op: Operation, entries: seq<Entry>): (r: Option<Decision>)
    ensures r.None? <==> forall i :: 0 <= i < |entries| ==> Apart(op, entries[i].body.op)
    ensures r.Some? ==> !r.value.ReadyToAppend?
  {
    if entries == [] then None
    else
      var before := Scan(op, entries[..|entries| - 1]);
      if before.Some? then before
      else if Touches(op, entries[|entries| - 1]) then Some(Judge(op, entries[|entries| - 1]))
      else None
  }

  function Decide(w: World, req: Request, entries: seq<Entry>, now: int): (d: Decision)
    requires Chained(w, entries)
    ensures d.ReadyToAppend? ==> d.previous == Tail(entries) && Scan(req.op, entries).None?
  {
    var fault := FieldFault(w, req, now);
    if fault.Some? then OnHold(fault.value)
    else
      var found := Scan(req.op, entries);
      if found.Some? then found.value else ReadyToAppend(Tail(entries))
  }

  method ScanEntries(op: Operation, entries: seq<Entry>) returns (r: Option<Decision>)
    ensures r == Scan(op, entries)
  {
    for i := 0 to |entries|
      invariant Scan(op, entries[..i]) == None
    {
      assert entries[..i + 1][..i] == entries[..i];
      if Touches(op, entries[i]) {
        ScanDecided(op, entries, i + 1);
        return Some(Judge(op, entries[i]));
      }
    }
    assert entries[..|entries|] == entries;
    r := None;
  }

  /** What has been decided stays decided, whatever follows. */
  lemma {:induction false} ScanDecided(op: Operation, entries: seq<Entry>, k: nat)
    requires k <= |entries| && Scan(op, entries[..k]).Some?
    ensures Scan(op, entries) == Scan(op, entries[..k])
    decreases |entries|
  {
    if k < |entries| {
      var last := |entries| - 1;
      assert entries[..last][..k] == entries[..k];
      ScanDecided(op, entries[..last], k);
    } else {
      assert entries[..k] == entries;
    }
  }

  method ValidateConsumption(w: World, req: Request, entries: seq<Entry>, now: int) returns (d: Decision)
    ensures Chained(w, entries) ==> d == Decide(w, req, entries, now)
    ensures !Consumable(w, req, now) ==> d.OnHold? && FirstLack(w, req, now, d.reason)
    ensures Consumable(w, req, now) && !Chained(w, entries) ==>
      d.OnHold? && exists k :: FirstFault(w, entries, k, d.reason)
    ensures Consumable(w, req, now) && Chained(w, entries) ==>
      if forall i :: 0 <= i < |entries| ==> Apart(req.op, entries[i].body.op) then d == ReadyToAppend(Tail(entries))
      else exists k :: IsFirst(req.op, entries, k) && d == Judge(req.op, entries[k])
  {
    var fault := FieldFault(w, req, now);
    if fault.Some? {
      return OnHold(fault.value);
    }
    var chain := VerifyLedgerChain(w, entries);
    if chain.Err? {
      return OnHold(chain.error);
    }
    var found := ScanEntries(req.op, entries);
    ScanIsFirst(req.op, entries);
    if found.Some? {
      return found.value;
    }
    d := ReadyToAppend(chain.value);
  }

  datatype BuildError = ValidPreviousRecordShaRequired

  function BuildLedgerEntry(w: World, req: Request, previous: Option<string>): (r: Result<Entry, BuildError>)
    ensures r.Err? <==> previous.Some? && !IsHex(previous.value, 64)
    ensures r.Ok? ==> r.value.body == Body(req.op, req.consumedAt, req.source, previous)
    ensures r.Ok? ==> r.value.digest == w.digest(r.value.body)
  {
    if previous.Some? && !IsHex(previous.value, 64) then Err(ValidPreviousRecordShaRequired)
    else
      var body := Body(req.op, req.consumedAt, req.source, previous);
      Ok(Entry(body, w.digest(body)))
  }

  // ---- Ledgers that grow only by validate-then-append ------------------------------------

  /** No receipt, nonce or idempotency key is used twice. */
  ghost predicate UsedOnce(entries: seq<Entry>) {
    forall i, j :: 0 <= i < j < |entries| ==> Apart(entries[i].body.op, entries[j].body.op)
  }

  /** One attempt to consume a receipt at a moment. */
  datatype Attempt = Attempt(req: Request, now: int)

  /** The ledger after an attempt: one entry longer if the attempt was ready to append, else unchanged. */
  function After(w: World, entries: seq<Entry>, a: Attempt): (r: seq<Entry>)
    requires WellFormed(w) && Chained(w, entries)
    ensures Chained(w, r)
  {
    var d := Decide(w, a.req, entries, a.now);
    if d.ReadyToAppend? then
      TailIsHex(w, entries);
      var r := entries + [BuildLedgerEntry(w, a.req, d.previous).value];
      assert r[..|entries|] == entries;
      r
    else entries
  }

  lemma TailIsHex(w: World, entries: seq<Entry>)
    requires Chained(w, entries)
    ensures entries != [] ==> IsHex(Tail(entries).value, 64)
  {
  }

  function Grow(w: World, attempts: seq<Attempt>): (r: seq<Entry>)
    requires WellFormed(w)
    ensures Chained(w, r)
  {
    if attempts == [] then [] else After(w, Grow(w, attempts[..|attempts| - 1]), attempts[|attempts| - 1])
  }

  /** Every ledger so grown verifies, and uses every receipt, nonce and idempotency key once. */
  lemma {:induction false} GrownIsUsedOnce(w: World, attempts: seq<Attempt>)
    requires WellFormed(w)
    ensures Chained(w, Grow(w, attempts)) && UsedOnce(Grow(w, attempts))
  {
    if attempts == [] {
    } else {
      var k := |attempts| - 1;
      GrownIsUsedOnce(w, attempts[..k]);
      AppendKeepsUsedOnce(w, Grow(w, attempts[..k]), attempts[k]);
    }
  }

  /** The entry records a request that could be consumed when it was made. */
  predicate CameFrom(w: World, e: Entry, a: Attempt) {
    && e.body.op == a.req.op && e.body.consumedAt == a.req.consumedAt && e.body.source == a.req.source
    && Consumable(w, a.req, a.now)
  }

  lemma AppendedByRequest(w: World, entries: seq<Entry>, a: Attempt)
    requires WellFormed(w) && Chained(w, entries)
    ensures
      var after := After(w, entries, a);
      || after == entries
      || (|after| == |entries| + 1 && after[..|entries|] == entries && CameFrom(w, after[|entries|], a))
  {
    TailIsHex(w, entries);
  }

  /** Every entry of a grown ledger records a request that could be consumed when it was made: its receipt was
      approved. */
  lemma {:induction false} GrownIsApproved(w: World, attempts: seq<Attempt>, i: nat) returns (k: nat)
    requires WellFormed(w) && i < |Grow(w, attempts)|
    ensures k < |attempts| && CameFrom(w, Grow(w, attempts)[i], attempts[k])
  {
    var last := |attempts| - 1;
    var before := Grow(w, attempts[..last]);
    AppendedByRequest(w, before, attempts[last]);
    if i < |before| {
      k := GrownIsApproved(w, attempts[..last], i);
    } else {
      k := last;
    }
  }

  lemma AppendKeepsUsedOnce(w: World, entries: seq<Entry>, a: Attempt)
    requires WellFormed(w) && Chained(w, entries) && UsedOnce(entries)
    ensures UsedOnce(After(w, entries, a))
  {
    var d := Decide(w, a.req, entries, a.now);
    if d.ReadyToAppend? {
      TailIsHex(w, entries);
      AppendIsApart(entries, BuildLedgerEntry(w, a.req, d.previous).value, a.req.op);
    }
  }

  lemma AppendIsApart(entries: seq<Entry>, e: Entry, op: Operation)
    requires UsedOnce(entries) && e.body.op == op && forall i :: 0 <= i < |entries| ==> Apart(op, entries[i].body.op)
    ensures UsedOnce(entries + [e])
  {
    forall i | 0 <= i < |entries| ensures Apart(entries[i].body.op, e.body.op) {
      assert Apart(op, entries[i].body.op);
    }
  }

  /** The first match answers for the whole ledger: a request in order is a no-op exactly when its operation is
      anywhere in the ledger, and may be appended exactly when nothing in it touches the operation. */
  lemma FirstMatchAnswersForAll(w: World, entries: seq<Entry>, req: Request, now: int)
    requires Chained(w, entries) && UsedOnce(entries) && Consumable(w, req, now)
    ensures Decide(w, req, entries, now) == IdempotentNoop <==>
      exists i :: 0 <= i < |entries| && entries[i].body.op == req.op
    ensures Decide(w, req, entries, now).ReadyToAppend? <==>
      forall i :: 0 <= i < |entries| ==> Apart(req.op, entries[i].body.op)
  {
    ScanIsFirst(req.op, entries);
  }

  /** A decision of the scan is that of an entry, and no entry before it touches the operation. */
  lemma {:induction false} ScanIsFirst(op: Operation, entries: seq<Entry>)
    ensures Scan(op, entries).Some? ==>
      exists k :: IsFirst(op, entries, k) && Scan(op, entries) == Some(Judge(op, entries[k]))
  {
    if entries == [] {
    } else {
      var last := |entries| - 1;
      ScanIsFirst(op, entries[..last]);
      if Scan(op, entries[..last]).Some? {
        var k :| IsFirst(op, entries[..last], k) && Scan(op, entries[..last]) == Some(Judge(op, entries[..last][k]));
        FirstOfMore(op, entries, last, k);
      } else if Touches(op, entries[last]) {
        FirstIsLast(op, entries);
      }
    }
  }

  lemma FirstOfMore(op: Operation, entries: seq<Entry>, n: nat, k: int)
    requires n <= |entries| && IsFirst(op, entries[..n], k)
    ensures IsFirst(op, entries, k) && entries[k] == entries[..n][k]
  {
    forall i | 0 <= i < k ensures !Touches(op, entries[i]) {
      assert entries[..n][i] == entries[i];
    }
  }

  lemma FirstIsLast(op: Operation, entries: seq<Entry>)
    requires entries != [] && Scan(op, entries[..|entries| - 1]).None? && Touches(op, entries[|entries| - 1])
    ensures IsFirst(op, entries, |entries| - 1)
  {
    forall i | 0 <= i < |entries| - 1 ensures !Touches(op, entries[i]) {
      assert entries[..|entries| - 1][i] == entries[i];
    }
  }

  ghost predicate IsFirst(op: Operation, entries: seq<Entry>, k: int) {
    0 <= k < |entries| && Touches(op, entries[k]) && forall i :: 0 <= i < k ==> !Touches(op, entries[i])
  }

  lemma AfterExtends(w: World, entries: seq<Entry>, a: Attempt)
    requires WellFormed(w) && Chained(w, entries)
    ensures entries <= After(w, entries, a)
  {
  }

  lemma LastExtends(w: World, attempts: seq<Attempt>, before: seq<Attempt>)
    requires WellFormed(w) && attempts != [] && before == attempts[..|attempts| - 1]
    ensures Grow(w, before) <= Grow(w, attempts)
  {
    AfterExtends(w, Grow(w, before), attempts[|attempts| - 1]);
  }

  lemma {:induction false} GrowExtends(w: World, attempts: seq<Attempt>, k: nat)
    requires WellFormed(w) && k <= |attempts|
    ensures Grow(w, attempts[..k]) <= Grow(w, attempts)
    decreases |attempts|
  {
    if k < |attempts| {
      var before := attempts[..|attempts| - 1];
      assert before[..k] == attempts[..k];
      GrowExtends(w, before, k);
      LastExtends(w, attempts, before);
    } else {
      assert attempts[..k] == attempts;
    }
  }

  /** An attempt that was ready left its operation in the ledger for good. */
  lemma ConsumedIsKept(w: World, attempts: seq<Attempt>, k: nat)
    requires WellFormed(w) && k < |attempts|
    requires Decide(w, attempts[k].req, Grow(w, attempts[..k]), attempts[k].now).ReadyToAppend?
    ensures exists i :: 0 <= i < |Grow(w, attempts)| && Grow(w, attempts)[i].body.op == attempts[k].req.op
  {
    assert attempts[..k + 1][..k] == attempts[..k];
    var before, after := Grow(w, attempts[..k]), Grow(w, attempts[..k + 1]);
    assert after == After(w, before, attempts[k]);
    assert after[|before|].body.op == attempts[k].req.op;
    GrowExtends(w, attempts, k + 1);
    assert Grow(w, attempts)[|before|] == after[|before|];
  }

  /** Once an operation is consumed, every later retry of it in good order is a no-op, whatever else has been
      consumed since, and every other use of its receipt, nonce or key is held. */
  lemma RetryStaysNoop(w: World, attempts: seq<Attempt>, k: nat, req: Request, now: int)
    requires WellFormed(w) && k < |attempts|
    requires Decide(w, attempts[k].req, Grow(w, attempts[..k]), attempts[k].now).ReadyToAppend?
    requires Consumable(w, req, now) && SharesAny(req.op, attempts[k].req.op)
    ensures
      var d := Decide(w, req, Grow(w, attempts), now);
      if req.op == attempts[k].req.op then d == IdempotentNoop else !d.ReadyToAppend?
  {
    var entries := Grow(w, attempts);
    GrownIsUsedOnce(w, attempts);
    ConsumedIsKept(w, attempts, k);
    RetryIn(w, entries, attempts[k].req.op, req, now);
  }

  predicate SharesAny(a: Operation, b: Operation) {
    a.receipt == b.receipt || a.nonce == b.nonce || a.key == b.key
  }

  lemma RetryIn(w: World, entries: seq<Entry>, op: Operation, req: Request, now: int)
    requires Chained(w, entries) && UsedOnce(entries) && Consumable(w, req, now) && SharesAny(req.op, op)
    requires exists i :: 0 <= i < |entries| && entries[i].body.op == op
    ensures
      var d := Decide(w, req, entries, now);
      if req.op == op then d == IdempotentNoop else !d.ReadyToAppend?
  {
    FirstMatchAnswersForAll(w, entries, req, now);
    var i :| 0 <= i < |entries| && entries[i].body.op == op;
    assert Touches(req.op, entries[i]);
  }
}
