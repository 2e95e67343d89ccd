/** The durable state of the blob store (model_scheduler/blob_store.py and blob_metadata.py): the
    blobs, journal and lease tables, the `.part` files and the published files. Every
    transaction, rename and unlink is one durable step; SHA-256 is the parameter `h`. */
module BlobModel {
  import opened Prelude

  newtype Byte = x: int | 0 <= x < 256

  type Bytes = seq<Byte>
  type Time = real

  datatype BlobId = BlobId(n: nat)
  datatype Owner = Owner(n: nat)
  datatype Holder = Holder(n: nat)
  datatype Digest = Digest(n: nat)

  datatype BlobState = Reserved | Staging | Published | Deleted | Corrupt

  datatype Row = Row(owner: Owner, sha: Option<Digest>, size: nat, state: BlobState, expiresAt: Option<Time>)

  datatype JournalStep = StepStaging | StepPending | StepPublished

  datatype Entry = Entry(step: JournalStep, sha: Option<Digest>, size: nat)

  datatype FileKey = FileKey(owner: Owner, id: BlobId)
  datatype ReadLease = ReadLease(id: BlobId, holder: Holder)

  datatype Policy = Policy(ownerQuota: nat, globalQuota: nat, minFree: nat, retention: Time, tombstone: Time)

  datatype Durable = Durable(
    rows: map<BlobId, Row>,
    journal: map<BlobId, Entry>,
    parts: map<BlobId, Bytes>,
    files: map<FileKey, Bytes>,
    leases: set<ReadLease>)

  predicate Unfinished(r: Row) {
    r.state.Reserved? || r.state.Staging?
  }

  predicate IsOpen(d: Durable, id: BlobId) {
    id in d.rows && Unfinished(d.rows[id])
  }

  predicate IsPublished(d: Durable, id: BlobId) {
    id in d.rows && d.rows[id].state.Published?
  }

  function KeyOf(d: Durable, id: BlobId): (key: FileKey)
    requires id in d.rows
  {
    FileKey(d.rows[id].owner, id)
  }

  predicate FileIs(h: Bytes -> Digest, d: Durable, key: FileKey, sha: Option<Digest>, size: nat) {
    key in d.files && sha == Some(h(d.files[key])) && size == |d.files[key]|
  }

  /** A published row is readable when its file has the row's size and hash. */
  predicate Readable(h: Bytes -> Digest, d: Durable, id: BlobId) {
    IsPublished(d, id) && FileIs(h, d, KeyOf(d, id), d.rows[id].sha, d.rows[id].size)
  }

  /** An interrupted publish that recovery finishes: the rename happened and the bytes are the
      journalled ones. */
  predicate Completable(h: Bytes -> Digest, d: Durable, id: BlobId) {
    && IsOpen(d, id)
    && id in d.journal && d.journal[id].step.StepPending?
    && FileIs(h, d, KeyOf(d, id), d.journal[id].sha, d.journal[id].size)
  }

  /** The received bytes are the declared and expected ones. */
  predicate Matches(h: Bytes -> Digest, bytes: Bytes, declared: Option<nat>, expected: Option<Digest>) {
    (declared.Some? ==> |bytes| == declared.value) && (expected.Some? ==> h(bytes) == expected.value)
  }

  // ---- the tables' transactions -----------------------------------------------------------

  function SetRow(d: Durable, id: BlobId, r: Row): (d': Durable) {
    d.(rows := d.rows[id := r])
  }

  function BeginStaging(d: Durable, id: BlobId): (d': Durable) {
    if id in d.rows && d.rows[id].state.Reserved? then SetRow(d, id, d.rows[id].(state := Staging)) else d
  }

  function PublishRow(d: Durable, id: BlobId, sha: Digest, size: nat, expiresAt: Time): (d': Durable) {
    if IsOpen(d, id)
    then SetRow(d, id, d.rows[id].(state := Published, sha := Some(sha), size := size, expiresAt := Some(expiresAt)))
    else d
  }

  function AbortRow(d: Durable, id: BlobId): (d': Durable) {
    if IsOpen(d, id) then d.(rows := d.rows - {id}) else d
  }

  function WriteJournal(d: Durable, id: BlobId, step: JournalStep, sha: Option<Digest>, size: nat): (d': Durable) {
    d.(journal := d.journal[id := Entry(step, sha, size)])
  }

  function ClearJournal(d: Durable, id: BlobId): (d': Durable) {
    d.(journal := d.journal - {id})
  }

  function MarkCorrupt(d: Durable, id: BlobId): (d': Durable) {
    if IsPublished(d, id) then SetRow(d, id, d.rows[id].(state := Corrupt)) else d
  }

  function ReleaseMissing(d: Durable, id: BlobId, keep: bool, expiresAt: Time): (d': Durable) {
    if id in d.rows
    then SetRow(d, id, d.rows[id].(state := if keep then Deleted else Corrupt, size := 0, expiresAt := Some(expiresAt)))
    else d
  }

  predicate IsLeased(d: Durable, id: BlobId) {
    exists lease :: lease in d.leases && lease.id == id
  }

  function Tombstone(d: Durable, id: BlobId, expiresAt: Time): (d': Durable)
    requires id in d.rows
  {
    SetRow(d, id, d.rows[id].(state := Deleted, expiresAt := Some(expiresAt)))
  }

  function RemovePart(d: Durable, id: BlobId): (d': Durable) {
    d.(parts := d.parts - {id})
  }

  function RemoveFile(d: Durable, key: FileKey): (d': Durable) {
    d.(files := d.files - {key})
  }

  function Protect(d: Durable, holder: Holder): (d': Durable) {
    d.(leases := d.leases + set id | id in d.rows && d.rows[id].state.Published? :: ReadLease(id, holder))
  }

  // ---- recovery, one durable step at a time -----------------------------------------------

  datatype RecoveryMove =
    | ToCorrupt(id: BlobId)
    | ToTombstone(id: BlobId, expiresAt: Time)
    | ToPublished(id: BlobId, expiresAt: Time)
    | DropPart(id: BlobId)
    | DropFile(id: BlobId)
    | DropRow(id: BlobId)
    | DropJournal(id: BlobId)
    | AddProtection(holder: Holder)

  /** Where in its pass recovery makes each durable step. */
  predicate MayMove(h: Bytes -> Digest, d: Durable, mv: RecoveryMove) {
    match mv
    case ToCorrupt(id) => IsPublished(d, id) && !Readable(h, d, id)
    case ToTombstone(id, _) => id in d.rows && !Unfinished(d.rows[id]) && !Readable(h, d, id)
    case ToPublished(id, _) => Completable(h, d, id)
    case DropPart(id) => true
    case DropFile(id) => IsOpen(d, id) && !Completable(h, d, id)
    case DropRow(id) => IsOpen(d, id) && KeyOf(d, id) !in d.files && id !in d.parts
    case DropJournal(id) => !IsOpen(d, id)
    case AddProtection(_) => true
  }

  function Move(h: Bytes -> Digest, d: Durable, mv: RecoveryMove): (d': Durable)
    requires MayMove(h, d, mv)
  {
    match mv
    case ToCorrupt(id) => MarkCorrupt(d, id)
    case ToTombstone(id, expiresAt) => ReleaseMissing(d, id, true, expiresAt)
    case ToPublished(id, expiresAt) => PublishRow(d, id, d.journal[id].sha.value, d.journal[id].size, expiresAt)
    case DropPart(id) => RemovePart(d, id)
    case DropFile(id) => RemoveFile(d, KeyOf(d, id))
    case DropRow(id) => AbortRow(d, id)
    case DropJournal(id) => ClearJournal(d, id)
    case AddProtection(holder) => Protect(d, holder)
  }

  ghost predicate Recovers(h: Bytes -> Digest, d: Durable, d': Durable) {
    exists mv :: MayMove(h, d, mv) && d' == Move(h, d, mv)
  }

  /** Any number of recovery passes, each cut short anywhere by a crash, leave such a trace. */
  ghost predicate RecoveryTrace(h: Bytes -> Digest, ds: seq<Durable>) {
    |ds| > 0 && forall i :: 0 <= i < |ds| - 1 ==> Recovers(h, ds[i], ds[i + 1])
  }

  // ---- what recovery is heading for -------------------------------------------------------

  datatype Visible = Visible(owner: Owner, sha: Option<Digest>, size: nat)

  /** The blob this id will be once recovery is through, if any. */
  function Outcome(h: Bytes -> Digest, d: Durable, id: BlobId): (v: Option<Visible>) {
    if Readable(h, d, id) then Some(Visible(d.rows[id].owner, d.rows[id].sha, d.rows[id].size))
    else if Completable(h, d, id) then Some(Visible(d.rows[id].owner, d.journal[id].sha, d.journal[id].size))
    else None
  }

  /** The files of unfinished uploads that cannot be completed go. */
  predicate Doomed(h: Bytes -> Digest, d: Durable, key: FileKey) {
    IsOpen(d, key.id) && KeyOf(d, key.id) == key && !Completable(h, d, key.id)
  }

  function FinalFile(h: Bytes -> Digest, d: Durable, key: FileKey): (f: Option<Bytes>) {
    if key in d.files && !Doomed(h, d, key) then Some(d.files[key]) else None
  }

  ghost predicate SameOutcome(h: Bytes -> Digest, d: Durable, d': Durable) {
    && (forall id :: Outcome(h, d', id) == Outcome(h, d, id))
    && (forall key :: FinalFile(h, d', key) == FinalFile(h, d, key))
  }

  /** No unfinished row, no `.part` file, and every published row has its file. */
  ghost predicate Settled(h: Bytes -> Digest, d: Durable) {
    && (forall id :: !IsOpen(d, id))
    && d.parts == map[]
    && (forall id :: IsPublished(d, id) ==> Readable(h, d, id))
  }

  /** The published blobs a reader can see. */
  function PublishedAt(d: Durable, id: BlobId): (v: Option<Visible>) {
    if IsPublished(d, id) then Some(Visible(d.rows[id].owner, d.rows[id].sha, d.rows[id].size)) else None
  }

  lemma MoveKeepsOutcome(h: Bytes -> Digest, d: Durable, mv: RecoveryMove, id: BlobId)
    requires MayMove(h, d, mv)
    ensures Outcome(h, Move(h, d, mv), id) == Outcome(h, d, id)
  {
  }

  lemma MoveKeepsFiles(h: Bytes -> Digest, d: Durable, mv: RecoveryMove, key: FileKey)
    requires MayMove(h, d, mv)
    ensures FinalFile(h, Move(h, d, mv), key) == FinalFile(h, d, key)
  {
  }

  lemma StepKeepsOutcome(h: Bytes -> Digest, d: Durable, d': Durable)
    requires Recovers(h, d, d')
    ensures SameOutcome(h, d, d')
  {
    hide MayMove, Move, Outcome, FinalFile;
    var mv :| MayMove(h, d, mv) && d' == Move(h, d, mv);
    forall id ensures Outcome(h, d', id) == Outcome(h, d, id) { MoveKeepsOutcome(h, d, mv, id); }
    forall key ensures FinalFile(h, d', key) == FinalFile(h, d, key) { MoveKeepsFiles(h, d, mv, key); }
  }

  lemma {:induction false} TraceKeepsOutcome(h: Bytes -> Digest, ds: seq<Durable>, i: nat)
    requires RecoveryTrace(h, ds) && i < |ds|
    ensures SameOutcome(h, ds[0], ds[i])
  {
    hide Recovers, Outcome, FinalFile;
    if i > 0 {
      TraceKeepsOutcome(h, ds, i - 1);
      StepKeepsOutcome(h, ds[i - 1], ds[i]);
    }
  }

  lemma SettledShowsOutcome(h: Bytes -> Digest, d: Durable)
    requires Settled(h, d)
    ensures forall id :: PublishedAt(d, id) == Outcome(h, d, id)
    ensures forall key :: FinalFile(h, d, key) == if key in d.files then Some(d.files[key]) else None
  {
  }

  // ---- what a full pass leaves ------------------------------------------------------------

  function RecoveredRow(h: Bytes -> Digest, p: Policy, d: Durable, id: BlobId, now: Time): (r: Option<Row>)
    requires id in d.rows
  {
    var r := d.rows[id];
    if IsPublished(d, id) && !Readable(h, d, id)
    then Some(r.(state := Deleted, size := 0, expiresAt := Some(now + p.tombstone)))
    else if Completable(h, d, id)
    then Some(r.(state := Published, sha := d.journal[id].sha, size := d.journal[id].size,
                 expiresAt := Some(now + p.retention)))
    else if Unfinished(r) then None
    else Some(r)
  }

  /** The state after an uninterrupted pass. Journal rows of uploads that failed earlier stay. */
  function Recovered(h: Bytes -> Digest, p: Policy, d: Durable, now: Time): (d': Durable) {
    Durable(
      map id | id in d.rows && RecoveredRow(h, p, d, id, now).Some? :: RecoveredRow(h, p, d, id, now).value,
      map id | id in d.journal && !IsOpen(d, id) && !IsPublished(d, id) :: d.journal[id],
      map[],
      map key | key in d.files && !Doomed(h, d, key) :: d.files[key],
      d.leases)
  }

  /** From any durable state whatever, a full pass settles the store. */
  lemma RecoveredIsSettled(h: Bytes -> Digest, p: Policy, d: Durable, now: Time)
    ensures Settled(h, Recovered(h, p, d, now))
    ensures SameOutcome(h, d, Recovered(h, p, d, now))
  {
    var d' := Recovered(h, p, d, now);
    forall id
      ensures !IsOpen(d', id) && (IsPublished(d', id) ==> Readable(h, d', id))
      ensures Outcome(h, d', id) == Outcome(h, d, id)
    {
      assert id in d'.rows ==> d'.rows[id] == RecoveredRow(h, p, d, id, now).value;
    }
  }

  /** Recovery converges: cut short any number of times at any durable steps and run again, it
      ends with the same published blobs and the same files as one uninterrupted pass. */
  lemma RecoveryConverges(h: Bytes -> Digest, p: Policy, ds: seq<Durable>, i: nat, now: Time, later: Time)
    requires RecoveryTrace(h, ds) && i < |ds|
    ensures forall id :: PublishedAt(Recovered(h, p, ds[i], later), id) == PublishedAt(Recovered(h, p, ds[0], now), id)
    ensures Recovered(h, p, ds[i], later).files == Recovered(h, p, ds[0], now).files
  {
    hide RecoveryTrace, Outcome, FinalFile, Recovered, Settled, PublishedAt;
    var d, d' := Recovered(h, p, ds[0], now), Recovered(h, p, ds[i], later);
    TraceKeepsOutcome(h, ds, i);
    RecoveredIsSettled(h, p, ds[0], now);
    RecoveredIsSettled(h, p, ds[i], later);
    SettledShowsOutcome(h, d);
    SettledShowsOutcome(h, d');
    forall id ensures PublishedAt(d', id) == PublishedAt(d, id) {
      assert Outcome(h, d', id) == Outcome(h, ds[i], id) == Outcome(h, ds[0], id) == Outcome(h, d, id);
    }
    forall key ensures (key in d'.files <==> key in d.files) && (key in d.files ==> d'.files[key] == d.files[key]) {
      assert FinalFile(h, d', key) == FinalFile(h, ds[i], key) == FinalFile(h, ds[0], key) == FinalFile(h, d, key);
    }
    assert d'.files == d.files;
  }
}
