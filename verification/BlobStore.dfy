/** The store object: the tables and files updated in place, one durable step after another. The
    ghost `log` keeps every durable state passed through, which is where a crash can fall. */
module BlobStoreObject {
  import opened Prelude
  import opened BlobModel
  import BlobAtomic

  lemma TraceExtends(h: Bytes -> Digest, ds: seq<Durable>, d: Durable, mv: RecoveryMove)
    requires RecoveryTrace(h, ds) && MayMove(h, ds[|ds| - 1], mv) && d == Move(h, ds[|ds| - 1], mv)
    ensures RecoveryTrace(h, ds + [d])
  {
    hide MayMove, Move;
    var es := ds + [d];
    forall i | 0 <= i < |es| - 1
      ensures Recovers(h, es[i], es[i + 1])
    {
      assert i < |ds| - 1 ==> Recovers(h, ds[i], ds[i + 1]);
    }
  }

  /** One published row is verified. */
  function Verified(h: Bytes -> Digest, p: Policy, d: Durable, now: Time, id: BlobId): (d': Durable) {
    var kept := if Readable(h, d, id) then d else BlobModel.ReleaseMissing(d, id, true, now + p.tombstone);
    BlobModel.ClearJournal(kept, id)
  }

  /** One unfinished row is completed or undone. */
  function Resolved(h: Bytes -> Digest, p: Policy, d: Durable, now: Time, id: BlobId): (d': Durable)
    requires IsOpen(d, id)
  {
    var d1 := RemovePart(d, id);
    BlobModel.ClearJournal(
      if Completable(h, d, id) then PublishRow(d1, id, d.journal[id].sha.value, d.journal[id].size, now + p.retention)
      else AbortRow(RemoveFile(d1, KeyOf(d, id)), id), id)
  }

  // ---- where the pass is heading, entry by entry ---------------------------------------------

  function GoalRow(h: Bytes -> Digest, p: Policy, d: Durable, now: Time, id: BlobId): (r: Option<Row>) {
    if id in d.rows then RecoveredRow(h, p, d, id, now) else None
  }

  function GoalEntry(d: Durable, id: BlobId): (e: Option<Entry>) {
    if id in d.journal && !IsOpen(d, id) && !IsPublished(d, id) then Some(d.journal[id]) else None
  }

  predicate SameGoalAt(h: Bytes -> Digest, p: Policy, d: Durable, d': Durable, now: Time, key: FileKey) {
    && GoalRow(h, p, d', now, key.id) == GoalRow(h, p, d, now, key.id)
    && GoalEntry(d', key.id) == GoalEntry(d, key.id)
    && FinalFile(h, d', key) == FinalFile(h, d, key)
  }

  lemma RecoveredAt(h: Bytes -> Digest, p: Policy, d: Durable, now: Time, key: FileKey)
    ensures var r := Recovered(h, p, d, now);
            && GoalRow(h, p, d, now, key.id) == (if key.id in r.rows then Some(r.rows[key.id]) else None)
            && GoalEntry(d, key.id) == (if key.id in r.journal then Some(r.journal[key.id]) else None)
            && FinalFile(h, d, key) == (if key in r.files then Some(r.files[key]) else None)
  {
  }

  lemma SameGoalSameEnd(h: Bytes -> Digest, p: Policy, d: Durable, d': Durable, now: Time)
    requires d'.leases == d.leases && forall key :: SameGoalAt(h, p, d, d', now, key)
    ensures Recovered(h, p, d', now) == Recovered(h, p, d, now)
  {
    hide GoalRow, GoalEntry, FinalFile;
    var r, r' := Recovered(h, p, d, now), Recovered(h, p, d', now);
    assert r.parts == r'.parts && r.leases == r'.leases;
    hide Recovered;
    forall id
      ensures (id in r'.rows <==> id in r.rows) && (id in r.rows ==> r'.rows[id] == r.rows[id])
      ensures (id in r'.journal <==> id in r.journal) && (id in r.journal ==> r'.journal[id] == r.journal[id])
    {
      var key := FileKey(Owner(0), id);
      assert SameGoalAt(h, p, d, d', now, key);
      RecoveredAt(h, p, d, now, key);
      RecoveredAt(h, p, d', now, key);
    }
    forall key
      ensures (key in r'.files <==> key in r.files) && (key in r.files ==> r'.files[key] == r.files[key])
    {
      assert SameGoalAt(h, p, d, d', now, key);
      RecoveredAt(h, p, d, now, key);
      RecoveredAt(h, p, d', now, key);
    }
    assert r'.rows == r.rows;
    assert r'.journal == r.journal;
    assert r'.files == r.files;
  }

  lemma VerifyingKeepsGoalAt(h: Bytes -> Digest, p: Policy, d: Durable, now: Time, id: BlobId, key: FileKey)
    requires IsPublished(d, id)
    ensures SameGoalAt(h, p, d, Verified(h, p, d, now, id), now, key)
  {
  }

  lemma ResolvingKeepsGoalAt(h: Bytes -> Digest, p: Policy, d: Durable, now: Time, id: BlobId, key: FileKey)
    requires IsOpen(d, id)
    ensures SameGoalAt(h, p, d, Resolved(h, p, d, now, id), now, key)
  {
  }

  /** Verifying or resolving one row does not change where the whole pass ends. */
  lemma VerifyingKeepsGoal(h: Bytes -> Digest, p: Policy, d: Durable, now: Time, id: BlobId)
    requires IsPublished(d, id)
    ensures Recovered(h, p, Verified(h, p, d, now, id), now) == Recovered(h, p, d, now)
  {
    var d1 := Verified(h, p, d, now, id);
    assert d1.leases == d.leases;
    hide SameGoalAt, Verified, Recovered;
    forall key ensures SameGoalAt(h, p, d, d1, now, key) { VerifyingKeepsGoalAt(h, p, d, now, id, key); }
    SameGoalSameEnd(h, p, d, d1, now);
  }

  lemma ResolvingKeepsGoal(h: Bytes -> Digest, p: Policy, d: Durable, now: Time, id: BlobId)
    requires IsOpen(d, id)
    ensures Recovered(h, p, Resolved(h, p, d, now, id), now) == Recovered(h, p, d, now)
  {
    var d1 := Resolved(h, p, d, now, id);
    assert d1.leases == d.leases;
    hide SameGoalAt, Resolved, Recovered;
    forall key ensures SameGoalAt(h, p, d, d1, now, key) { ResolvingKeepsGoalAt(h, p, d, now, id, key); }
    SameGoalSameEnd(h, p, d, d1, now);
  }

  /** A published row that the pass is done with. */
  predicate Checked(h: Bytes -> Digest, d: Durable, id: BlobId) {
    IsPublished(d, id) ==> Readable(h, d, id) && id !in d.journal
  }

  lemma NothingLeft(h: Bytes -> Digest, p: Policy, d: Durable, now: Time)
    requires d.parts == map[] && forall id :: !IsOpen(d, id) && Checked(h, d, id)
    ensures Recovered(h, p, d, now) == d
  {
    var r := Recovered(h, p, d, now);
    forall id | id in d.rows ensures RecoveredRow(h, p, d, id, now) == Some(d.rows[id]) {
      assert !IsOpen(d, id) && Checked(h, d, id);
    }
    assert r.rows == d.rows;
    assert forall id :: id in d.journal ==> !IsOpen(d, id) && Checked(h, d, id);
    assert r.journal == d.journal;
    assert forall key :: key in d.files ==> !IsOpen(d, key.id);
    assert r.files == d.files;
  }

  /** What the other rows look like after one row is verified or resolved. */
  lemma OthersAfterVerifying(h: Bytes -> Digest, p: Policy, d: Durable, now: Time, id: BlobId, x: BlobId)
    requires IsPublished(d, id)
    ensures var d1 := Verified(h, p, d, now, id);
            && (IsOpen(d1, x) <==> IsOpen(d, x)) && d1.parts == d.parts
            && (x == id || Checked(h, d, x) ==> Checked(h, d1, x))
            && (x != id ==> (IsPublished(d1, x) <==> IsPublished(d, x)) && (Readable(h, d1, x) <==> Readable(h, d, x)))
            && (IsOpen(d, x) ==> (Completable(h, d1, x) <==> Completable(h, d, x)))
  {
  }

  lemma OthersAfterResolving(h: Bytes -> Digest, p: Policy, d: Durable, now: Time, id: BlobId, x: BlobId)
    requires IsOpen(d, id)
    ensures var d1 := Resolved(h, p, d, now, id);
            && (IsOpen(d1, x) <==> IsOpen(d, x) && x != id)
            && (Checked(h, d, x) ==> Checked(h, d1, x))
            && (x != id ==> (Completable(h, d1, x) <==> Completable(h, d, x)))
            && d1.parts == d.parts - {id}
  {
  }

  // ---- what the loops have seen so far -------------------------------------------------------

  /** The first loop at row `x`: the pass started in `d0` and stands in `d`. */
  predicate VerifyView(h: Bytes -> Digest, d0: Durable, d: Durable, todo: set<BlobId>, verified: set<BlobId>,
                       unreadable: set<BlobId>, x: BlobId) {
    && (IsOpen(d, x) <==> IsOpen(d0, x)) && (Completable(h, d, x) <==> Completable(h, d0, x))
    && (x in todo ==> IsPublished(d, x) && (Readable(h, d, x) <==> Readable(h, d0, x)))
    && (x in todo || Checked(h, d, x))
    && (x in verified <==> x !in todo && Readable(h, d0, x))
    && (x in unreadable + todo <==> IsPublished(d0, x) && x !in verified) && !(x in unreadable && x in todo)
  }

  lemma ViewedIsPublished(h: Bytes -> Digest, d0: Durable, d: Durable, todo: set<BlobId>, v: set<BlobId>,
                          u: set<BlobId>, id: BlobId)
    requires VerifyView(h, d0, d, todo, v, u, id) && id in todo
    ensures IsPublished(d, id)
  {
  }

  lemma ViewAfterVerifying(h: Bytes -> Digest, p: Policy, d0: Durable, d: Durable, now: Time, todo: set<BlobId>,
                           v: set<BlobId>, u: set<BlobId>, id: BlobId, x: BlobId)
    requires VerifyView(h, d0, d, todo, v, u, x) && VerifyView(h, d0, d, todo, v, u, id) && id in todo
    requires IsPublished(d, id)
    ensures var ok := Readable(h, d, id);
            VerifyView(h, d0, Verified(h, p, d, now, id), todo - {id}, if ok then v + {id} else v,
                       if ok then u else u + {id}, x)
  {
    OthersAfterVerifying(h, p, d, now, id, x);
    hide Verified, Readable, Completable, Checked;
  }

  lemma VerifiedKeepsRest(h: Bytes -> Digest, p: Policy, d: Durable, now: Time, id: BlobId)
    ensures Verified(h, p, d, now, id).leases == d.leases && Verified(h, p, d, now, id).parts == d.parts
  {
  }

  /** The second loop at row `x`. */
  predicate ResolveView(h: Bytes -> Digest, d0: Durable, d: Durable, todo: set<BlobId>, completed: set<BlobId>,
                        purged: set<BlobId>, x: BlobId) {
    && (IsOpen(d, x) <==> x in todo) && (x in todo ==> (Completable(h, d, x) <==> Completable(h, d0, x)))
    && Checked(h, d, x)
    && (x in completed <==> x !in todo && Completable(h, d0, x))
    && (x in purged + todo <==> IsOpen(d0, x) && x !in completed) && !(x in purged && x in todo)
    && (x in d.parts <==> x in d0.parts && (x in todo || !IsOpen(d0, x)))
  }

  lemma ViewedIsOpen(h: Bytes -> Digest, d0: Durable, d: Durable, todo: set<BlobId>, c: set<BlobId>, g: set<BlobId>,
                     id: BlobId)
    requires ResolveView(h, d0, d, todo, c, g, id) && id in todo
    ensures IsOpen(d, id)
  {
  }

  lemma ViewAfterResolving(h: Bytes -> Digest, p: Policy, d0: Durable, d: Durable, now: Time, todo: set<BlobId>,
                           c: set<BlobId>, g: set<BlobId>, id: BlobId, x: BlobId)
    requires ResolveView(h, d0, d, todo, c, g, x) && ResolveView(h, d0, d, todo, c, g, id) && id in todo
    requires IsOpen(d, id)
    ensures var ok := Completable(h, d, id);
            ResolveView(h, d0, Resolved(h, p, d, now, id), todo - {id}, if ok then c + {id} else c,
                        if ok then g else g + {id}, x)
  {
    OthersAfterResolving(h, p, d, now, id, x);
    hide Resolved, Completable, Checked;
  }

  lemma ResolvedKeepsLeases(h: Bytes -> Digest, p: Policy, d: Durable, now: Time, id: BlobId)
    requires IsOpen(d, id)
    ensures Resolved(h, p, d, now, id).leases == d.leases
  {
  }

  lemma AllChecked(h: Bytes -> Digest, d0: Durable, d1: Durable, v: set<BlobId>, u: set<BlobId>)
    requires forall x :: VerifyView(h, d0, d1, {}, v, u, x)
    ensures forall x :: Checked(h, d1, x)
  {
    forall x ensures Checked(h, d1, x) { assert VerifyView(h, d0, d1, {}, v, u, x); }
  }

  /** What the three loops have seen is what the pass reports. */
  lemma ReportIs(h: Bytes -> Digest, d0: Durable, d1: Durable, d2: Durable, v: set<BlobId>, u: set<BlobId>,
                 c: set<BlobId>, g: set<BlobId>)
    requires forall x :: VerifyView(h, d0, d1, {}, v, u, x)
    requires (forall x :: ResolveView(h, d1, d2, {}, c, g, x)) && d1.parts == d0.parts
    ensures RecoveryReport(v + c, u, g + d2.parts.Keys, {}) == Report(h, d0, None)
  {
    var r := Report(h, d0, None);
    forall x
      ensures (x in v + c <==> x in r.verified) && (x in u <==> x in r.unreadable)
      ensures x in g + d2.parts.Keys <==> x in r.purged
    {
      assert VerifyView(h, d0, d1, {}, v, u, x) && ResolveView(h, d1, d2, {}, c, g, x);
      hide Readable;
    }
    assert v + c == r.verified && u == r.unreadable && g + d2.parts.Keys == r.purged;
  }

  lemma FullPass(h: Bytes -> Digest, p: Policy, d0: Durable, d2: Durable, now: Time, d1: Durable, c: set<BlobId>,
                 g: set<BlobId>)
    requires forall x :: ResolveView(h, d1, d2, {}, c, g, x)
    requires Recovered(h, p, d2, now) == Recovered(h, p, d0, now)
    ensures d2.(parts := map[]) == Recovered(h, p, d0, now) && Settled(h, d2.(parts := map[]))
  {
    var d := d2.(parts := map[]);
    forall id ensures !IsOpen(d, id) && Checked(h, d, id) { assert ResolveView(h, d1, d2, {}, c, g, id); }
    SweepingKeepsGoal(h, p, d2, now);
    NothingLeft(h, p, d, now);
    RecoveredIsSettled(h, p, d0, now);
  }

  /** The blobs published after a pass are the ones it reports as verified. */
  lemma PublishedIsVerified(h: Bytes -> Digest, p: Policy, d: Durable, now: Time)
    ensures var r := Recovered(h, p, d, now);
            (set id | id in r.rows && IsPublished(r, id)) == Report(h, d, None).verified
  {
    var r := Recovered(h, p, d, now);
    forall id ensures IsPublished(r, id) <==> id in d.rows && (Readable(h, d, id) || Completable(h, d, id)) {
      assert id in r.rows ==> r.rows[id] == RecoveredRow(h, p, d, id, now).value;
    }
  }

  lemma ProtectingKeepsSettled(h: Bytes -> Digest, d: Durable, holder: Holder)
    requires Settled(h, d)
    ensures Settled(h, Protect(d, holder))
  {
    var d' := Protect(d, holder);
    forall id ensures !IsOpen(d', id) && (IsPublished(d', id) ==> Readable(h, d', id)) {
      assert !IsOpen(d, id) && (IsPublished(d, id) ==> Readable(h, d, id));
    }
  }

  // ---- received streams ------------------------------------------------------------------------

  function Concat(chunks: seq<Bytes>): (all: Bytes) {
    if chunks == [] then [] else Concat(chunks[..|chunks| - 1]) + chunks[|chunks| - 1]
  }

  lemma {:induction false} ConcatGrows(chunks: seq<Bytes>, i: nat)
    requires i <= |chunks|
    ensures |Concat(chunks[..i])| <= |Concat(chunks)|
    decreases |chunks|
  {
    if i < |chunks| {
      var init := chunks[..|chunks| - 1];
      ConcatGrows(init, i);
      assert init[..i] == chunks[..i];
    } else {
      assert chunks[..i] == chunks;
    }
  }

  datatype RecoveryReport = RecoveryReport(verified: set<BlobId>, unreadable: set<BlobId>, purged: set<BlobId>,
                                           protected: set<BlobId>)

  /** The ids a pass reports: those it leaves published, those whose file was gone or wrong, those
      whose upload or `.part` file it removed, and those it puts under a restart lease. */
  function Report(h: Bytes -> Digest, d: Durable, restart: Option<Holder>): (r: RecoveryReport) {
    var verified := set id | id in d.rows && (Readable(h, d, id) || Completable(h, d, id));
    RecoveryReport(
      verified,
      set id | id in d.rows && IsPublished(d, id) && !Readable(h, d, id),
      (set id | id in d.rows && IsOpen(d, id) && !Completable(h, d, id)) + (set id | id in d.parts && !IsOpen(d, id)),
      if restart.Some? then verified else {})
  }

  datatype UploadResult = Uploaded(sha: Digest, size: nat) | TooLarge | ChecksumMismatch | Interrupted

  /** Where an upload is interrupted, and whether the interrupted step happened all the same: a
      cancelled wait leaves a running rename or transaction to its end. */
  datatype Fault = NoFault | StreamBreaks | RenameFails(moved: bool) | PublishFails(committed: bool)

  /** The failure is a failure: the step did not happen. */
  predicate Reported(fault: Fault) {
    fault != RenameFails(true) && fault != PublishFails(true)
  }

  function Shown(h: Bytes -> Digest, p: Policy, r: Row, bytes: Bytes, now: Time): (r': Row) {
    r.(state := Published, sha := Some(h(bytes)), size := |bytes|, expiresAt := Some(now + p.retention))
  }

  /** Where a fully received part ends: row and file together, neither, or, when a step is reported
      as failed although it happened, one of them alone. */
  function AfterPublish(h: Bytes -> Digest, p: Policy, d: Durable, id: BlobId, received: Bytes, now: Time,
                        fault: Fault): (d': Durable)
    requires id in d.rows
  {
    d.(rows :=
         if fault.RenameFails? || fault == PublishFails(false) then d.rows - {id}
         else d.rows[id := Shown(h, p, d.rows[id], received, now)],
       files :=
         if fault.PublishFails? || fault == RenameFails(false) then d.files
         else d.files[KeyOf(d, id) := received],
       parts := d.parts - {id},
       journal := d.journal - {id})
  }

  lemma PublishedOrNot(h: Bytes -> Digest, p: Policy, d: Durable, id: BlobId, received: Bytes, now: Time, fault: Fault)
    requires BlobAtomic.Begun(d, id)
    ensures var d' := AfterPublish(h, p, d, id, received, now, fault);
            && (Readable(h, d', id) <==> !fault.RenameFails? && !fault.PublishFails?)
            && (Readable(h, d', id) ==> KeyOf(d', id) in d'.files && d'.files[KeyOf(d', id)] == received)
            && (d'.files == d.files <==> fault.PublishFails? || fault == RenameFails(false))
  {
    var d' := AfterPublish(h, p, d, id, received, now, fault);
    assert KeyOf(d, id) !in d.files;
    assert KeyOf(d, id) in d'.files <==> !(fault.PublishFails? || fault == RenameFails(false));
  }

  class BlobStore {
    const h: Bytes -> Digest
    const policy: Policy
    var rows: map<BlobId, Row>
    var journal: map<BlobId, Entry>
    var parts: map<BlobId, Bytes>
    var files: map<FileKey, Bytes>
    var leases: set<ReadLease>
    ghost var log: seq<Durable>

    ghost function D(): (d: Durable)
      reads this
    {
      Durable(rows, journal, parts, files, leases)
    }

    ghost predicate Valid()
      reads this
    {
      |log| > 0 && log[|log| - 1] == D()
    }

    constructor (h: Bytes -> Digest, policy: Policy)
      ensures Valid() && D() == Durable(map[], map[], map[], map[], {}) && this.h == h && this.policy == policy
    {
      this.h, this.policy := h, policy;
      rows, journal, parts, files, leases := map[], map[], map[], map[], {};
      log := [Durable(map[], map[], map[], map[], {})];
    }

    /** From entry `k` on, the log is a recovery trace. */
    ghost predicate Tracing(k: nat)
      reads this
    {
      k < |log| && RecoveryTrace(h, log[k..])
    }

    lemma LogExtends(before: seq<Durable>, k: nat, mv: RecoveryMove)
      requires k < |before| && RecoveryTrace(h, before[k..])
      requires MayMove(h, before[|before| - 1], mv)
      requires Valid() && log == before + [D()] && D() == Move(h, before[|before| - 1], mv)
      ensures Tracing(k)
    {
      hide MayMove, Move;
      TraceExtends(h, before[k..], D(), mv);
      assert before[k..] + [D()] == log[k..];
    }

    // ---- durable steps -----------------------------------------------------------------------

    method MarkCorrupt(id: BlobId)
      requires Valid()
      modifies this
      ensures Valid() && D() == BlobModel.MarkCorrupt(old(D()), id) && log == old(log) + [D()]
    {
      if id in rows && rows[id].state.Published? {
        rows := rows[id := rows[id].(state := Corrupt)];
      }
      log := log + [D()];
    }

    method ReleaseMissing(id: BlobId, keepTombstone: bool, now: Time)
      requires Valid()
      modifies this
      ensures Valid() && D() == BlobModel.ReleaseMissing(old(D()), id, keepTombstone, now + policy.tombstone)
      ensures log == old(log) + [D()]
    {
      if id in rows {
        rows := rows[id := rows[id].(state := if keepTombstone then Deleted else Corrupt, size := 0,
                                     expiresAt := Some(now + policy.tombstone))];
      }
      log := log + [D()];
    }

    method ClearJournal(id: BlobId)
      requires Valid()
      modifies this
      ensures Valid() && D() == BlobModel.ClearJournal(old(D()), id) && log == old(log) + [D()]
    {
      journal := journal - {id};
      log := log + [D()];
    }

    method WriteJournal(id: BlobId, step: JournalStep, sha: Option<Digest>, size: nat)
      requires Valid()
      modifies this
      ensures Valid() && D() == BlobModel.WriteJournal(old(D()), id, step, sha, size) && log == old(log) + [D()]
    {
      journal := journal[id := Entry(step, sha, size)];
      log := log + [D()];
    }

    /** The transaction always commits; the call then fails unless the row is published. */
    method Publish(id: BlobId, sha: Digest, size: nat, now: Time) returns (ok: bool)
      requires Valid()
      modifies this
      ensures ok <==> IsPublished(D(), id)
      ensures Valid() && D() == PublishRow(old(D()), id, sha, size, now + policy.retention) && log == old(log) + [D()]
    {
      if id in rows && (rows[id].state.Reserved? || rows[id].state.Staging?) {
        rows := rows[id := rows[id].(state := Published, sha := Some(sha), size := size,
                                     expiresAt := Some(now + policy.retention))];
      }
      ok := id in rows && rows[id].state.Published?;
      log := log + [D()];
    }

    method BeginStaging(id: BlobId)
      requires Valid()
      modifies this
      ensures Valid() && D() == BlobModel.BeginStaging(old(D()), id) && log == old(log) + [D()]
    {
      if id in rows && rows[id].state.Reserved? {
        rows := rows[id := rows[id].(state := Staging)];
      }
      log := log + [D()];
    }

    method Abort(id: BlobId)
      requires Valid()
      modifies this
      ensures Valid() && D() == AbortRow(old(D()), id) && log == old(log) + [D()]
    {
      if id in rows && (rows[id].state.Reserved? || rows[id].state.Staging?) {
        rows := rows - {id};
      }
      log := log + [D()];
    }

    method RemoveStaging(id: BlobId)
      requires Valid()
      modifies this
      ensures Valid() && D() == RemovePart(old(D()), id) && log == old(log) + [D()]
    {
      parts := parts - {id};
      log := log + [D()];
    }

    method RemovePublished(key: FileKey)
      requires Valid()
      modifies this
      ensures Valid() && D() == RemoveFile(old(D()), key) && log == old(log) + [D()]
    {
      files := files - {key};
      log := log + [D()];
    }

    // ---- recovery ------------------------------------------------------------------------------

    /** An unreadable file: corrupt first if there is a file at all, then a tombstone. */
    method Condemn(id: BlobId, present: bool, now: Time, ghost k: nat)
      requires Valid() && Tracing(k) && IsPublished(D(), id) && !Readable(h, D(), id)
      modifies this
      ensures Valid() && Tracing(k) && old(log) < log
      ensures D() == BlobModel.ReleaseMissing(old(D()), id, true, now + policy.tombstone)
    {
      ghost var before := log;
      if present {
        MarkCorrupt(id);
        LogExtends(before, k, ToCorrupt(id));
      }
      before := log;
      ReleaseMissing(id, true, now);
      LogExtends(before, k, ToTombstone(id, now + policy.tombstone));
    }

    /** The body of the first loop: re-hash one published file. */
    method VerifyOne(id: BlobId, now: Time, ghost k: nat) returns (ok: bool)
      requires Valid() && Tracing(k) && IsPublished(D(), id)
      modifies this
      ensures Valid() && Tracing(k) && old(log) < log
      ensures ok <==> Readable(h, old(D()), id)
      ensures D() == Verified(h, policy, old(D()), now, id)
    {
      var row := rows[id];
      var key := FileKey(row.owner, id);
      ok := key in files && |files[key]| == row.size && row.sha == Some(h(files[key]));
      if !ok {
        Condemn(id, key in files, now, k);
      }
      ghost var before := log;
      ClearJournal(id);
      LogExtends(before, k, DropJournal(id));
    }

    /** The body of the second loop: finish or undo one unfinished upload. */
    method ResolveOne(id: BlobId, now: Time, ghost k: nat) returns (completed: bool)
      requires Valid() && Tracing(k) && IsOpen(D(), id)
      modifies this
      ensures Valid() && Tracing(k) && old(log) < log
      ensures completed <==> Completable(h, old(D()), id)
      ensures D() == Resolved(h, policy, old(D()), now, id)
    {
      var key := FileKey(rows[id].owner, id);
      completed := id in journal && journal[id].step.StepPending? && key in files
                   && journal[id].sha == Some(h(files[key])) && journal[id].size == |files[key]|;
      if completed {
        Complete(id, journal[id].sha.value, journal[id].size, now, k);
      } else {
        Undo(id, key, k);
      }
      ghost var before := log;
      ClearJournal(id);
      LogExtends(before, k, DropJournal(id));
    }

    method Complete(id: BlobId, sha: Digest, size: nat, now: Time, ghost k: nat)
      requires Valid() && Tracing(k) && Completable(h, D(), id)
      requires journal[id].sha == Some(sha) && journal[id].size == size
      modifies this
      ensures Valid() && Tracing(k) && old(log) < log
      ensures D() == PublishRow(RemovePart(old(D()), id), id, sha, size, now + policy.retention)
    {
      ghost var before := log;
      var _ := Publish(id, sha, size, now);
      LogExtends(before, k, ToPublished(id, now + policy.retention));
      before := log;
      RemoveStaging(id);
      LogExtends(before, k, DropPart(id));
    }

    method Undo(id: BlobId, key: FileKey, ghost k: nat)
      requires Valid() && Tracing(k) && IsOpen(D(), id) && !Completable(h, D(), id) && key == KeyOf(D(), id)
      modifies this
      ensures Valid() && Tracing(k) && old(log) < log
      ensures D() == AbortRow(RemoveFile(RemovePart(old(D()), id), key), id)
    {
      ghost var before := log;
      RemoveStaging(id);
      LogExtends(before, k, DropPart(id));
      before := log;
      RemovePublished(key);
      LogExtends(before, k, DropFile(id));
      before := log;
      Abort(id);
      LogExtends(before, k, DropRow(id));
    }

    /** The first loop, over the rows listed as published when it starts. */
    method VerifyAll(now: Time, ghost k: nat) returns (verified: set<BlobId>, unreadable: set<BlobId>)
      requires Valid() && Tracing(k)
      modifies this
      ensures Valid() && Tracing(k) && old(log) <= log && leases == old(leases) && parts == old(parts)
      ensures Recovered(h, policy, D(), now) == Recovered(h, policy, old(D()), now)
      ensures forall x :: VerifyView(h, old(D()), D(), {}, verified, unreadable, x)
    {
      ghost var d0 := D();
      var todo := set id | id in rows && rows[id].state.Published?;
      verified, unreadable := {}, {};
      assert forall x :: VerifyView(h, d0, d0, todo, verified, unreadable, x);
      hide VerifyView, Verified, Readable, RecoveryTrace, Recovered;
      while todo != {}
        invariant Valid() && Tracing(k) && old(log) <= log && leases == old(leases) && parts == old(parts)
        invariant Recovered(h, policy, D(), now) == Recovered(h, policy, d0, now)
        invariant forall x :: VerifyView(h, d0, D(), todo, verified, unreadable, x)
        decreases |todo|
      {
        var id :| id in todo;
        ghost var d, v, u := D(), verified, unreadable;
        ViewedIsPublished(h, d0, d, todo, v, u, id);
        VerifyingKeepsGoal(h, policy, d, now, id);
        var ok := VerifyOne(id, now, k);
        if ok { verified := verified + {id}; } else { unreadable := unreadable + {id}; }
        forall x ensures VerifyView(h, d0, D(), todo - {id}, verified, unreadable, x) {
          ViewAfterVerifying(h, policy, d0, d, now, todo, v, u, id, x);
        }
        VerifiedKeepsRest(h, policy, d, now, id);
        todo := todo - {id};
      }
    }

    /** The second loop, over the rows listed as unfinished when it starts. */
    method ResolveAll(now: Time, ghost k: nat) returns (completed: set<BlobId>, purged: set<BlobId>)
      requires Valid() && Tracing(k) && forall id :: Checked(h, D(), id)
      modifies this
      ensures Valid() && Tracing(k) && old(log) <= log && leases == old(leases)
      ensures Recovered(h, policy, D(), now) == Recovered(h, policy, old(D()), now)
      ensures forall x :: ResolveView(h, old(D()), D(), {}, completed, purged, x)
    {
      ghost var d0 := D();
      var todo := set id | id in rows && Unfinished(rows[id]);
      completed, purged := {}, {};
      assert forall x :: Checked(h, d0, x) ==> ResolveView(h, d0, d0, todo, completed, purged, x);
      hide ResolveView, Resolved, Completable, RecoveryTrace, Recovered, Checked;
      while todo != {}
        invariant Valid() && Tracing(k) && old(log) <= log && leases == old(leases)
        invariant Recovered(h, policy, D(), now) == Recovered(h, policy, d0, now)
        invariant forall x :: ResolveView(h, d0, D(), todo, completed, purged, x)
        decreases |todo|
      {
        var id :| id in todo;
        ghost var d, c, g := D(), completed, purged;
        ViewedIsOpen(h, d0, d, todo, c, g, id);
        ResolvingKeepsGoal(h, policy, d, now, id);
        var ok := ResolveOne(id, now, k);
        if ok { completed := completed + {id}; } else { purged := purged + {id}; }
        forall x ensures ResolveView(h, d0, D(), todo - {id}, completed, purged, x) {
          ViewAfterResolving(h, policy, d0, d, now, todo, c, g, id, x);
        }
        ResolvedKeepsLeases(h, policy, d, now, id);
        todo := todo - {id};
      }
    }

    method SweepOrphans(ghost k: nat) returns (removed: set<BlobId>)
      requires Valid() && Tracing(k)
      modifies this
      ensures Valid() && Tracing(k) && old(log) <= log
      ensures D() == old(D()).(parts := map[]) && removed == old(parts).Keys
    {
      ghost var d0 := D();
      var todo := parts.Keys;
      removed := todo;
      hide RecoveryTrace;
      while todo != {}
        invariant Valid() && Tracing(k) && old(log) <= log
        invariant todo == parts.Keys && D() == d0.(parts := parts)
        decreases |todo|
      {
        var id :| id in todo;
        ghost var before := log;
        RemoveStaging(id);
        LogExtends(before, k, DropPart(id));
        todo := todo - {id};
      }
    }

    method ProtectAllPublished(holder: Holder) returns (held: set<BlobId>)
      requires Valid()
      modifies this
      ensures Valid() && D() == Protect(old(D()), holder) && log == old(log) + [D()]
      ensures held == set id | id in rows && IsPublished(D(), id)
    {
      held := set id | id in rows && rows[id].state.Published?;
      leases := leases + set id | id in held :: ReadLease(id, holder);
      assert (set id | id in held :: ReadLease(id, holder))
          == (set id | id in rows && rows[id].state.Published? :: ReadLease(id, holder));
      log := log + [D()];
    }

    /** `recover`: exactly one full pass, every durable step of which is one recovery move, so the
        convergence of interrupted passes applies to each point it can be cut at. The report names
        exactly what the pass found, and with instances still running every blob it leaves
        published is under the restart holder's lease. */
    method Recover(now: Time, restart: Option<Holder>) returns (report: RecoveryReport)
      requires Valid()
      modifies this
      ensures Valid() && Settled(h, D())
      ensures D() == if restart.Some? then Protect(Recovered(h, policy, old(D()), now), restart.value)
              else Recovered(h, policy, old(D()), now)
      ensures report == Report(h, old(D()), restart)
      ensures old(log) <= log && RecoveryTrace(h, log[|old(log)| - 1..])
    {
      ghost var d0 := D();
      ghost var k := |log| - 1;
      assert log[k..] == [D()];
      var verified, unreadable := VerifyAll(now, k);
      ghost var d1 := D();
      AllChecked(h, d0, d1, verified, unreadable);
      var completed, purged := ResolveAll(now, k);
      ghost var d2 := D();
      var orphans := SweepOrphans(k);
      ReportIs(h, d0, d1, d2, verified, unreadable, completed, purged);
      FullPass(h, policy, d0, d2, now, d1, completed, purged);
      report := RecoveryReport(verified + completed, unreadable, purged + orphans, {});
      if restart.Some? {
        ghost var before := log;
        var held := ProtectAllPublished(restart.value);
        LogExtends(before, k, AddProtection(restart.value));
        PublishedIsVerified(h, policy, d0, now);
        ProtectingKeepsSettled(h, Recovered(h, policy, d0, now), restart.value);
        report := report.(protected := held);
      }
    }

    // ---- upload ----------------------------------------------------------------------------------

    /** Wherever since entry `from` a crash falls, this id has one of the four recoverable shapes. */
    ghost predicate CrashSafe(id: BlobId, from: nat)
      reads this
    {
      forall k :: from <= k < |log| ==> BlobAtomic.Shaped(h, log[k], id)
    }

    method WriteChunk(id: BlobId, chunk: Bytes)
      requires Valid() && id in parts
      modifies this
      ensures Valid() && D() == old(D()).(parts := old(parts)[id := old(parts)[id] + chunk]) && log == old(log) + [D()]
    {
      parts := parts[id := parts[id] + chunk];
      log := log + [D()];
    }

    /** The receive loop: stops at the first chunk that would exceed the reservation. */
    method Receive(id: BlobId, limit: nat, chunks: seq<Bytes>, ghost from: nat) returns (received: Bytes, fits: bool)
      requires Valid() && CrashSafe(id, from) && BlobAtomic.Begun(D(), id) && BlobAtomic.PartIs(D(), id, [])
      modifies this
      ensures Valid() && CrashSafe(id, from) && |log| >= |old(log)|
      ensures fits <==> |Concat(chunks)| <= limit
      ensures fits ==> received == Concat(chunks)
      ensures D() == old(D()).(parts := old(parts)[id := received])
    {
      received, fits := [], true;
      var i := 0;
      while i < |chunks|
        invariant 0 <= i <= |chunks| && Valid() && CrashSafe(id, from) && |log| >= |old(log)|
        invariant received == Concat(chunks[..i]) && |received| <= limit
        invariant id in parts && parts[id] == received && D() == old(D()).(parts := old(parts)[id := received])
      {
        assert chunks[..i + 1][..i] == chunks[..i];
        if |received| + |chunks[i]| > limit {
          ConcatGrows(chunks, i + 1);
          fits := false;
          return;
        }
        received := received + chunks[i];
        WriteChunk(id, chunks[i]);
        i := i + 1;
      }
      assert chunks[..i] == chunks;
    }

    method OpenStaging(id: BlobId)
      requires Valid()
      modifies this
      ensures Valid() && D() == old(D()).(parts := old(parts)[id := []]) && log == old(log) + [D()]
    {
      parts := parts[id := []];
      log := log + [D()];
    }

    method PublishFile(id: BlobId, key: FileKey)
      requires Valid() && id in parts
      modifies this
      ensures Valid() && log == old(log) + [D()]
      ensures D() == old(D()).(files := old(files)[key := old(parts)[id]], parts := old(parts) - {id})
    {
      files, parts := files[key := parts[id]], parts - {id};
      log := log + [D()];
    }

    /** The publish transaction and the journal rows around it. */
    method Commit(id: BlobId, received: Bytes, now: Time, ghost from: nat)
      requires Valid() && CrashSafe(id, from) && BlobAtomic.Moved(h, D(), id) && files[KeyOf(D(), id)] == received
      modifies this
      ensures Valid() && CrashSafe(id, from)
      ensures D() == old(D()).(rows := old(rows)[id := Shown(h, policy, old(rows)[id], received, now)],
                               journal := old(journal) - {id})
    {
      var ok := Publish(id, h(received), |received|, now);
      assert BlobAtomic.Kept(h, D(), id);
      WriteJournal(id, StepPublished, Some(h(received)), |received|);
      ClearJournal(id);
    }

    /** The handler of a failed rename; `moved` says whether the rename happened all the same. */
    method FailRename(id: BlobId, key: FileKey, moved: bool, ghost from: nat)
      requires Valid() && CrashSafe(id, from) && BlobAtomic.Begun(D(), id) && id in parts && key == KeyOf(D(), id)
      modifies this
      ensures Valid() && (!moved ==> CrashSafe(id, from))
      ensures D() == old(D()).(rows := old(rows) - {id}, journal := old(journal) - {id}, parts := old(parts) - {id},
                               files := if moved then old(files)[key := old(parts)[id]] else old(files))
    {
      if moved {
        PublishFile(id, key);
      }
      RemoveStaging(id);
      assert !moved ==> BlobAtomic.Begun(D(), id);
      Abort(id);
      assert !moved ==> BlobAtomic.Absent(D(), id);
      ClearJournal(id);
    }

    /** The handler of a failed publish; `committed` says whether the transaction committed all the
        same. */
    method FailPublish(id: BlobId, key: FileKey, received: Bytes, committed: bool, now: Time, ghost from: nat)
      requires Valid() && CrashSafe(id, from) && BlobAtomic.Moved(h, D(), id) && key == KeyOf(D(), id)
      requires files[key] == received
      modifies this
      ensures Valid() && (!committed ==> CrashSafe(id, from))
      ensures D() == old(D()).(rows :=
                                 if committed then old(rows)[id := Shown(h, policy, old(rows)[id], received, now)]
                                 else old(rows) - {id},
                               journal := old(journal) - {id}, files := old(files) - {key})
    {
      if committed {
        var _ := Publish(id, h(received), |received|, now);
      }
      RemovePublished(key);
      assert !committed ==> BlobAtomic.Begun(D(), id);
      Abort(id);
      assert !committed ==> BlobAtomic.Absent(D(), id);
      ClearJournal(id);
    }

    /** Journal, rename, publish: from a fully received part to a published blob, or back to nothing
        through one of the two handlers. */
    method PublishReceived(id: BlobId, received: Bytes, now: Time, fault: Fault, ghost from: nat) returns (ok: bool)
      requires Valid() && CrashSafe(id, from) && BlobAtomic.Begun(D(), id) && BlobAtomic.PartIs(D(), id, received)
      modifies this
      ensures Valid() && (Reported(fault) ==> CrashSafe(id, from))
      ensures ok <==> !fault.RenameFails? && !fault.PublishFails?
      ensures D() == AfterPublish(h, policy, old(D()), id, received, now, fault)
    {
      var key := FileKey(rows[id].owner, id);
      WriteJournal(id, StepPending, Some(h(received)), |received|);
      assert BlobAtomic.Begun(D(), id);
      if fault.RenameFails? {
        FailRename(id, key, fault.moved, from);
        return false;
      }
      PublishFile(id, key);
      assert BlobAtomic.Moved(h, D(), id);
      if fault.PublishFails? {
        assert old(files) == files - {key};
        FailPublish(id, key, received, fault.committed, now, from);
        return false;
      }
      Commit(id, received, now, from);
      ok := true;
    }

    method StartStaging(id: BlobId, limit: nat, expected: Option<Digest>, ghost from: nat)
      requires Valid() && BlobAtomic.Begun(D(), id) && id !in parts && from == |log|
      modifies this
      ensures Valid() && CrashSafe(id, from) && |log| >= from
      ensures BlobAtomic.Begun(D(), id) && parts == old(parts)[id := []] && files == old(files) && leases == old(leases)
      ensures rows == old(rows)[id := rows[id]] && journal == old(journal)[id := Entry(StepStaging, expected, limit)]
    {
      WriteJournal(id, StepStaging, expected, limit);
      OpenStaging(id);
      BeginStaging(id);
    }

    method Finish(id: BlobId, received: Bytes, now: Time, fault: Fault, ghost from: nat) returns (r: UploadResult)
      requires Valid() && CrashSafe(id, from) && BlobAtomic.Begun(D(), id) && BlobAtomic.PartIs(D(), id, received)
      modifies this
      ensures Valid() && (Reported(fault) ==> CrashSafe(id, from))
      ensures r == if fault.RenameFails? || fault.PublishFails? then Interrupted else Uploaded(h(received), |received|)
      ensures r.Uploaded? ==> Readable(h, D(), id) && KeyOf(D(), id) in files && files[KeyOf(D(), id)] == received
      ensures r.Interrupted? ==>
                (files == old(files) <==> fault != RenameFails(true)) && (id in rows <==> fault == PublishFails(true))
      ensures parts == old(parts) - {id} && journal == old(journal) - {id}
    {
      ghost var d := D();
      var ok := PublishReceived(id, received, now, fault, from);
      PublishedOrNot(h, policy, d, id, received, now, fault);
      r := if ok then Uploaded(h(received), |received|) else Interrupted;
    }

    method GiveUp(id: BlobId, ghost from: nat)
      requires Valid() && CrashSafe(id, from) && BlobAtomic.Begun(D(), id)
      modifies this
      ensures Valid() && CrashSafe(id, from)
      ensures D() == old(D()).(rows := old(rows) - {id}, parts := old(parts) - {id})
    {
      RemoveStaging(id);
      assert BlobAtomic.Begun(D(), id);
      Abort(id);
      assert BlobAtomic.Absent(D(), id);
    }

    /** `_receive_and_publish` on a freshly reserved row. The blob is published with exactly the
        received bytes if they fit the reservation, match what was declared and nothing fails; a
        stream that does not fit, does not match or breaks leaves only the staging journal row; and a
        failed rename or publish leaves what `AfterPublish` says. Unless such a failure is reported
        of a step that happened, every durable state passed through is recoverable. */
    method ReceiveAndPublish(id: BlobId, chunks: seq<Bytes>, limit: nat, declared: Option<nat>,
                             expected: Option<Digest>, now: Time, fault: Fault)
      returns (r: UploadResult)
      requires Valid() && BlobAtomic.Begun(D(), id) && id !in parts
      modifies this
      ensures Valid() && (Reported(fault) ==> CrashSafe(id, |old(log)|))
      ensures var all := Concat(chunks);
              && (r.TooLarge? <==> |all| > limit)
              && (r.ChecksumMismatch? <==>
                    |all| <= limit && !fault.StreamBreaks? && !Matches(h, all, declared, expected))
              && (r.Uploaded? <==> |all| <= limit && fault.NoFault? && Matches(h, all, declared, expected))
              && (r.Uploaded? ==> r == Uploaded(h(all), |all|) && Readable(h, D(), id) && files[KeyOf(D(), id)] == all)
              && (r.TooLarge? || r.ChecksumMismatch? || fault.StreamBreaks? ==>
                    D() == old(D()).(rows := old(rows) - {id},
                                     journal := old(journal)[id := Entry(StepStaging, expected, limit)]))
              && (r.Interrupted? && !fault.StreamBreaks? ==>
                    && (files == old(files) <==> fault != RenameFails(true))
                       && (id in rows <==> fault == PublishFails(true))
                    && parts == old(parts) && journal == old(journal) - {id})
    {
      ghost var from := |log|;
      hide BlobAtomic.Shaped;
      StartStaging(id, limit, expected, from);
      var received, fits := Receive(id, limit, chunks, from);
      if fits && !fault.StreamBreaks? && Matches(h, received, declared, expected) {
        assert parts - {id} == old(parts) && journal - {id} == old(journal) - {id};
        hide BlobAtomic.Begun, Readable;
        r := Finish(id, received, now, fault, from);
      } else {
        r := if !fits then TooLarge else if fault.StreamBreaks? then Interrupted else ChecksumMismatch;
        GiveUp(id, from);
        assert D().rows == old(rows) - {id};
        assert D().parts == old(parts);
      }
    }
  }

  lemma SweepingKeepsGoal(h: Bytes -> Digest, p: Policy, d: Durable, now: Time)
    ensures Recovered(h, p, d.(parts := map[]), now) == Recovered(h, p, d, now)
  {
    var d1 := d.(parts := map[]);
    forall key ensures SameGoalAt(h, p, d, d1, now, key) {
      assert Completable(h, d1, key.id) == Completable(h, d, key.id)
             && Readable(h, d1, key.id) == Readable(h, d, key.id);
    }
    SameGoalSameEnd(h, p, d, d1, now);
  }
}
