/** A read lease protects a blob: while it is held, no delete, expiry, upload or recovery takes
    the row or the file away. */
module BlobLeases {
  import opened Prelude
  import opened BlobModel
  import opened BlobRuns

  predicate IsRetired(s: Store, id: BlobId) {
    id in s.used && !IsOpen(s.durable, id) && !IsPublished(s.durable, id)
  }

  /** The stages at which the publish transaction may have committed. */
  predicate PastCommit(stage: Progress) {
    stage.Committed? || stage.Marked? || stage.PublishFailed? || stage.PublishCleaned? || stage.Aborted?
  }

  /** Only retired blobs wait to be unlinked, and an upload that has not committed owns no
      published row. */
  predicate LeaseOk(s: Store, key: FileKey) {
    && (key in s.unlinks ==> IsRetired(s, key.id))
    && (key.id in s.uploads && !PastCommit(s.uploads[key.id].stage) ==> !IsPublished(s.durable, key.id))
    && (key.id in s.uploads && key.id in s.durable.rows ==> s.durable.rows[key.id].owner == s.uploads[key.id].owner)
    && (key.id in s.durable.rows || key.id in s.uploads ==> key.id in s.used)
  }

  ghost predicate LeaseInv(s: Store) {
    (forall key :: LeaseOk(s, key)) && (s.recovering ==> s.uploads == map[])
  }

  lemma ReceiveKeepsLeases(h: Bytes -> Digest, p: Policy, s: Store, e: Event, key: FileKey)
    requires IsReceiveEvent(e) && MayAct(p, s, e) && LeaseOk(s, key)
    ensures LeaseOk(DoReceive(h, p, s, e), key)
  {
    hide QuotaAdmits, Accepted;
  }

  lemma PublishKeepsLeases(h: Bytes -> Digest, p: Policy, s: Store, e: Event, key: FileKey)
    requires IsPublishEvent(e) && MayAct(p, s, e) && LeaseOk(s, key)
    ensures LeaseOk(DoPublish(h, p, s, e), key)
  {
    hide QuotaAdmits;
  }

  lemma HandlerKeepsLeases(s: Store, x: BlobId, d: Durable, stage: Progress, key: FileKey)
    requires x in s.uploads && LeaseOk(s, key) && (PastCommit(s.uploads[x].stage) ==> PastCommit(stage))
    requires d.rows == s.durable.rows || d.rows == AbortRow(s.durable, x).rows
    ensures LeaseOk(At(s, x, d, stage), key) && LeaseOk(Gone(s, x, d), key)
  {
  }

  lemma CleanKeepsLeases(s: Store, x: BlobId, key: FileKey)
    requires x in s.uploads && LeaseOk(s, key)
    ensures LeaseOk(Cleaned(s, x), key)
  {
    var d, u := s.durable, s.uploads[x];
    assert RemovePart(d, x).rows == d.rows && RemoveFile(d, FileKey(u.owner, x)).rows == d.rows;
    hide LeaseOk, At, Gone, RemovePart, RemoveFile, AbortRow;
    match u.stage
    case ReceiveFailed => HandlerKeepsLeases(s, x, RemovePart(d, x), ReceiveCleaned, key);
    case ReceiveCleaned => HandlerKeepsLeases(s, x, AbortRow(d, x), Aborted, key);
    case RenameFailed => HandlerKeepsLeases(s, x, RemovePart(d, x), RenameCleaned, key);
    case RenameCleaned => HandlerKeepsLeases(s, x, AbortRow(d, x), Aborted, key);
    case PublishFailed => HandlerKeepsLeases(s, x, RemoveFile(d, FileKey(u.owner, x)), PublishCleaned, key);
    case PublishCleaned => HandlerKeepsLeases(s, x, AbortRow(d, x), Aborted, key);
    case _ =>
  }

  lemma AbandonKeepsLeases(s: Store, e: Event, key: FileKey)
    requires IsAbandonEvent(e) && LeaseOk(s, key)
    ensures LeaseOk(DoAbandon(s, e), key)
  {
  }

  lemma OtherKeepsLeases(p: Policy, s: Store, e: Event, key: FileKey)
    requires !IsUploadEvent(e) && !IsAbandonEvent(e) && !e.Recovery? && LeaseOk(s, key)
    ensures LeaseOk(DoOther(p, s, e), key)
  {
    hide IsLeased;
  }

  lemma RecoveryKeepsLeases(h: Bytes -> Digest, s: Store, mv: RecoveryMove, key: FileKey)
    requires MayMove(h, s.durable, mv) && LeaseOk(s, key) && key.id !in s.uploads
    ensures LeaseOk(s.(durable := Move(h, s.durable, mv)), key)
  {
  }

  lemma EventKeepsLeases(h: Bytes -> Digest, p: Policy, s: Store, e: Event, key: FileKey)
    requires Enabled(h, p, s, e) && LeaseOk(s, key) && (s.recovering ==> s.uploads == map[])
    ensures LeaseOk(Do(h, p, s, e), key)
  {
    hide LeaseOk, MayAct, MayMove, Move, DoReceive, DoPublish, Cleaned, DoAbandon, DoOther;
    if IsReceiveEvent(e) {
      ReceiveKeepsLeases(h, p, s, e, key);
    } else if IsPublishEvent(e) {
      PublishKeepsLeases(h, p, s, e, key);
    } else if e.CleanUp? {
      IsCleaning(p, s, e);
      CleanKeepsLeases(s, e.id, key);
    } else if IsAbandonEvent(e) {
      AbandonKeepsLeases(s, e, key);
    } else if e.Recovery? {
      RecoveryKeepsLeases(h, s, e.mv, key);
    } else {
      OtherKeepsLeases(p, s, e, key);
    }
  }

  lemma {:induction false} HistoryKeepsLeases(h: Bytes -> Digest, p: Policy, ss: seq<Store>, es: seq<Event>, i: nat)
    requires IsHistory(h, p, ss, es) && Empty(ss[0]) && i < |ss|
    ensures LeaseInv(ss[i])
  {
    hide Do, Enabled;
    if i > 0 {
      HistoryKeepsLeases(h, p, ss, es, i - 1);
      assert Steps(h, p, ss[i - 1], es[i - 1], ss[i]);
      RecoveringIsAlone(h, p, ss[i - 1], es[i - 1]);
      hide LeaseOk, Empty;
      forall key ensures LeaseOk(ss[i], key) { EventKeepsLeases(h, p, ss[i - 1], es[i - 1], key); }
    }
  }

  // ---- what a lease is worth ----------------------------------------------------------------

  /** Row and file are still the ones the lease was taken on. */
  predicate StillThere(d: Durable, d': Durable, key: FileKey) {
    && key.id in d.rows && key in d.files
    && key.id in d'.rows && d'.rows[key.id] == d.rows[key.id]
    && key in d'.files && d'.files[key] == d.files[key]
  }

  predicate LeasedBlob(h: Bytes -> Digest, s: Store, key: FileKey) {
    Readable(h, s.durable, key.id) && KeyOf(s.durable, key.id) == key && IsLeased(s.durable, key.id)
  }

  lemma ReceiveSpares(h: Bytes -> Digest, p: Policy, s: Store, e: Event, key: FileKey)
    requires IsReceiveEvent(e) && MayAct(p, s, e) && LeaseOk(s, key) && LeasedBlob(h, s, key)
    ensures StillThere(s.durable, DoReceive(h, p, s, e).durable, key)
  {
    hide QuotaAdmits, Accepted, IsLeased;
  }

  lemma PublishSpares(h: Bytes -> Digest, p: Policy, s: Store, e: Event, key: FileKey)
    requires IsPublishEvent(e) && MayAct(p, s, e) && LeaseOk(s, key) && LeasedBlob(h, s, key)
    ensures StillThere(s.durable, DoPublish(h, p, s, e).durable, key)
  {
    hide QuotaAdmits, IsLeased;
  }

  lemma CleanSpares(h: Bytes -> Digest, p: Policy, s: Store, e: Event, key: FileKey)
    requires e.CleanUp? && MayAct(p, s, e) && LeaseOk(s, key) && LeasedBlob(h, s, key)
    ensures StillThere(s.durable, Cleaned(s, e.id).durable, key) <==> !TakesHeld(s, e, key)
  {
    IsCleaning(p, s, e);
    CleaningTakes(h, s.durable, e.id, s.uploads[e.id].owner, key);
    assert e.id == key.id ==> s.uploads[e.id].owner == key.owner;
    hide StillThere, IsLeased, RemovePart, RemoveFile, AbortRow, MayAct;
  }

  lemma CleaningTakes(h: Bytes -> Digest, d: Durable, x: BlobId, owner: Owner, key: FileKey)
    requires Readable(h, d, key.id) && KeyOf(d, key.id) == key
    ensures StillThere(d, d, key) && StillThere(d, RemovePart(d, x), key) && StillThere(d, AbortRow(d, x), key)
    ensures StillThere(d, RemoveFile(d, FileKey(owner, x)), key) <==> FileKey(owner, x) != key
  {
  }

  lemma AbandonSpares(h: Bytes -> Digest, s: Store, e: Event, key: FileKey)
    requires IsAbandonEvent(e) && LeasedBlob(h, s, key)
    ensures StillThere(s.durable, DoAbandon(s, e).durable, key) <==> !TakesHeld(s, e, key)
  {
    hide IsLeased;
  }

  lemma OtherSpares(h: Bytes -> Digest, p: Policy, s: Store, e: Event, key: FileKey)
    requires !IsUploadEvent(e) && !IsAbandonEvent(e) && !e.Recovery? && MayAct(p, s, e)
    requires LeaseOk(s, key) && LeasedBlob(h, s, key)
    ensures StillThere(s.durable, DoOther(p, s, e).durable, key) <==> !TakesHeld(s, e, key)
  {
    hide QuotaAdmits, IsLeased;
  }

  lemma RecoverySpares(h: Bytes -> Digest, d: Durable, mv: RecoveryMove, key: FileKey)
    requires MayMove(h, d, mv) && Readable(h, d, key.id) && KeyOf(d, key.id) == key
    ensures StillThere(d, Move(h, d, mv), key)
  {
  }

  /** The events that do not ask for leases: abandoning that very output, a read error on its file,
      and the handler of a publish that was reported as failed although it committed. */
  predicate TakesHeld(s: Store, e: Event, key: FileKey) {
    || e == AbandonFile(key.id, key.owner)
    || e == FindCorrupt(key.id)
    || (e == CleanUp(key.id) && AtStage(s, key.id, PublishFailed))
  }

  /** A held blob is kept, and exactly when: in every run, whatever happens next to a readable blob
      under a lease leaves its row and its file as they are, if and only if it is none of the
      three events that do not ask for leases. */
  lemma LeaseProtects(h: Bytes -> Digest, p: Policy, ss: seq<Store>, es: seq<Event>, i: nat, key: FileKey)
    requires IsHistory(h, p, ss, es) && Empty(ss[0]) && i < |es|
    requires LeasedBlob(h, ss[i], key)
    ensures StillThere(ss[i].durable, ss[i + 1].durable, key) <==> !TakesHeld(ss[i], es[i], key)
    ensures Readable(h, ss[i + 1].durable, key.id) <==> !TakesHeld(ss[i], es[i], key)
  {
    HistoryKeepsLeases(h, p, ss, es, i);
    var s, e := ss[i], es[i];
    assert Steps(h, p, s, e, ss[i + 1]) && LeaseOk(s, key);
    hide IsHistory, LeaseInv, LeaseOk, MayAct, MayMove, Move, DoReceive, DoPublish, Cleaned, DoAbandon, DoOther,
         Empty, IsLeased;
    if IsReceiveEvent(e) {
      ReceiveSpares(h, p, s, e, key);
    } else if IsPublishEvent(e) {
      PublishSpares(h, p, s, e, key);
    } else if e.CleanUp? {
      CleanSpares(h, p, s, e, key);
    } else if IsAbandonEvent(e) {
      AbandonSpares(h, s, e, key);
    } else if e.Recovery? {
      RecoverySpares(h, s.durable, e.mv, key);
    } else if !e.Crash? && !e.Open? {
      OtherSpares(h, p, s, e, key);
    } else {
      CrashSpares(p, s, e);
    }
  }

  lemma CrashSpares(p: Policy, s: Store, e: Event)
    requires e.Crash? || e.Open?
    ensures DoOther(p, s, e).durable == s.durable
  {
  }
}
