/** Where the blob store's crash protocol stops short of all-or-nothing, and exactly when. */
module BlobFindings {
  import opened Prelude
  import opened BlobModel
  import opened BlobRuns
  import opened BlobAtomic

  /** The handler of a failed publish rename removes the `.part` file and the row but not the
      published file: it leaves nothing behind if and only if the rename had really not happened
      (the directory sync after it can fail as well). */
  lemma FailedRenameLeavesNothing(h: Bytes -> Digest, p: Policy, s: Store, id: BlobId, moved: bool)
    requires AtomicInv(h, s, id) && AtStage(s, id, Pending) && MayAct(p, s, FailRename(id, moved))
    ensures var s1 := DoPublish(h, p, s, FailRename(id, moved));
            Absent(Cleaned(Cleaned(s1, id), id).durable, id) <==> !moved
  {
    var key := FileKey(s.uploads[id].owner, id);
    var s1 := DoPublish(h, p, s, FailRename(id, moved));
    var s2 := Cleaned(s1, id);
    assert AtStage(s1, id, RenameFailed) && AtStage(s2, id, RenameCleaned);
    assert Begun(s.durable, id) && id in s.durable.parts;
    assert s2.durable == RemovePart(s1.durable, id);
    assert Cleaned(s2, id).durable == AbortRow(s2.durable, id);
    if moved {
      assert s1.durable == MovePart(s.durable, id, key.owner);
      assert key in Cleaned(s2, id).durable.files;
    }
  }

  /** The handler of a failed publish removes the file and then the reservation, and a published row
      is no reservation: it leaves nothing behind if and only if the transaction had really not
      committed. Otherwise it leaves a published row without a file, which no reader can open and
      which the next recovery turns into a tombstone. */
  lemma FailedPublishLeavesNothing(h: Bytes -> Digest, p: Policy, s: Store, id: BlobId, committed: bool, now: Time,
                                   later: Time)
    requires AtomicInv(h, s, id) && AtStage(s, id, Renamed)
    ensures var s1 := DoPublish(h, p, s, FailPublish(id, committed, now));
            var d := Cleaned(Cleaned(s1, id), id).durable;
            && (Absent(d, id) <==> !committed)
            && (committed ==> IsPublished(d, id) && NoFile(d, id))
            && (committed ==> id in Recovered(h, p, d, later).rows && Recovered(h, p, d, later).rows[id].state.Deleted?)
  {
    var u := s.uploads[id];
    var s1 := DoPublish(h, p, s, FailPublish(id, committed, now));
    var s2 := Cleaned(s1, id);
    assert Moved(h, s.durable, id) && u.owner == s.durable.rows[id].owner;
    assert AtStage(s1, id, PublishFailed) && AtStage(s2, id, PublishCleaned);
    assert s2.durable == RemoveFile(s1.durable, FileKey(u.owner, id));
    assert Cleaned(s2, id).durable == AbortRow(s2.durable, id);
    var d := Cleaned(s2, id).durable;
    if committed {
      assert IsPublished(d, id) && !Readable(h, d, id);
      assert RecoveredRow(h, p, d, id, later).Some?;
    }
  }

  /** Deleting a blob whose upload has reached the rename, and then crashing, leaves an orphan:
      recovery publishes the renamed file if and only if the row is still open, and for a row that
      is not open it leaves the file in place without a readable row. */
  lemma RenameThenCrash(h: Bytes -> Digest, p: Policy, d: Durable, id: BlobId, bytes: Bytes, now: Time)
    requires id in d.rows && !d.rows[id].state.Published? && PartIs(d, id, bytes)
    requires id in d.journal && d.journal[id] == Entry(StepPending, Some(h(bytes)), |bytes|)
    ensures var d' := Recovered(h, p, MovePart(d, id, d.rows[id].owner), now);
            && (Readable(h, d', id) <==> IsOpen(d, id))
            && FileKey(d.rows[id].owner, id) in d'.files
  {
    var key := FileKey(d.rows[id].owner, id);
    var d1 := MovePart(d, id, key.owner);
    assert d1.rows == d.rows && d1.journal == d.journal && d1.files[key] == bytes;
    assert IsOpen(d, id) <==> Completable(h, d1, id);
    assert !Doomed(h, d1, key);
    var d' := Recovered(h, p, d1, now);
    assert id in d'.rows && d'.rows[id] == RecoveredRow(h, p, d1, id, now).value;
  }

  // ---- an abandoned output -------------------------------------------------------------------

  /** `abandon_output` run through: part, file, row and journal. */
  function AbandonAll(d: Durable, id: BlobId, owner: Owner): (d': Durable) {
    ClearJournal(AbortRow(RemoveFile(RemovePart(d, id), FileKey(owner, id)), id), id)
  }

  /** Abandoning an output leaves nothing behind if and only if it was not published yet. A published
      one keeps its row and loses its file: nobody can read it, and the next recovery turns it into a
      tombstone. */
  lemma AbandonLeavesNothing(h: Bytes -> Digest, p: Policy, d: Durable, id: BlobId, later: Time)
    requires Shaped(h, d, id) && id in d.rows
    ensures var d' := AbandonAll(d, id, d.rows[id].owner);
            && (Absent(d', id) <==> !IsPublished(d, id))
            && (IsPublished(d, id) ==> IsPublished(d', id) && NoFile(d', id) && !Readable(h, d', id))
            && (IsPublished(d, id) ==>
                  id in Recovered(h, p, d', later).rows && Recovered(h, p, d', later).rows[id].state.Deleted?)
  {
    var d' := AbandonAll(d, id, d.rows[id].owner);
    assert id !in d'.parts && NoFile(d', id);
    if IsPublished(d, id) {
      assert RecoveredRow(h, p, d', id, later).Some?;
    }
  }

  /** A read error on a published blob takes it from its readers for good and leaves its file: the row
      stays corrupt, and the file in place, when recovery runs, whenever it does. */
  lemma ReadErrorKeepsFile(h: Bytes -> Digest, p: Policy, d: Durable, id: BlobId, later: Time)
    requires IsPublished(d, id)
    ensures var d' := Recovered(h, p, MarkCorrupt(d, id), later);
            && id in d'.rows && d'.rows[id].state.Corrupt? && !Readable(h, d', id)
            && (KeyOf(d, id) in d'.files <==> KeyOf(d, id) in d.files)
  {
    var d1 := MarkCorrupt(d, id);
    assert RecoveredRow(h, p, d1, id, later) == Some(d1.rows[id]);
    assert !Doomed(h, d1, KeyOf(d, id));
  }

  /** A delete or an expiry of a published blob nobody holds, and the unlink it asks for, leave the
      tombstone and no file. */
  lemma RetiredLeavesTombstone(h: Bytes -> Digest, p: Policy, s: Store, id: BlobId, now: Time)
    requires Kept(h, s.durable, id) && !IsLeased(s.durable, id)
    ensures var owner := s.durable.rows[id].owner;
            var d := RemoveFile(Deletes(p, s, id, owner, now).durable, FileKey(owner, id));
            id in d.rows && d.rows[id].state.Deleted? && NoFile(d, id)
    ensures s.durable.rows[id].expiresAt.Some? && now >= s.durable.rows[id].expiresAt.value ==>
              Expires(p, s, id, now).durable == Deletes(p, s, id, s.durable.rows[id].owner, now).durable
  {
  }

  /** The abandoned case is real: every run that has published a blob can go on to abandon it, as the
      teardown of an execution does that was cancelled while its output was being written, and then
      the row is published and no file is left. */
  lemma PublishedThenAbandoned(h: Bytes -> Digest, p: Policy, ss: seq<Store>, es: seq<Event>, id: BlobId)
    returns (ss': seq<Store>, es': seq<Event>)
    requires IsHistory(h, p, ss, es) && |ss| == |es| + 1 && Empty(ss[0]) && Undisturbed(es, id, |es|)
    requires !ss[|es|].recovering && IsPublished(ss[|es|].durable, id)
    ensures IsHistory(h, p, ss', es') && |es'| == |es| + 4 && |ss'| == |es'| + 1 && ss'[0] == ss[0] && es <= es'
    ensures IsPublished(ss'[|es'|].durable, id) && NoFile(ss'[|es'|].durable, id)
  {
    hide Steps, AtomicInv;
    var s, owner := ss[|es|], ss[|es|].durable.rows[id].owner;
    HistoryKeepsAtomic(h, p, ss, es, |es|, id);
    assert Shaped(h, s.durable, id) by { ShapeOf(h, s, id); }
    AbandonLeavesNothing(h, p, s.durable, id, 0.0);
    hide Shaped, Empty, Undisturbed;
    var s1 := s.(durable := RemovePart(s.durable, id));
    var s2 := s1.(durable := RemoveFile(s1.durable, FileKey(owner, id)));
    var s3 := s2.(durable := AbortRow(s2.durable, id));
    var s4 := s3.(durable := ClearJournal(s3.durable, id));
    var more := [AbandonPart(id), AbandonFile(id, owner), AbandonRow(id), AbandonJournal(id)];
    AbandonSteps(h, p, s, more[0]);
    AbandonSteps(h, p, s1, more[1]);
    AbandonSteps(h, p, s2, more[2]);
    AbandonSteps(h, p, s3, more[3]);
    ss', es' := ss + [s1, s2, s3, s4], es + more;
  }

  lemma ShapeOf(h: Bytes -> Digest, s: Store, id: BlobId)
    requires AtomicInv(h, s, id)
    ensures Shaped(h, s.durable, id)
  {
  }

  lemma AbandonSteps(h: Bytes -> Digest, p: Policy, s: Store, e: Event)
    requires IsAbandonEvent(e) && !s.recovering
    ensures Steps(h, p, s, e, DoAbandon(s, e))
  {
    hide DoAbandon;
  }

  // ---- an upload from beginning to end ---------------------------------------------------------

  /** The store while this one upload is under way. */
  function During(rows: Row, journal: Option<Entry>, part: Option<Bytes>, file: Option<Bytes>, id: BlobId,
                  u: Upload): (s: Store) {
    Store(Durable(map[id := rows],
                  if journal.Some? then map[id := journal.value] else map[],
                  if part.Some? then map[id := part.value] else map[],
                  if file.Some? then map[FileKey(u.owner, id) := file.value] else map[], {}),
          map[id := u], {}, false, {id})
  }

  /** On an empty store within quota a whole upload runs through: eight durable steps publish exactly
      the received bytes. */
  lemma UploadRunsThrough(h: Bytes -> Digest, p: Policy, id: BlobId, owner: Owner, limit: nat, bytes: Bytes,
                          free: nat, now: Time)
    returns (ss: seq<Store>, es: seq<Event>)
    requires 0 < limit <= MAX_BLOB_BYTES && free >= p.minFree + limit && |bytes| <= limit
    requires limit <= p.ownerQuota && limit <= p.globalQuota
    ensures IsHistory(h, p, ss, es) && |es| == 8 && |ss| == 9 && Empty(ss[0]) && Undisturbed(es, id, 8)
    ensures !ss[8].recovering && Readable(h, ss[8].durable, id)
    ensures FileKey(owner, id) in ss[8].durable.files && ss[8].durable.files[FileKey(owner, id)] == bytes
  {
    hide *;
    var u := Upload(owner, limit, None, None, [], Waiting);
    var full := u.(received := bytes);
    var reserved := Row(owner, None, limit, Reserved, None);
    var staging := reserved.(state := Staging);
    var begun, pending := Entry(StepStaging, None, limit), Entry(StepPending, Some(h(bytes)), |bytes|);
    var shown := Row(owner, Some(h(bytes)), |bytes|, Published, Some(now + p.retention));
    ss := [NewStore(),
           During(reserved, None, None, None, id, u),
           During(reserved, Some(begun), None, None, id, u.(stage := Journalled)),
           During(reserved, Some(begun), Some([]), None, id, u.(stage := Opened)),
           During(staging, Some(begun), Some([]), None, id, u.(stage := Receiving)),
           During(staging, Some(begun), Some(bytes), None, id, full.(stage := Receiving)),
           During(staging, Some(pending), Some(bytes), None, id, full.(stage := Pending)),
           During(staging, Some(pending), None, Some(bytes), id, full.(stage := Renamed)),
           During(shown, Some(pending), None, Some(bytes), id, full.(stage := Committed))];
    es := [Reserve(id, owner, limit, None, None, free), Journal(id), OpenPart(id), Stage(id), Chunk(id, bytes),
           Complete(id), Rename(id), Publish(id, now)];
    FirstReserve(h, p, id, owner, limit, free);
    FirstJournal(h, p, id, reserved, u);
    FirstOpen(h, p, id, reserved, begun, u);
    FirstStage(h, p, id, reserved, begun, u);
    FirstChunk(h, p, id, staging, begun, u, bytes);
    FirstComplete(h, p, id, staging, begun, full);
    FirstRename(h, p, id, staging, pending, full);
    FirstPublish(h, p, id, staging, pending, full, now);
    EightSteps(h, p, ss, es);
    NothingDisturbed(es, id);
    ReadableAtLast(h, shown, pending, bytes, id, full.(stage := Committed));
  }

  /** So a run from the empty store ends with a published row without a file. */
  lemma AbandonedIsReached(h: Bytes -> Digest, p: Policy, id: BlobId, owner: Owner, limit: nat, bytes: Bytes,
                           free: nat, now: Time)
    returns (ss: seq<Store>, es: seq<Event>)
    requires 0 < limit <= MAX_BLOB_BYTES && free >= p.minFree + limit && |bytes| <= limit
    requires limit <= p.ownerQuota && limit <= p.globalQuota
    ensures IsHistory(h, p, ss, es) && |es| == 12 && |ss| == 13 && Empty(ss[0])
    ensures IsPublished(ss[12].durable, id) && NoFile(ss[12].durable, id)
  {
    hide *;
    var ss1, es1 := UploadRunsThrough(h, p, id, owner, limit, bytes, free, now);
    ReadableIsPublished(h, ss1[8].durable, id);
    ss, es := PublishedThenAbandoned(h, p, ss1, es1, id);
  }

  lemma ReadableIsPublished(h: Bytes -> Digest, d: Durable, id: BlobId)
    requires Readable(h, d, id)
    ensures IsPublished(d, id)
  {
  }

  lemma EightSteps(h: Bytes -> Digest, p: Policy, ss: seq<Store>, es: seq<Event>)
    requires |ss| == 9 && |es| == 8
    requires Steps(h, p, ss[0], es[0], ss[1]) && Steps(h, p, ss[1], es[1], ss[2]) && Steps(h, p, ss[2], es[2], ss[3])
    requires Steps(h, p, ss[3], es[3], ss[4]) && Steps(h, p, ss[4], es[4], ss[5]) && Steps(h, p, ss[5], es[5], ss[6])
    requires Steps(h, p, ss[6], es[6], ss[7]) && Steps(h, p, ss[7], es[7], ss[8])
    ensures IsHistory(h, p, ss, es)
  {
    hide Steps;
  }

  lemma NothingDisturbed(es: seq<Event>, id: BlobId)
    requires |es| == 8 && es[0].Reserve? && es[1].Journal? && es[2].OpenPart? && es[3].Stage? && es[4].Chunk?
    requires es[5].Complete? && es[6].Rename? && es[7].Publish?
    ensures Undisturbed(es, id, 8)
  {
  }

  lemma ReadableAtLast(h: Bytes -> Digest, row: Row, entry: Entry, bytes: Bytes, id: BlobId, u: Upload)
    requires row.owner == u.owner && row.sha == Some(h(bytes)) && row.size == |bytes| && row.state.Published?
    ensures var s := During(row, Some(entry), None, Some(bytes), id, u);
            && !s.recovering && Readable(h, s.durable, id)
            && FileKey(u.owner, id) in s.durable.files && s.durable.files[FileKey(u.owner, id)] == bytes
  {
  }

  function NewStore(): (s: Store)
    ensures Empty(s)
  {
    Store(Durable(map[], map[], map[], map[], {}), map[], {}, false, {})
  }

  lemma FirstReserve(h: Bytes -> Digest, p: Policy, id: BlobId, owner: Owner, limit: nat, free: nat)
    requires 0 < limit <= MAX_BLOB_BYTES && free >= p.minFree + limit && limit <= p.ownerQuota && limit <= p.globalQuota
    ensures Steps(h, p, NewStore(), Reserve(id, owner, limit, None, None, free),
                  During(Row(owner, None, limit, Reserved, None), None, None, None, id,
                         Upload(owner, limit, None, None, [], Waiting)))
  {
    var d := Durable(map[], map[], map[], map[], {});
    assert OwnerTable(d, owner) == map[] && GlobalTable(d) == map[];
  }

  lemma FirstJournal(h: Bytes -> Digest, p: Policy, id: BlobId, row: Row, u: Upload)
    requires u.stage.Waiting?
    ensures Steps(h, p, During(row, None, None, None, id, u), Journal(id),
                  During(row, Some(Entry(StepStaging, u.expected, u.limit)), None, None, id, u.(stage := Journalled)))
  {
    hide QuotaAdmits;
  }

  lemma FirstOpen(h: Bytes -> Digest, p: Policy, id: BlobId, row: Row, entry: Entry, u: Upload)
    ensures Steps(h, p, During(row, Some(entry), None, None, id, u.(stage := Journalled)), OpenPart(id),
                  During(row, Some(entry), Some([]), None, id, u.(stage := Opened)))
  {
    hide QuotaAdmits;
  }

  lemma FirstStage(h: Bytes -> Digest, p: Policy, id: BlobId, row: Row, entry: Entry, u: Upload)
    requires row.state.Reserved?
    ensures Steps(h, p, During(row, Some(entry), Some([]), None, id, u.(stage := Opened)), Stage(id),
                  During(row.(state := Staging), Some(entry), Some([]), None, id, u.(stage := Receiving)))
  {
    hide QuotaAdmits;
  }

  lemma FirstChunk(h: Bytes -> Digest, p: Policy, id: BlobId, row: Row, entry: Entry, u: Upload, bytes: Bytes)
    requires u.received == [] && |bytes| <= u.limit
    ensures Steps(h, p, During(row, Some(entry), Some([]), None, id, u.(stage := Receiving)), Chunk(id, bytes),
                  During(row, Some(entry), Some(bytes), None, id, u.(stage := Receiving, received := bytes)))
  {
    assert [] + bytes == bytes;
    hide QuotaAdmits;
  }

  lemma FirstComplete(h: Bytes -> Digest, p: Policy, id: BlobId, row: Row, entry: Entry, u: Upload)
    requires u.declared.None? && u.expected.None?
    ensures Steps(h, p, During(row, Some(entry), Some(u.received), None, id, u.(stage := Receiving)), Complete(id),
                  During(row, Some(Entry(StepPending, Some(h(u.received)), |u.received|)), Some(u.received), None, id,
                         u.(stage := Pending)))
  {
    hide QuotaAdmits;
  }

  lemma FirstRename(h: Bytes -> Digest, p: Policy, id: BlobId, row: Row, entry: Entry, u: Upload)
    ensures Steps(h, p, During(row, Some(entry), Some(u.received), None, id, u.(stage := Pending)), Rename(id),
                  During(row, Some(entry), None, Some(u.received), id, u.(stage := Renamed)))
  {
    hide QuotaAdmits;
  }

  lemma FirstPublish(h: Bytes -> Digest, p: Policy, id: BlobId, row: Row, entry: Entry, u: Upload, now: Time)
    requires row.state.Staging?
    ensures var all := u.received;
            Steps(h, p, During(row, Some(entry), None, Some(all), id, u.(stage := Renamed)), Publish(id, now),
                  During(row.(state := Published, sha := Some(h(all)), size := |all|,
                              expiresAt := Some(now + p.retention)),
                         Some(entry), None, Some(all), id, u.(stage := Committed)))
  {
    hide QuotaAdmits;
  }
}
