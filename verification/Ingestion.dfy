/**
 Uploads racing to become invoices. Each request looks its digest up, stores its
 bytes, inserts a row under a unique constraint on the digest, and enqueues the
 extraction of the row it created; any other step may happen in between. The
 digest function is a parameter, of which only the length of its values is
 assumed, and injectivity where a lemma says so.
 */
module Ingestion {
  import opened Options

  type Bytes = seq<bv8>
  type Digest = Bytes -> string

  const DIGEST_LENGTH := 64

  /** A hexadecimal SHA-256 value has 64 characters. */
  ghost predicate HexDigest(digest: Digest) {
    forall b :: |digest(b)| == DIGEST_LENGTH
  }

  // ---- storage keys ------------------------------------------------------------------

  /** What follows the last slash or backslash. */
  function LastSegment(path: string): string {
    if path == "" || path[|path| - 1] == '/' || path[|path| - 1] == '\\' then ""
    else LastSegment(path[..|path| - 1]) + [path[|path| - 1]]
  }

  function StorageKey(digest: string, filename: string): string {
    var base := if LastSegment(filename) == "" then "upload.bin" else LastSegment(filename);
    "raw/" + (if |digest| < 2 then digest else digest[..2]) + "/" + digest + "/" + base
  }

  function ArtifactKey(name: string): string {
    "exports/" + name
  }

  /** No path component sent by a client survives into a key. */
  lemma {:induction false} LastSegmentIsFlat(path: string)
    ensures '/' !in LastSegment(path) && '\\' !in LastSegment(path)
  {
    if path != "" && path[|path| - 1] != '/' && path[|path| - 1] != '\\' {
      LastSegmentIsFlat(path[..|path| - 1]);
    }
  }

  /** The separators between the parts of a path. */
  predicate EndsPart(prefix: string) {
    prefix == "" || prefix[|prefix| - 1] == '/' || prefix[|prefix| - 1] == '\\'
  }

  lemma {:induction false} LastSegmentIs(prefix: string, base: string)
    requires EndsPart(prefix) && '/' !in base && '\\' !in base
    ensures LastSegment(prefix + base) == base
  {
    if base == "" {
      assert prefix + base == prefix;
    } else {
      var n := |base| - 1;
      assert (prefix + base)[..|prefix| + n] == prefix + base[..n];
      assert base[n] in base;
      LastSegmentIs(prefix, base[..n]);
    }
  }

  /** A key spells out the digest, and ends in the name without its path. */
  lemma StorageKeyIs(digest: string, prefix: string, base: string)
    requires |digest| == DIGEST_LENGTH && EndsPart(prefix) && '/' !in base && '\\' !in base
    ensures StorageKey(digest, prefix + base)
         == "raw/" + digest[..2] + "/" + digest + "/" + (if base == "" then "upload.bin" else base)
  {
    LastSegmentIs(prefix, base);
  }

  /** A key determines the digest it was made from, and is never the key of an artifact. */
  lemma StorageKeyNamesDigest(d: string, f: string, e: string, g: string, name: string)
    requires |d| == DIGEST_LENGTH && |e| == DIGEST_LENGTH
    ensures StorageKey(d, f) == StorageKey(e, g) ==> d == e
    ensures StorageKey(d, f) != ArtifactKey(name)
  {
    var k, l := StorageKey(d, f), StorageKey(e, g);
    assert k[7..7 + DIGEST_LENGTH] == d;
    assert l[7..7 + DIGEST_LENGTH] == e;
    assert k[0] == 'r' && ArtifactKey(name)[0] == 'e';
  }

  // ---- the transition system ----------------------------------------------------------------

  datatype Upload = Upload(data: Bytes, filename: string)

  datatype Phase =
    | Begun
    | Missed
    | Stored
    | Conflicted
    | Inserted(id: nat)
    | Returned(id: nat, created: bool)
    | Crashed(inserted: Option<nat>)

  datatype Request = Request(upload: Upload, phase: Phase)

  datatype InvoiceRow = InvoiceRow(digest: string, storageKey: string)

  datatype Intake = Intake(
    requests: seq<Request>, rows: seq<InvoiceRow>, blobs: map<string, Bytes>, enqueued: multiset<nat>)

  const CLOSED := Intake([], [], map[], multiset{})

  datatype Step =
    | Submit(upload: Upload)
    | LookUp(r: nat)
    | Put(r: nat)
    | Insert(r: nat)
    | Reread(r: nat)
    | Enqueue(r: nat)
    | Crash(r: nat)
    | PutArtifact(name: string, data: Bytes)

  /** The row with a digest, if there is one. */
  function Find(rows: seq<InvoiceRow>, d: string): (id: Option<nat>)
    ensures id.Some? ==> id.value < |rows| && rows[id.value].digest == d
    ensures id.None? ==> forall i :: 0 <= i < |rows| ==> rows[i].digest != d
  {
    if rows == [] then None
    else
      var n := |rows| - 1;
      if rows[n].digest == d then Some(n) else Find(rows[..n], d)
  }

  function Moved(s: Intake, r: nat, phase: Phase): Intake
    requires r < |s.requests|
  {
    s.(requests := s.requests[r := s.requests[r].(phase := phase)])
  }

  predicate InPhase(s: Intake, r: nat, phase: Phase) {
    r < |s.requests| && s.requests[r].phase == phase
  }

  function KeyOf(digest: Digest, u: Upload): string {
    StorageKey(digest(u.data), u.filename)
  }

  /** One step; a step whose request is not at that point changes nothing. */
  function Apply(digest: Digest, s: Intake, step: Step): Intake {
    match step
    case Submit(u) => s.(requests := s.requests + [Request(u, Begun)])
    case LookUp(r) =>
      if !InPhase(s, r, Begun) then s
      else
        var found := Find(s.rows, digest(s.requests[r].upload.data));
        Moved(s, r, if found.Some? then Returned(found.value, false) else Missed)
    case Put(r) =>
      if !InPhase(s, r, Missed) then s
      else
        var u := s.requests[r].upload;
        Moved(s, r, Stored).(blobs := s.blobs[KeyOf(digest, u) := u.data])
    case Insert(r) =>
      if !InPhase(s, r, Stored) then s
      else
        var u := s.requests[r].upload;
        if Find(s.rows, digest(u.data)).Some? then Moved(s, r, Conflicted)
        else
          Moved(s, r, Inserted(|s.rows|)).(rows := s.rows + [InvoiceRow(digest(u.data), KeyOf(digest, u))])
    case Reread(r) =>
      if !InPhase(s, r, Conflicted) then s
      else
        var winner := Find(s.rows, digest(s.requests[r].upload.data));
        Moved(s, r, if winner.Some? then Returned(winner.value, false) else Crashed(None))
    case Enqueue(r) =>
      if r < |s.requests| && s.requests[r].phase.Inserted? then
        var id := s.requests[r].phase.id;
        Moved(s, r, Returned(id, true)).(enqueued := s.enqueued + multiset{id})
      else s
    case Crash(r) =>
      if r >= |s.requests| || s.requests[r].phase.Returned? || s.requests[r].phase.Crashed? then s
      else
        var phase := s.requests[r].phase;
        Moved(s, r, Crashed(if phase.Inserted? then Some(phase.id) else None))
    case PutArtifact(name, data) => s.(blobs := s.blobs[ArtifactKey(name) := data])
  }

  function ExecFrom(digest: Digest, s: Intake, run: seq<Step>): Intake {
    if run == [] then s
    else Apply(digest, ExecFrom(digest, s, run[..|run| - 1]), run[|run| - 1])
  }

  function Exec(digest: Digest, run: seq<Step>): Intake {
    ExecFrom(digest, CLOSED, run)
  }

  // ---- the invariant ----------------------------------------------------------------------------

  /** The row that a request inserted, if it did. */
  function CreatedBy(phase: Phase): Option<nat> {
    match phase
    case Inserted(id) => Some(id)
    case Returned(id, created) => if created then Some(id) else None
    case Crashed(inserted) => inserted
    case _ => None
  }

  predicate DistinctDigests(rows: seq<InvoiceRow>) {
    forall i, j :: 0 <= i < j < |rows| ==> rows[i].digest != rows[j].digest
  }

  /** Bytes under an upload's key hash to the digest in the key. */
  ghost predicate HonestKeys(digest: Digest, blobs: map<string, Bytes>) {
    forall k, d, f :: k in blobs && |d| == DIGEST_LENGTH && k == StorageKey(d, f) ==> digest(blobs[k]) == d
  }

  /** A row's key is made from its digest and is in the store. */
  ghost predicate Kept(row: InvoiceRow, blobs: map<string, Bytes>) {
    && |row.digest| == DIGEST_LENGTH
    && row.storageKey in blobs
    && exists f :: row.storageKey == StorageKey(row.digest, f)
  }

  /** What a request knows at its point. */
  predicate Informed(digest: Digest, s: Intake, q: Request) {
    var d := digest(q.upload.data);
    match q.phase
    case Begun => true
    case Missed => true
    case Stored => KeyOf(digest, q.upload) in s.blobs
    case Conflicted => exists i :: 0 <= i < |s.rows| && s.rows[i].digest == d
    case Inserted(id) => id < |s.rows| && s.rows[id].digest == d
    case Returned(id, _) => id < |s.rows| && s.rows[id].digest == d
    case Crashed(inserted) => inserted.Some? ==> inserted.value < |s.rows| && s.rows[inserted.value].digest == d
  }

  /** Request `r` is the one that inserted row `id`. */
  predicate Creator(s: Intake, r: int, id: nat) {
    0 <= r < |s.requests| && CreatedBy(s.requests[r].phase) == Some(id)
  }

  ghost predicate HasCreator(s: Intake, id: nat) {
    exists r :: Creator(s, r, id)
  }

  ghost predicate OneCreatorEach(s: Intake) {
    && (forall id: nat :: id < |s.rows| ==> HasCreator(s, id))
    && (forall q, r, id: nat :: Creator(s, q, id) && Creator(s, r, id) ==> q == r)
    && (forall r, id: nat :: Creator(s, r, id) ==> id < |s.rows|)
  }

  /** The extraction of a row is enqueued once if its creator has returned, and otherwise not. */
  ghost predicate EnqueuedByCreator(s: Intake) {
    && (forall r, id: nat :: Creator(s, r, id) ==>
          s.enqueued[id] == if s.requests[r].phase == Returned(id, true) then 1 else 0)
    && (forall id :: id >= |s.rows| ==> s.enqueued[id] == 0)
  }

  ghost predicate Inv(digest: Digest, s: Intake) {
    && DistinctDigests(s.rows)
    && HonestKeys(digest, s.blobs)
    && (forall i :: 0 <= i < |s.rows| ==> Kept(s.rows[i], s.blobs))
    && (forall r :: 0 <= r < |s.requests| ==> Informed(digest, s, s.requests[r]))
    && OneCreatorEach(s)
    && EnqueuedByCreator(s)
  }

  // ---- every step keeps it --------------------------------------------------------------------------

  lemma SameCreators(s: Intake, t: Intake)
    requires OneCreatorEach(s) && |t.rows| == |s.rows| && |s.requests| <= |t.requests|
    requires forall q :: 0 <= q < |s.requests| ==> CreatedBy(t.requests[q].phase) == CreatedBy(s.requests[q].phase)
    requires forall q :: |s.requests| <= q < |t.requests| ==> CreatedBy(t.requests[q].phase).None?
    ensures forall q, id: nat :: Creator(t, q, id) <==> Creator(s, q, id)
    ensures OneCreatorEach(t)
  {
    forall id: nat | id < |t.rows| ensures HasCreator(t, id) {
      assert HasCreator(s, id);
      var q :| Creator(s, q, id);
      assert Creator(t, q, id);
    }
  }

  /** A request moves on without having created or being credited with anything new. */
  lemma MoveKeepsInv(digest: Digest, s: Intake, r: nat, phase: Phase)
    requires Inv(digest, s) && r < |s.requests|
    requires CreatedBy(phase) == CreatedBy(s.requests[r].phase)
    requires CreatedBy(phase).Some? ==> !phase.Returned? && !s.requests[r].phase.Returned?
    requires Informed(digest, s, s.requests[r].(phase := phase))
    ensures Inv(digest, Moved(s, r, phase))
  {
    var t := Moved(s, r, phase);
    SameCreators(s, t);
    forall q | 0 <= q < |t.requests| ensures Informed(digest, t, t.requests[q]) {
      assert q != r ==> Informed(digest, s, s.requests[q]);
    }
  }

  lemma SubmitKeepsInv(digest: Digest, s: Intake, u: Upload)
    requires Inv(digest, s)
    ensures Inv(digest, s.(requests := s.requests + [Request(u, Begun)]))
  {
    var t := s.(requests := s.requests + [Request(u, Begun)]);
    SameCreators(s, t);
    forall q | 0 <= q < |t.requests| ensures Informed(digest, t, t.requests[q]) {
      assert q < |s.requests| ==> Informed(digest, s, s.requests[q]);
    }
  }

  /** Writing a blob under a key that tells the truth about it. */
  lemma BlobKeepsInv(digest: Digest, s: Intake, key: string, data: Bytes)
    requires Inv(digest, s)
    requires forall d, f :: |d| == DIGEST_LENGTH && key == StorageKey(d, f) ==> digest(data) == d
    ensures Inv(digest, s.(blobs := s.blobs[key := data]))
  {
    var t := s.(blobs := s.blobs[key := data]);
    SameCreators(s, t);
    forall i | 0 <= i < |t.rows| ensures Kept(t.rows[i], t.blobs) {
      assert Kept(s.rows[i], s.blobs);
    }
    forall q | 0 <= q < |t.requests| ensures Informed(digest, t, t.requests[q]) {
      assert Informed(digest, s, s.requests[q]);
    }
  }

  lemma OwnKeyIsHonest(digest: Digest, u: Upload)
    requires HexDigest(digest)
    ensures forall d, f :: |d| == DIGEST_LENGTH && KeyOf(digest, u) == StorageKey(d, f) ==> digest(u.data) == d
  {
    assert |digest(u.data)| == DIGEST_LENGTH;
    forall d, f | |d| == DIGEST_LENGTH && KeyOf(digest, u) == StorageKey(d, f) ensures digest(u.data) == d {
      StorageKeyNamesDigest(digest(u.data), u.filename, d, f, "");
    }
  }

  lemma ArtifactKeyIsHonest(name: string)
    ensures forall d, f :: |d| == DIGEST_LENGTH ==> ArtifactKey(name) != StorageKey(d, f)
  {
    forall d, f | |d| == DIGEST_LENGTH ensures ArtifactKey(name) != StorageKey(d, f) {
      StorageKeyNamesDigest(d, f, d, f, name);
    }
  }

  lemma InsertKeepsRequests(digest: Digest, s: Intake, r: nat)
    requires Inv(digest, s) && InPhase(s, r, Stored)
    requires Find(s.rows, digest(s.requests[r].upload.data)).None?
    ensures var t := Apply(digest, s, Insert(r));
            forall q :: 0 <= q < |t.requests| ==> Informed(digest, t, t.requests[q])
  {
    var t := Apply(digest, s, Insert(r));
    forall q | 0 <= q < |t.requests| ensures Informed(digest, t, t.requests[q]) {
      assert Informed(digest, s, s.requests[q]);
      if s.requests[q].phase.Conflicted? {
        var i :| 0 <= i < |s.rows| && s.rows[i].digest == digest(s.requests[q].upload.data);
        assert t.rows[i] == s.rows[i];
      }
    }
  }

  lemma InsertKeepsCreators(digest: Digest, s: Intake, r: nat)
    requires OneCreatorEach(s) && EnqueuedByCreator(s) && InPhase(s, r, Stored)
    requires Find(s.rows, digest(s.requests[r].upload.data)).None?
    ensures var t := Apply(digest, s, Insert(r)); OneCreatorEach(t) && EnqueuedByCreator(t)
  {
    var t := Apply(digest, s, Insert(r));
    var n := |s.rows|;
    assert forall q, id: nat :: Creator(t, q, id) <==> Creator(s, q, id) || (q == r && id == n);
    forall id: nat | id < |t.rows| ensures HasCreator(t, id) {
      if id < n {
        assert HasCreator(s, id);
        var q :| Creator(s, q, id);
        assert Creator(t, q, id);
      } else {
        assert Creator(t, r, id);
      }
    }
    assert s.enqueued[n] == 0;
  }

  lemma InsertKeepsInv(digest: Digest, s: Intake, r: nat)
    requires Inv(digest, s) && HexDigest(digest) && InPhase(s, r, Stored)
    requires Find(s.rows, digest(s.requests[r].upload.data)).None?
    ensures Inv(digest, Apply(digest, s, Insert(r)))
  {
    var u := s.requests[r].upload;
    var t := Apply(digest, s, Insert(r));
    assert Informed(digest, s, s.requests[r]);
    assert |digest(u.data)| == DIGEST_LENGTH;
    forall i | 0 <= i < |t.rows| ensures Kept(t.rows[i], t.blobs) {
      assert i < |s.rows| ==> Kept(s.rows[i], s.blobs);
    }
    InsertKeepsRequests(digest, s, r);
    InsertKeepsCreators(digest, s, r);
  }

  lemma EnqueueKeepsInv(digest: Digest, s: Intake, r: nat)
    requires Inv(digest, s) && r < |s.requests| && s.requests[r].phase.Inserted?
    ensures Inv(digest, Apply(digest, s, Enqueue(r)))
  {
    var t := Apply(digest, s, Enqueue(r));
    var n := s.requests[r].phase.id;
    assert Creator(s, r, n);
    SameCreators(s, t);
    forall q | 0 <= q < |t.requests| ensures Informed(digest, t, t.requests[q]) {
      assert Informed(digest, s, s.requests[q]);
    }
  }

  /** The constraint is violated only when the winner is there, so re-reading always finds it. */
  lemma WinnerIsThere(digest: Digest, s: Intake, r: nat)
    requires Inv(digest, s) && InPhase(s, r, Conflicted)
    ensures Find(s.rows, digest(s.requests[r].upload.data)).Some?
  {
    assert Informed(digest, s, s.requests[r]);
  }

  lemma StepKeepsInv(digest: Digest, s: Intake, step: Step)
    requires Inv(digest, s) && HexDigest(digest)
    ensures Inv(digest, Apply(digest, s, step))
  {
    match step {
      case Submit(u) => SubmitKeepsInv(digest, s, u);
      case LookUp(r) =>
        if InPhase(s, r, Begun) {
          var found := Find(s.rows, digest(s.requests[r].upload.data));
          MoveKeepsInv(digest, s, r, if found.Some? then Returned(found.value, false) else Missed);
        }
      case Put(r) =>
        if InPhase(s, r, Missed) {
          var u := s.requests[r].upload;
          OwnKeyIsHonest(digest, u);
          BlobKeepsInv(digest, s, KeyOf(digest, u), u.data);
          MoveKeepsInv(digest, s.(blobs := s.blobs[KeyOf(digest, u) := u.data]), r, Stored);
        }
      case Insert(r) =>
        if InPhase(s, r, Stored) {
          if Find(s.rows, digest(s.requests[r].upload.data)).Some? {
            MoveKeepsInv(digest, s, r, Conflicted);
          } else {
            InsertKeepsInv(digest, s, r);
          }
        }
      case Reread(r) =>
        if InPhase(s, r, Conflicted) {
          WinnerIsThere(digest, s, r);
          MoveKeepsInv(digest, s, r, Returned(Find(s.rows, digest(s.requests[r].upload.data)).value, false));
        }
      case Enqueue(r) =>
        if r < |s.requests| && s.requests[r].phase.Inserted? {
          EnqueueKeepsInv(digest, s, r);
        }
      case Crash(r) =>
        if r < |s.requests| && !s.requests[r].phase.Returned? && !s.requests[r].phase.Crashed? {
          var phase := s.requests[r].phase;
          assert Informed(digest, s, s.requests[r]);
          MoveKeepsInv(digest, s, r, Crashed(if phase.Inserted? then Some(phase.id) else None));
        }
      case PutArtifact(name, data) =>
        ArtifactKeyIsHonest(name);
        BlobKeepsInv(digest, s, ArtifactKey(name), data);
    }
  }

  lemma {:induction false} RunFromKeepsInv(digest: Digest, s: Intake, run: seq<Step>)
    requires Inv(digest, s) && HexDigest(digest)
    ensures Inv(digest, ExecFrom(digest, s, run))
  {
    if run != [] {
      RunFromKeepsInv(digest, s, run[..|run| - 1]);
      StepKeepsInv(digest, ExecFrom(digest, s, run[..|run| - 1]), run[|run| - 1]);
    }
  }

  lemma RunKeepsInv(digest: Digest, run: seq<Step>)
    requires HexDigest(digest)
    ensures Inv(digest, Exec(digest, run))
  {
    RunFromKeepsInv(digest, CLOSED, run);
  }

  // ---- what racing uploads are promised ---------------------------------------------------------------

  /**
   After any interleaving: one invoice per digest; a request that returns has the
   row of its own bytes; of the requests that returned a given row at most one
   returned it as created, and its extraction is enqueued exactly when that one did.
   */
  lemma IngestionIsIdempotent(digest: Digest, run: seq<Step>, q: nat, r: nat)
    requires HexDigest(digest)
    requires q < |Exec(digest, run).requests| && r < |Exec(digest, run).requests|
    requires Exec(digest, run).requests[q].phase.Returned? && Exec(digest, run).requests[r].phase.Returned?
    ensures var s := Exec(digest, run);
            var a, b := s.requests[q], s.requests[r];
            && a.phase.id < |s.rows| && s.rows[a.phase.id].digest == digest(a.upload.data)
            && (digest(a.upload.data) == digest(b.upload.data) <==> a.phase.id == b.phase.id)
            && (a.phase.id == b.phase.id && a.phase.created && b.phase.created ==> q == r)
            && (a.phase.created ==> s.enqueued[a.phase.id] == 1)
  {
    RunKeepsInv(digest, run);
    var s := Exec(digest, run);
    assert Informed(digest, s, s.requests[q]) && Informed(digest, s, s.requests[r]);
    if s.requests[q].phase.created {
      assert Creator(s, q, s.requests[q].phase.id);
    }
    if s.requests[r].phase.created {
      assert Creator(s, r, s.requests[r].phase.id);
    }
  }

  /** Every invoice was created by exactly one request, and is waiting in the queue unless that one stopped first. */
  lemma EveryRowHasItsCreator(digest: Digest, run: seq<Step>, id: nat) returns (r: nat)
    requires HexDigest(digest) && id < |Exec(digest, run).rows|
    ensures var s := Exec(digest, run);
            && r < |s.requests| && CreatedBy(s.requests[r].phase) == Some(id)
            && digest(s.requests[r].upload.data) == s.rows[id].digest
            && (forall q :: 0 <= q < |s.requests| && CreatedBy(s.requests[q].phase) == Some(id) ==> q == r)
            && s.enqueued[id] == (if s.requests[r].phase.Returned? then 1 else 0)
  {
    RunKeepsInv(digest, run);
    var s := Exec(digest, run);
    assert HasCreator(s, id);
    var c :| Creator(s, c, id);
    r := c;
    assert Informed(digest, s, s.requests[r]);
    assert forall q :: Creator(s, q, id) ==> q == r;
    forall q | 0 <= q < |s.requests| && CreatedBy(s.requests[q].phase) == Some(id) ensures q == r {
      assert Creator(s, q, id);
    }
  }

  /** In every reachable state each invoice's key holds bytes that hash to its digest. */
  lemma StorageIsHonest(digest: Digest, run: seq<Step>, id: nat)
    requires HexDigest(digest) && id < |Exec(digest, run).rows|
    ensures var s := Exec(digest, run);
            && s.rows[id].storageKey in s.blobs
            && digest(s.blobs[s.rows[id].storageKey]) == s.rows[id].digest
            && (forall j :: 0 <= j < |s.rows| && j != id ==> s.rows[j].digest != s.rows[id].digest)
  {
    RunKeepsInv(digest, run);
    var s := Exec(digest, run);
    assert Kept(s.rows[id], s.blobs);
  }

  lemma {:induction false} RowsOnlyGrow(digest: Digest, s: Intake, run: seq<Step>, id: nat)
    requires id < |s.rows|
    ensures var t := ExecFrom(digest, s, run); id < |t.rows| && t.rows[id] == s.rows[id]
  {
    if run != [] {
      RowsOnlyGrow(digest, s, run[..|run| - 1], id);
    }
  }

  /** The bytes of some request. */
  ghost predicate Came(s: Intake, data: Bytes) {
    exists q :: 0 <= q < |s.requests| && s.requests[q].upload.data == data
  }

  /** Bytes under an upload's key were uploaded. */
  ghost predicate Uploaded(s: Intake) {
    forall k, d, f :: k in s.blobs && |d| == DIGEST_LENGTH && k == StorageKey(d, f) ==> Came(s, s.blobs[k])
  }

  /** Requests are added, and keep what they upload. */
  predicate RequestsKept(s: Intake, t: Intake) {
    && |s.requests| <= |t.requests|
    && forall q :: 0 <= q < |s.requests| ==> t.requests[q].upload == s.requests[q].upload
  }

  lemma StepKeepsRequests(digest: Digest, s: Intake, step: Step)
    ensures RequestsKept(s, Apply(digest, s, step))
  {
  }

  lemma CameStays(s: Intake, t: Intake, data: Bytes)
    requires RequestsKept(s, t) && Came(s, data)
    ensures Came(t, data)
  {
    var q :| 0 <= q < |s.requests| && s.requests[q].upload.data == data;
    assert t.requests[q].upload.data == data;
  }

  lemma StepKeepsUploaded(digest: Digest, s: Intake, step: Step)
    requires Uploaded(s)
    ensures Uploaded(Apply(digest, s, step))
  {
    var t := Apply(digest, s, step);
    StepKeepsRequests(digest, s, step);
    forall k, d, f | k in t.blobs && |d| == DIGEST_LENGTH && k == StorageKey(d, f) ensures Came(t, t.blobs[k]) {
      if step.PutArtifact? {
        StorageKeyNamesDigest(d, f, d, f, step.name);
      }
      if k in s.blobs && t.blobs[k] == s.blobs[k] {
        CameStays(s, t, s.blobs[k]);
      } else {
        assert t.requests[step.r].upload.data == t.blobs[k];
      }
    }
  }

  lemma {:induction false} RunKeepsUploaded(digest: Digest, run: seq<Step>)
    ensures Uploaded(Exec(digest, run))
  {
    if run != [] {
      RunKeepsUploaded(digest, run[..|run| - 1]);
      StepKeepsUploaded(digest, Exec(digest, run[..|run| - 1]), run[|run| - 1]);
    }
  }

  lemma {:induction false} RunKeepsRequests(digest: Digest, s: Intake, run: seq<Step>)
    ensures RequestsKept(s, ExecFrom(digest, s, run))
  {
    if run != [] {
      RunKeepsRequests(digest, s, run[..|run| - 1]);
      StepKeepsRequests(digest, ExecFrom(digest, s, run[..|run| - 1]), run[|run| - 1]);
    }
  }

  /** No two requests carry different bytes with the same digest. */
  predicate NoCollision(digest: Digest, requests: seq<Request>) {
    forall p, q :: 0 <= p < |requests| && 0 <= q < |requests|
                   && digest(requests[p].upload.data) == digest(requests[q].upload.data) ==>
                     requests[p].upload.data == requests[q].upload.data
  }

  /** The row and the bytes of invoice `id` are in `t` what they are in `s`. */
  predicate Unaltered(s: Intake, t: Intake, id: nat) {
    && id < |s.rows| && id < |t.rows| && t.rows[id] == s.rows[id]
    && s.rows[id].storageKey in s.blobs && s.rows[id].storageKey in t.blobs
    && t.blobs[s.rows[id].storageKey] == s.blobs[s.rows[id].storageKey]
  }

  lemma StoredBytesCame(digest: Digest, run: seq<Step>, id: nat)
    requires HexDigest(digest) && id < |Exec(digest, run).rows|
    ensures var s := Exec(digest, run);
            s.rows[id].storageKey in s.blobs && Came(s, s.blobs[s.rows[id].storageKey])
  {
    var s := Exec(digest, run);
    RunKeepsInv(digest, run);
    RunKeepsUploaded(digest, run);
    assert Kept(s.rows[id], s.blobs);
  }

  /** No later upload or export changes the bytes of an invoice, unless two uploads collide. */
  lemma StoredBytesNeverChange(digest: Digest, run: seq<Step>, more: seq<Step>, id: nat)
    requires HexDigest(digest) && id < |Exec(digest, run).rows|
    requires NoCollision(digest, Exec(digest, run + more).requests)
    ensures Unaltered(Exec(digest, run), Exec(digest, run + more), id)
  {
    var s, t := Exec(digest, run), Exec(digest, run + more);
    ExecFromConcat(digest, CLOSED, run, more);
    RowsOnlyGrow(digest, s, more, id);
    RunKeepsRequests(digest, s, more);
    StorageIsHonest(digest, run, id);
    StorageIsHonest(digest, run + more, id);
    StoredBytesCame(digest, run, id);
    StoredBytesCame(digest, run + more, id);
    var key := s.rows[id].storageKey;
    CameStays(s, t, s.blobs[key]);
    var p :| 0 <= p < |t.requests| && t.requests[p].upload.data == s.blobs[key];
    var q :| 0 <= q < |t.requests| && t.requests[q].upload.data == t.blobs[key];
  }

  /** All uploads of a run carry bytes from this set. */
  ghost predicate Carries(run: seq<Step>, bytes: iset<Bytes>) {
    forall i :: 0 <= i < |run| && run[i].Submit? ==> run[i].upload.data in bytes
  }

  lemma {:induction false} RequestsCarry(digest: Digest, run: seq<Step>, bytes: iset<Bytes>)
    requires Carries(run, bytes)
    ensures forall q :: 0 <= q < |Exec(digest, run).requests| ==> Exec(digest, run).requests[q].upload.data in bytes
  {
    if run != [] {
      var front := run[..|run| - 1];
      assert forall i :: 0 <= i < |front| ==> front[i] == run[i];
      RequestsCarry(digest, front, bytes);
      StepKeepsRequests(digest, Exec(digest, front), run[|run| - 1]);
    }
  }

  /** Two uploads under one filename have both found nothing. */
  function BothMissed(x: Bytes, y: Bytes): Intake {
    Intake([Request(Upload(x, "a"), Missed), Request(Upload(y, "a"), Missed)], [], map[], multiset{})
  }

  lemma BothSubmit(digest: Digest, u: Upload, v: Upload)
    ensures Exec(digest, [Submit(u), Submit(v)]) == Intake([Request(u, Begun), Request(v, Begun)], [], map[], multiset{})
  {
    ExecFromStep(digest, CLOSED, [], Submit(u));
    ExecFromStep(digest, CLOSED, [Submit(u)], Submit(v));
    assert [] + [Submit(u)] == [Submit(u)] && [Submit(u)] + [Submit(v)] == [Submit(u), Submit(v)];
  }

  lemma BothLookUp(digest: Digest, x: Bytes, y: Bytes, s: Intake)
    requires s == Intake([Request(Upload(x, "a"), Begun), Request(Upload(y, "a"), Begun)], [], map[], multiset{})
    ensures Apply(digest, Apply(digest, s, LookUp(0)), LookUp(1)) == BothMissed(x, y)
  {
  }

  lemma BothMiss(digest: Digest, x: Bytes, y: Bytes) returns (run: seq<Step>)
    ensures Exec(digest, run) == BothMissed(x, y) && Carries(run, iset{x, y})
  {
    run := [Submit(Upload(x, "a")), Submit(Upload(y, "a"))];
    BothSubmit(digest, Upload(x, "a"), Upload(y, "a"));
    BothLookUp(digest, x, y, Exec(digest, run));
    ExecFromStep(digest, CLOSED, run, LookUp(0));
    ExecFromStep(digest, CLOSED, run + [LookUp(0)], LookUp(1));
    run := run + [LookUp(0)] + [LookUp(1)];
  }

  lemma FirstInserts(digest: Digest, x: Bytes, y: Bytes, s: Intake)
    requires s == BothMissed(x, y)
    ensures var key := StorageKey(digest(x), "a");
            Apply(digest, Apply(digest, s, Put(0)), Insert(0))
            == Intake([Request(Upload(x, "a"), Inserted(0)), Request(Upload(y, "a"), Missed)],
                      [InvoiceRow(digest(x), key)], map[key := x], multiset{})
  {
  }

  /** Two uploads that collide, under one filename: the second replaces the bytes of the first. */
  lemma CollisionReplacesBytes(digest: Digest, x: Bytes, y: Bytes) returns (run: seq<Step>, more: seq<Step>)
    requires x != y && digest(x) == digest(y)
    ensures Carries(run + more, iset{x, y})
    ensures |Exec(digest, run).rows| == 1 && !Unaltered(Exec(digest, run), Exec(digest, run + more), 0)
  {
    run := BothMiss(digest, x, y);
    ExecFromStep(digest, CLOSED, run, Put(0));
    ExecFromStep(digest, CLOSED, run + [Put(0)], Insert(0));
    FirstInserts(digest, x, y, Exec(digest, run));
    run, more := run + [Put(0)] + [Insert(0)], [Put(1)];
    ExecFromStep(digest, CLOSED, run, Put(1));
  }

  /**
   The exact condition: with uploads from a given set of byte strings, stored bytes
   are safe if and only if no two of the set have the same digest.
   */
  lemma StoredBytesAreSafeExactly(digest: Digest, bytes: iset<Bytes>)
    requires HexDigest(digest)
    ensures (forall run, more, id: nat ::
               Carries(run + more, bytes) && id < |Exec(digest, run).rows| ==>
                 Unaltered(Exec(digest, run), Exec(digest, run + more), id))
            <==> (forall x, y :: x in bytes && y in bytes && digest(x) == digest(y) ==> x == y)
  {
    if forall x, y :: x in bytes && y in bytes && digest(x) == digest(y) ==> x == y {
      forall run, more, id: nat | Carries(run + more, bytes) && id < |Exec(digest, run).rows|
        ensures Unaltered(Exec(digest, run), Exec(digest, run + more), id)
      {
        RequestsCarry(digest, run + more, bytes);
        StoredBytesNeverChange(digest, run, more, id);
      }
    } else {
      var x, y :| x in bytes && y in bytes && digest(x) == digest(y) && x != y;
      var run, more := CollisionReplacesBytes(digest, x, y);
      assert Carries(run + more, bytes);
    }
  }

  // ---- the request itself -----------------------------------------------------------------------------------

  /** Which request a step moves. */
  function Actor(step: Step): Option<nat> {
    match step
    case LookUp(r) => Some(r)
    case Put(r) => Some(r)
    case Insert(r) => Some(r)
    case Reread(r) => Some(r)
    case Enqueue(r) => Some(r)
    case Crash(r) => Some(r)
    case _ => None
  }

  /** Steps of the rest of the world, as request `r` sees them. */
  predicate OfOthers(steps: seq<Step>, r: nat) {
    forall k :: 0 <= k < |steps| ==> Actor(steps[k]) != Some(r)
  }

  lemma {:induction false} OthersLeaveTheRequest(digest: Digest, s: Intake, steps: seq<Step>, r: nat)
    requires r < |s.requests| && OfOthers(steps, r)
    ensures var t := ExecFrom(digest, s, steps);
            && r < |t.requests| && t.requests[r] == s.requests[r]
  {
    if steps != [] {
      OthersLeaveTheRequest(digest, s, steps[..|steps| - 1], r);
    }
  }

  /** An upload up to its insert, with what happens elsewhere before its bytes are stored and before its row is inserted. */
  function Attempted(digest: Digest, s: Intake, r: nat, a: seq<Step>, b: seq<Step>): Intake {
    Apply(digest, ExecFrom(digest, Apply(digest, ExecFrom(digest, s, a), Put(r)), b), Insert(r))
  }

  function Arrived(digest: Digest, s: Intake, u: Upload): Intake {
    Apply(digest, Apply(digest, s, Submit(u)), LookUp(|s.requests|))
  }

  function Answered(digest: Digest, s: Intake, r: nat, c: seq<Step>): Intake {
    Apply(digest, Apply(digest, ExecFrom(digest, s, c), Reread(r)), Enqueue(r))
  }

  /** The state an upload leaves, whether or not its bytes are known; of its last two steps at most one applies. */
  function Raced(digest: Digest, s: Intake, u: Upload, a: seq<Step>, b: seq<Step>, c: seq<Step>): Intake {
    var r := |s.requests|;
    if Find(s.rows, digest(u.data)).Some? then Arrived(digest, s, u)
    else Answered(digest, Attempted(digest, Arrived(digest, s, u), r, a, b), r, c)
  }

  /** The steps of that upload, in order. */
  function Trace(u: Upload, r: nat, a: seq<Step>, b: seq<Step>, c: seq<Step>): seq<Step> {
    [Submit(u), LookUp(r)] + a + [Put(r)] + b + [Insert(r)] + c + [Reread(r)] + [Enqueue(r)]
  }

  lemma {:induction false} ExecFromConcat(digest: Digest, s: Intake, p: seq<Step>, q: seq<Step>)
    ensures ExecFrom(digest, s, p + q) == ExecFrom(digest, ExecFrom(digest, s, p), q)
  {
    if q == [] {
      assert p + q == p;
    } else {
      ExecFromConcat(digest, s, p, q[..|q| - 1]);
      assert (p + q)[..|p + q| - 1] == p + q[..|q| - 1];
    }
  }

  lemma ExecFromStep(digest: Digest, s: Intake, p: seq<Step>, step: Step)
    ensures ExecFrom(digest, s, p + [step]) == Apply(digest, ExecFrom(digest, s, p), step)
  {
    assert (p + [step])[..|p + [step]| - 1] == p;
  }

  /** A run `p`, then the steps of others, then one step. */
  lemma Extended(digest: Digest, s: Intake, p: seq<Step>, w: Intake, others: seq<Step>, step: Step)
    requires w == ExecFrom(digest, s, p)
    ensures Apply(digest, ExecFrom(digest, w, others), step) == ExecFrom(digest, s, p + others + [step])
  {
    ExecFromConcat(digest, s, p, others);
    ExecFromStep(digest, s, p + others, step);
  }

  lemma ArrivedIsARun(digest: Digest, s: Intake, u: Upload)
    ensures Arrived(digest, s, u) == ExecFrom(digest, s, [Submit(u), LookUp(|s.requests|)])
  {
    var p := [Submit(u), LookUp(|s.requests|)];
    assert p[..1] == [Submit(u)];
    ExecFromStep(digest, s, [], Submit(u));
    assert [] + [Submit(u)] == [Submit(u)];
  }

  lemma AttemptedIsARun(digest: Digest, s: Intake, p: seq<Step>, w: Intake, r: nat, a: seq<Step>, b: seq<Step>)
    requires w == ExecFrom(digest, s, p)
    ensures Attempted(digest, w, r, a, b) == ExecFrom(digest, s, p + a + [Put(r)] + b + [Insert(r)])
  {
    Extended(digest, s, p, w, a, Put(r));
    Extended(digest, s, p + a + [Put(r)], Apply(digest, ExecFrom(digest, w, a), Put(r)), b, Insert(r));
  }

  lemma AnsweredIsARun(digest: Digest, s: Intake, p: seq<Step>, w: Intake, r: nat, c: seq<Step>)
    requires w == ExecFrom(digest, s, p)
    ensures Answered(digest, w, r, c) == ExecFrom(digest, s, p + c + [Reread(r)] + [Enqueue(r)])
  {
    Extended(digest, s, p, w, c, Reread(r));
    ExecFromStep(digest, s, p + c + [Reread(r)], Enqueue(r));
  }

  /** So what is proved of runs holds of what an upload leaves. */
  lemma RacedIsARun(digest: Digest, s: Intake, u: Upload, a: seq<Step>, b: seq<Step>, c: seq<Step>)
    ensures var r := |s.requests|;
            Raced(digest, s, u, a, b, c)
            == ExecFrom(digest, s, if Find(s.rows, digest(u.data)).Some? then [Submit(u), LookUp(r)] else Trace(u, r, a, b, c))
  {
    var r := |s.requests|;
    var p := [Submit(u), LookUp(r)];
    var w := Arrived(digest, s, u);
    ArrivedIsARun(digest, s, u);
    AttemptedIsARun(digest, s, p, w, r, a, b);
    AnsweredIsARun(digest, s, p + a + [Put(r)] + b + [Insert(r)], Attempted(digest, w, r, a, b), r, c);
  }

  lemma AttemptIsDecided(digest: Digest, s: Intake, r: nat, a: seq<Step>, b: seq<Step>)
    requires InPhase(s, r, Missed) && OfOthers(a, r) && OfOthers(b, r)
    ensures var t := Attempted(digest, s, r, a, b);
            && r < |t.requests| && t.requests[r].upload == s.requests[r].upload
            && (t.requests[r].phase.Conflicted? || t.requests[r].phase.Inserted?)
  {
    OthersLeaveTheRequest(digest, s, a, r);
    OthersLeaveTheRequest(digest, Apply(digest, ExecFrom(digest, s, a), Put(r)), b, r);
  }

  lemma AttemptKeepsInv(digest: Digest, s: Intake, r: nat, a: seq<Step>, b: seq<Step>)
    requires HexDigest(digest) && Inv(digest, s)
    ensures Inv(digest, Attempted(digest, s, r, a, b))
  {
    RunFromKeepsInv(digest, s, a);
    StepKeepsInv(digest, ExecFrom(digest, s, a), Put(r));
    RunFromKeepsInv(digest, Apply(digest, ExecFrom(digest, s, a), Put(r)), b);
    StepKeepsInv(digest, ExecFrom(digest, Apply(digest, ExecFrom(digest, s, a), Put(r)), b), Insert(r));
  }

  /** The answer a request got is the row of its own bytes. */
  ghost predicate Served(digest: Digest, s: Intake, r: nat) {
    && Inv(digest, s)
    && r < |s.requests| && s.requests[r].phase.Returned?
    && s.requests[r].phase.id < |s.rows|
    && s.rows[s.requests[r].phase.id].digest == digest(s.requests[r].upload.data)
  }

  lemma ArrivedKeepsInv(digest: Digest, s: Intake, u: Upload)
    requires HexDigest(digest) && Inv(digest, s)
    ensures Inv(digest, Arrived(digest, s, u))
  {
    StepKeepsInv(digest, s, Submit(u));
    StepKeepsInv(digest, Apply(digest, s, Submit(u)), LookUp(|s.requests|));
  }

  lemma LastStepsServe(digest: Digest, s: Intake, r: nat)
    requires HexDigest(digest) && Inv(digest, s) && r < |s.requests|
    requires s.requests[r].phase.Conflicted? || s.requests[r].phase.Inserted?
    ensures var t := Apply(digest, Apply(digest, s, Reread(r)), Enqueue(r));
            Served(digest, t, r) && t.requests[r].upload == s.requests[r].upload
  {
    if s.requests[r].phase.Conflicted? {
      WinnerIsThere(digest, s, r);
    }
    StepKeepsInv(digest, s, Reread(r));
    var t := Apply(digest, s, Reread(r));
    StepKeepsInv(digest, t, Enqueue(r));
    t := Apply(digest, t, Enqueue(r));
    assert Informed(digest, t, t.requests[r]);
  }

  lemma AnsweredServes(digest: Digest, s: Intake, r: nat, c: seq<Step>)
    requires HexDigest(digest) && Inv(digest, s) && r < |s.requests| && OfOthers(c, r)
    requires s.requests[r].phase.Conflicted? || s.requests[r].phase.Inserted?
    ensures var t := Answered(digest, s, r, c);
            Served(digest, t, r) && t.requests[r].upload == s.requests[r].upload
  {
    OthersLeaveTheRequest(digest, s, c, r);
    RunFromKeepsInv(digest, s, c);
    LastStepsServe(digest, ExecFrom(digest, s, c), r);
  }

  /** From a consistent state every upload is answered, with the row of its own bytes. */
  lemma EveryUploadIsServed(digest: Digest, s: Intake, u: Upload, a: seq<Step>, b: seq<Step>, c: seq<Step>)
    requires HexDigest(digest) && Inv(digest, s)
    requires OfOthers(a, |s.requests|) && OfOthers(b, |s.requests|) && OfOthers(c, |s.requests|)
    ensures var t := Raced(digest, s, u, a, b, c);
            Served(digest, t, |s.requests|) && t.requests[|s.requests|].upload == u
  {
    var r := |s.requests|;
    ArrivedKeepsInv(digest, s, u);
    var w := Arrived(digest, s, u);
    if Find(s.rows, digest(u.data)).None? {
      AttemptIsDecided(digest, w, r, a, b);
      AttemptKeepsInv(digest, w, r, a, b);
      AnsweredServes(digest, Attempted(digest, w, r, a, b), r, c);
    } else {
      assert Informed(digest, w, w.requests[r]);
    }
  }

  datatype IngestResult = Ingested(id: nat, created: bool) | IntegrityError

  class Backend {
    var requests: seq<Request>
    var rows: seq<InvoiceRow>
    var blobs: map<string, Bytes>
    var enqueued: multiset<nat>

    constructor ()
      ensures Now() == CLOSED
    {
      requests, rows, blobs, enqueued := [], [], map[], multiset{};
    }

    function Now(): Intake
      reads this
    {
      Intake(requests, rows, blobs, enqueued)
    }

    /** What other requests do while this one is between two of its own steps. */
    method Meanwhile(digest: Digest, steps: seq<Step>)
      modifies this
      ensures Now() == ExecFrom(digest, old(Now()), steps)
    {
      var s := ExecFrom(digest, Now(), steps);
      requests, rows, blobs, enqueued := s.requests, s.rows, s.blobs, s.enqueued;
    }

    method Reached(r: nat, phase: Phase)
      requires r < |requests|
      modifies this`requests
      ensures requests == old(requests)[r := old(requests)[r].(phase := phase)]
    {
      requests := requests[r := requests[r].(phase := phase)];
    }

    method LookUpDigest(digest: Digest, upload: Upload) returns (existing: Option<nat>)
      modifies this`requests
      ensures Now() == Arrived(digest, old(Now()), upload)
      ensures existing == Find(old(rows), digest(upload.data))
    {
      var r := |requests|;
      requests := requests + [Request(upload, Begun)];
      existing := Find(rows, digest(upload.data));
      Reached(r, if existing.Some? then Returned(existing.value, false) else Missed);
    }

    method PutObject(digest: Digest, r: nat)
      requires InPhase(Now(), r, Missed)
      modifies this`requests, this`blobs
      ensures Now() == Apply(digest, old(Now()), Put(r))
    {
      var upload := requests[r].upload;
      blobs := blobs[StorageKey(digest(upload.data), upload.filename) := upload.data];
      Reached(r, Stored);
    }

    /** Insert under the unique constraint, and commit. */
    method FlushRow(digest: Digest, r: nat) returns (conflict: bool)
      requires InPhase(Now(), r, Stored)
      modifies this`requests, this`rows
      ensures Now() == Apply(digest, old(Now()), Insert(r))
      ensures r < |requests| && requests[r].phase == if conflict then Conflicted else Inserted(|old(rows)|)
    {
      var upload := requests[r].upload;
      var d := digest(upload.data);
      conflict := Find(rows, d).Some?;
      if conflict {
        Reached(r, Conflicted);
      } else {
        var id := |rows|;
        rows := rows + [InvoiceRow(d, StorageKey(d, upload.filename))];
        Reached(r, Inserted(id));
      }
    }

    method ReturnWinner(digest: Digest, r: nat) returns (result: IngestResult)
      requires InPhase(Now(), r, Conflicted)
      modifies this`requests
      ensures Now() == Apply(digest, Apply(digest, old(Now()), Reread(r)), Enqueue(r))
      ensures r < |requests|
      ensures requests[r].phase
           == match result { case Ingested(id, created) => Returned(id, created) case IntegrityError => Crashed(None) }
    {
      var winner := Find(rows, digest(requests[r].upload.data));
      if winner.None? {
        Reached(r, Crashed(None));
        return IntegrityError;
      }
      Reached(r, Returned(winner.value, false));
      return Ingested(winner.value, false);
    }

    method DelayExtraction(digest: Digest, r: nat) returns (result: IngestResult)
      requires r < |requests| && requests[r].phase.Inserted?
      modifies this`requests, this`enqueued
      ensures Now() == Apply(digest, Apply(digest, old(Now()), Reread(r)), Enqueue(r))
      ensures r < |requests|
      ensures result == Ingested(old(requests[r]).phase.id, true)
      ensures requests[r].phase == Returned(result.id, true)
    {
      var id := requests[r].phase.id;
      enqueued := enqueued + multiset{id};
      Reached(r, Returned(id, true));
      return Ingested(id, true);
    }

    /**
     An upload, whatever the others do in between. By `EveryUploadIsServed` it comes
     back with the row of its own bytes, and the violated constraint is never re-raised.
     */
    method IngestUpload(digest: Digest, upload: Upload, a: seq<Step>, b: seq<Step>, c: seq<Step>)
      returns (result: IngestResult)
      requires OfOthers(a, |requests|) && OfOthers(b, |requests|) && OfOthers(c, |requests|)
      modifies this
      ensures Now() == Raced(digest, old(Now()), upload, a, b, c)
      ensures |old(requests)| < |requests|
      ensures result.Ingested? ==> requests[|old(requests)|].phase == Returned(result.id, result.created)
      ensures result.IntegrityError? ==> requests[|old(requests)|].phase == Crashed(None)
      ensures Find(old(rows), digest(upload.data)).Some? ==>
                result.Ingested? && !result.created && rows == old(rows) && blobs == old(blobs) && enqueued == old(enqueued)
    {
      var r := |requests|;
      var existing := LookUpDigest(digest, upload);
      if existing.Some? {
        return Ingested(existing.value, false);
      }
      AttemptIsDecided(digest, Now(), r, a, b);
      OthersLeaveTheRequest(digest, Now(), a, r);
      Meanwhile(digest, a);
      PutObject(digest, r);
      OthersLeaveTheRequest(digest, Now(), b, r);
      Meanwhile(digest, b);
      var conflict := FlushRow(digest, r);
      OthersLeaveTheRequest(digest, Now(), c, r);
      Meanwhile(digest, c);
      if conflict {
        result := ReturnWinner(digest, r);
      } else {
        result := DelayExtraction(digest, r);
      }
    }
  }
}
