/**
 * The rebuild-or-reuse decision and the batched build of the vector index
 * (`initialize_vectorstore` and `initialize_rag` in `ijunavi/rag_service.py`).
 * The database directory is modelled by what the decision reads from it:
 * whether the vector store's own files are there, the documents indexed, and
 * the saved fingerprint file kept in the same directory. Embedding, the
 * Chroma store and the question-answering chain are left out; what they
 * contribute is either a parameter or the list of indexed documents.
 */
module VectorStore {
  import opened Common
  import opened Text
  import opened RagStatus
  import opened Chunking
  import opened Fingerprint

  /** Documents given to `add_documents` per call. */
  const BatchSize: nat := 200

  /** A JSON value as `json.loads` returns it, as far as the decision looks at it. */
  datatype Json = JObject(fields: map<string, Json>) | JString(s: string) | JOther(truthy: bool)

  /** `_fingerprint.json` in the database directory: absent, unreadable, or parsed. */
  datatype FpFile = NoFpFile | Unreadable | FpText(value: Json)

  /** Python truthiness: empty objects and strings are false. */
  predicate Truthy(v: Json)
  {
    match v
    case JObject(f) => |f| > 0
    case JString(s) => |s| > 0
    case JOther(t) => t
  }

  /** What `save_fingerprint` writes: the `files` list and the `hash`. */
  function SavedJson(fp: DataFingerprint): Json
  {
    JObject(map["files" := JOther(|fp.files| > 0), "hash" := JString(fp.hash)])
  }

  /**
   * The outcome of `db_exists and saved_fp and saved_fp.get("hash") == current_fp.get("hash")`:
   * `SavedNotObject` is the `AttributeError` raised when the saved value is truthy but no object.
   */
  datatype Decision = Reuse | Rebuild | SavedNotObject

  function Decide(dbExists: bool, saved: Option<Json>, currentHash: string): Decision
  {
    if !dbExists || saved.None? || !Truthy(saved.value) then Rebuild
    else
      match saved.value
      case JObject(f) => if "hash" in f && f["hash"] == JString(currentHash) then Reuse else Rebuild
      case _ => SavedNotObject
  }

  /** The index is reused exactly when the directory holds files and a saved object whose hash is the current one. */
  lemma DecideReuseIff(dbExists: bool, saved: Option<Json>, currentHash: string)
    ensures Decide(dbExists, saved, currentHash) == Reuse <==>
      dbExists && saved.Some? && saved.value.JObject? && "hash" in saved.value.fields
      && saved.value.fields["hash"] == JString(currentHash)
  {
    if saved.Some? && saved.value.JObject? && "hash" in saved.value.fields {
      assert "hash" in saved.value.fields.Keys;
      assert |saved.value.fields.Keys| > 0;
    }
  }

  /** The check itself fails only on a truthy saved value that is not an object. */
  lemma DecideFailsIff(dbExists: bool, saved: Option<Json>, currentHash: string)
    ensures Decide(dbExists, saved, currentHash) == SavedNotObject <==>
      dbExists && saved.Some? && Truthy(saved.value) && !saved.value.JObject?
  {
  }

  /** A fingerprint saved by a build makes the next check reuse it, while the files stay the same. */
  lemma SavedFingerprintReused(fp: DataFingerprint)
    ensures Decide(true, Some(SavedJson(fp)), fp.hash) == Reuse
  {
    DecideReuseIff(true, Some(SavedJson(fp)), fp.hash);
  }

  /** `int(done * 100 / total) if total else 100`, on exact rationals. */
  function PercentOf(done: nat, total: nat): nat
  {
    if total == 0 then 100 else done * 100 / total
  }

  /** The percentage is the floor of the exact ratio, lies in 0..100, grows with `done` and is 100 at the end. */
  lemma PercentBounds(done: nat, total: nat)
    requires done <= total
    ensures total > 0 ==> PercentOf(done, total) * total <= done * 100 < (PercentOf(done, total) + 1) * total
    ensures PercentOf(done, total) <= 100
    ensures PercentOf(total, total) == 100
  {
    if total > 0 {
      var a := done * 100;
      MulLe(done, total, 100);
      DivFloor(a, total);
      DivBelow(a, total, 100);
      DivExact(100, total);
    }
  }

  /** `a / d` is the floor of the ratio. */
  lemma DivFloor(a: nat, d: nat)
    requires d > 0
    ensures (a / d) * d <= a < (a / d + 1) * d
  {
    var q, r := a / d, a % d;
    assert a == d * q + r;
    MulSucc(q, d);
  }

  /** Dividing `q * d` by `d` gives `q` back. */
  lemma DivExact(q: nat, d: nat)
    requires d > 0
    ensures (q * d) / d == q
  {
    var a := q * d;
    DivFloor(a, d);
    if a / d < q {
      MulLe(a / d + 1, q, d);
      assert false;
    } else if a / d > q {
      MulLe(q + 1, a / d, d);
      MulSucc(q, d);
      assert false;
    }
  }

  lemma DivBelow(a: nat, d: nat, q: nat)
    requires d > 0 && a <= d * q
    ensures a / d <= q
  {
    if a / d > q {
      MulLe(q + 1, a / d, d);
      assert false;
    }
  }

  lemma PercentMonotone(d1: nat, d2: nat, total: nat)
    requires d1 <= d2
    ensures PercentOf(d1, total) <= PercentOf(d2, total)
  {
    if total > 0 {
      DivMonotone(d1 * 100, d2 * 100, total);
    }
  }

  lemma DivMonotone(a: nat, b: nat, d: nat)
    requires a <= b && d > 0
    ensures a / d <= b / d
  {
    if a / d > b / d {
      MulLe(b / d + 1, a / d, d);
      assert false;
    }
  }

  /** The record while building, after `done` of `total` chunks. */
  function BuildingStatus(total: nat, done: nat, percent: nat): Status
  {
    Status(Building, total, done, percent, "ベクトルDB作成中... " + IntToString(done) + "/" + IntToString(total), "")
  }

  /** The record once the index has been built from `total` chunks. */
  function ReadyStatus(total: nat): Status
  {
    Status(Ready, total, total, 100, "ベクトルDB作成が完了しました。", "")
  }

  /** The record when the saved index is reused. */
  const ReusedStatus: Status := Status(Ready, 0, 0, 100, "ベクトルDBは既に作成済みです。", "")

  /**
   * The counts published after the batches that start at `i`, `i + 200`, ...
   * below `total`: after each, `min(start + 200, total)` chunks are indexed.
   */
  function BatchCounts(total: nat, i: nat): seq<nat>
    decreases total - i
  {
    if i >= total then [] else [Min(i + BatchSize, total)] + BatchCounts(total, i + BatchSize)
  }

  /** One `building` record per count. */
  function BuildingRecords(total: nat, counts: seq<nat>): (t: seq<Status>)
  {
    seq(|counts|, j requires 0 <= j < |counts| => BuildingStatus(total, counts[j], PercentOf(counts[j], total)))
  }

  /** The records published after the batches that start at `i`, `i + 200`, ... */
  function TraceFrom(total: nat, i: nat): seq<Status>
  {
    BuildingRecords(total, BatchCounts(total, i))
  }

  /** Every record a build from `total` chunks publishes, in order. */
  function BuildTrace(total: nat): seq<Status>
  {
    [BuildingStatus(total, 0, 0)] + TraceFrom(total, 0) + [ReadyStatus(total)]
  }

  /**
   * The counts from `i` on: none exactly when `i` is past the end; each above
   * `i` and at most `total`, strictly increasing, the last one `total`.
   */
  lemma {:induction false} BatchCountsBounds(total: nat, i: nat)
    ensures var cs := BatchCounts(total, i);
      && (cs == [] <==> i >= total)
      && (forall j :: 0 <= j < |cs| ==> i < cs[j] <= total)
      && (forall j :: 0 <= j < |cs| - 1 ==> cs[j] < cs[j + 1])
      && (cs != [] ==> cs[|cs| - 1] == total)
    decreases total - i
  {
    if i < total {
      BatchCountsBounds(total, i + BatchSize);
      var cs, rest := BatchCounts(total, i), BatchCounts(total, i + BatchSize);
      assert cs == [cs[0]] + rest;
      forall j | 0 < j < |cs|
        ensures cs[j] == rest[j - 1]
      {
      }
      if rest != [] {
        assert cs[|cs| - 1] == rest[|rest| - 1];
      }
    }
  }

  /**
   * The batches from `i` on: none exactly when `i` is past the end; each record
   * says `building` with a count above `i` and at most `total` and a
   * percentage of at most 100, and the last count is `total`.
   */
  lemma TraceFromBounds(total: nat, i: nat)
    ensures var t := TraceFrom(total, i);
      && (t == [] <==> i >= total)
      && (forall j :: 0 <= j < |t| ==>
            && t[j].state == Building && t[j].total == total
            && i < t[j].current <= total && t[j].percent == PercentOf(t[j].current, total) <= 100)
      && (t != [] ==> t[|t| - 1].current == total)
  {
    var cs, t := BatchCounts(total, i), TraceFrom(total, i);
    BatchCountsBounds(total, i);
    forall j | 0 <= j < |t|
      ensures t[j].state == Building && t[j].total == total
      ensures i < t[j].current <= total && t[j].percent == PercentOf(t[j].current, total) <= 100
    {
      assert t[j] == BuildingStatus(total, cs[j], PercentOf(cs[j], total));
      PercentBounds(cs[j], total);
    }
  }

  /** Along the batches the counts strictly increase and the percentages never decrease. */
  lemma TraceFromMonotone(total: nat, i: nat)
    ensures var t := TraceFrom(total, i);
      forall j :: 0 <= j < |t| - 1 ==> t[j].current < t[j + 1].current && t[j].percent <= t[j + 1].percent
  {
    var cs, t := BatchCounts(total, i), TraceFrom(total, i);
    BatchCountsBounds(total, i);
    forall j | 0 <= j < |t| - 1
      ensures t[j].current < t[j + 1].current && t[j].percent <= t[j + 1].percent
    {
      assert t[j] == BuildingStatus(total, cs[j], PercentOf(cs[j], total));
      assert t[j + 1] == BuildingStatus(total, cs[j + 1], PercentOf(cs[j + 1], total));
      PercentMonotone(cs[j], cs[j + 1], total);
    }
  }

  /**
   * The records a build publishes: every one but the last says `building`,
   * the last batch reaches `total`, and the last record says `ready` with
   * `current == total` and `percent == 100`.
   */
  lemma BuildTraceEnds(total: nat)
    ensures var t := BuildTrace(total);
      && |t| >= 2
      && (forall j :: 0 <= j < |t| - 1 ==> t[j].state == Building)
      && t[|t| - 2].current == total
      && t[|t| - 1] == ReadyStatus(total)
  {
    var t, mid := BuildTrace(total), TraceFrom(total, 0);
    TraceFromBounds(total, 0);
    forall j | 0 < j < |t| - 1
      ensures t[j] == mid[j - 1]
    {
    }
  }

  /**
   * The progress a build publishes: `current` never exceeds `total` and
   * `percent` stays within 0..100.
   */
  lemma BuildTraceBounded(total: nat)
    ensures var t := BuildTrace(total);
      forall j :: 0 <= j < |t| ==> 0 <= t[j].current <= total && 0 <= t[j].percent <= 100
  {
    var t, mid := BuildTrace(total), TraceFrom(total, 0);
    TraceFromBounds(total, 0);
    forall j | 0 < j < |t| - 1
      ensures t[j] == mid[j - 1]
    {
    }
  }

  /**
   * Until the final record, `current` strictly increases and `percent` never
   * decreases.
   */
  lemma BuildTraceProgress(total: nat)
    ensures var t := BuildTrace(total);
      forall j :: 0 <= j < |t| - 2 ==> t[j].current < t[j + 1].current && t[j].percent <= t[j + 1].percent
  {
    var t, mid := BuildTrace(total), TraceFrom(total, 0);
    TraceFromBounds(total, 0);
    TraceFromMonotone(total, 0);
    forall j | 0 <= j < |t| - 2
      ensures t[j].current < t[j + 1].current && t[j].percent <= t[j + 1].percent
    {
      assert t[j + 1] == mid[j];
      if j > 0 {
        assert t[j] == mid[j - 1];
      }
    }
  }

  /** The opening record, the batches' records, then the final one make up the whole trace. */
  lemma BuildTraceAfter(h: seq<Status>, total: nat)
    ensures h + [BuildingStatus(total, 0, 0)] + TraceFrom(total, 0) + [ReadyStatus(total)] == h + BuildTrace(total)
  {
  }

  /** With no chunks the loop never runs: one `building` record at 0/0, then `ready`. */
  lemma EmptyBuildTrace()
    ensures BuildTrace(0) == [BuildingStatus(0, 0, 0), ReadyStatus(0)]
  {
    assert TraceFrom(0, 0) == [];
  }

  /** Publishing the record of the batch at `i` moves it from the remaining trace to the history. */
  lemma PublishedStep(h: seq<Status>, total: nat, i: nat)
    requires i < total
    ensures var done := Min(i + BatchSize, total);
      h + [BuildingStatus(total, done, PercentOf(done, total))] + TraceFrom(total, i + BatchSize) == h + TraceFrom(total, i)
  {
    TraceFromStep(total, i);
    MoveHead(h, TraceFrom(total, i), TraceFrom(total, i + BatchSize));
  }

  lemma MoveHead<T>(h: seq<T>, all: seq<T>, rest: seq<T>)
    requires all != [] && all == [all[0]] + rest
    ensures h + [all[0]] + rest == h + all
  {
  }

  /** The first of the remaining batches, then the rest. */
  lemma TraceFromStep(total: nat, i: nat)
    requires i < total
    ensures TraceFrom(total, i)
      == [BuildingStatus(total, Min(i + BatchSize, total), PercentOf(Min(i + BatchSize, total), total))] + TraceFrom(total, i + BatchSize)
  {
    RecordsCons(total, Min(i + BatchSize, total), BatchCounts(total, i + BatchSize));
  }

  lemma RecordsCons(total: nat, c: nat, rest: seq<nat>)
    ensures BuildingRecords(total, [c] + rest) == [BuildingStatus(total, c, PercentOf(c, total))] + BuildingRecords(total, rest)
  {
    var t, r := BuildingRecords(total, [c] + rest), BuildingRecords(total, rest);
    forall j | 0 < j < |t|
      ensures t[j] == r[j - 1]
    {
      assert ([c] + rest)[j] == rest[j - 1];
    }
  }

  /**
   * Whether the progress loop adds every batch when `add_documents` raises on
   * the batch numbered `failAt` (counting from 0), or never raises (`None`).
   */
  predicate Completes(total: nat, failAt: Option<nat>)
  {
    failAt.None? || total <= failAt.value * BatchSize
  }

  /** The record the loop has published once the batches before `start` are added. */
  function LastBuilding(total: nat, start: nat): Status
  {
    if start == 0 then BuildingStatus(total, 0, 0)
    else BuildingStatus(total, Min(start, total), PercentOf(Min(start, total), total))
  }

  /**
   * The loop stopped before batch `k`, every batch before it added: it
   * completed exactly when batch `k` starts past the end.
   */
  lemma CompletesAt(total: nat, failAt: Option<nat>, k: nat)
    requires failAt.Some? ==> k <= failAt.value
    requires k * BatchSize < total ==> failAt == Some(k)
    ensures Completes(total, failAt) <==> total <= k * BatchSize
  {
    if failAt.Some? {
      MulLe(k, failAt.value, BatchSize);
    }
  }

  /** Once the loop has run past the end, the last record counts every chunk. */
  lemma LastBuildingAtEnd(total: nat, i: nat)
    requires total <= i && (total == 0 ==> i == 0)
    ensures LastBuilding(total, i) == BuildingStatus(total, total, if total == 0 then 0 else 100)
  {
    PercentBounds(total, total);
  }

  /**
   * A build cut short after the batches before `stop` has published a proper
   * prefix of the full trace, and every record it published says `building`.
   */
  lemma CutTraceIsPrefix(h: seq<Status>, published: seq<Status>, total: nat, stop: nat)
    requires published + TraceFrom(total, stop) == h + [BuildingStatus(total, 0, 0)] + TraceFrom(total, 0)
    ensures published < h + BuildTrace(total)
    ensures forall j :: |h| <= j < |published| ==> published[j].state == Building
  {
    var full := h + BuildTrace(total);
    BuildTraceAfter(h, total);
    assert full == published + (TraceFrom(total, stop) + [ReadyStatus(total)]);
    assert full[..|published|] == published;
    BuildTraceEnds(total);
    assert |published| < |full|;
    forall j | |h| <= j < |published|
      ensures published[j].state == Building
    {
      assert published[j] == full[j];
      assert full[j] == BuildTrace(total)[j - |h|];
    }
  }

  /** How `initialize_vectorstore` ended. */
  datatype VsResult = MissingApiKey | BadSavedFingerprint | Reused | Rebuilt | BuildFailed

  /** The persistent database directory, and the status record the build publishes progress to. */
  class VectorDb {
    /** Whether the vector store's own files exist in the directory. */
    var storeFiles: bool
    /** The documents the store holds. */
    var index: seq<Document>
    var fpFile: FpFile
    const status: StatusTracker

    constructor (storeFiles0: bool, index0: seq<Document>, fpFile0: FpFile, status0: StatusTracker)
      ensures storeFiles == storeFiles0 && index == index0 && fpFile == fpFile0 && status == status0
    {
      storeFiles, index, fpFile, status := storeFiles0, index0, fpFile0, status0;
    }

    /** `DB_DIR.exists() and any(DB_DIR.iterdir())`: the fingerprint file counts as content. */
    function DbExists(): bool
      reads this
    {
      storeFiles || !fpFile.NoFpFile?
    }

    /** `load_saved_fingerprint()`: the parsed file, or `None` if it is absent or unreadable. */
    function SavedFingerprint(): Option<Json>
      reads this
    {
      if fpFile.FpText? then Some(fpFile.value) else None
    }

    /**
     * The progress loop: publishes `building` at 0, adds the chunks 200 at a
     * time and publishes the count and percentage after each batch. When
     * `add_documents` raises on batch `failAt` the loop stops there, with the
     * earlier batches added and their records published.
     */
    method AddInBatches(chunks: seq<Document>, failAt: Option<nat>) returns (ok: bool)
      modifies this, status
      ensures ok == Completes(|chunks|, failAt)
      ensures storeFiles == old(storeFiles) && fpFile == old(fpFile)
      ensures ok ==>
        && index == old(index) + chunks
        && status.history == old(status.history) + [BuildingStatus(|chunks|, 0, 0)] + TraceFrom(|chunks|, 0)
        && status.Snapshot() == BuildingStatus(|chunks|, |chunks|, if |chunks| == 0 then 0 else 100)
      ensures !ok ==>
        var stop := failAt.value * BatchSize;
        && stop < |chunks|
        && index == old(index) + chunks[..stop]
        && status.history + TraceFrom(|chunks|, stop)
           == old(status.history) + [BuildingStatus(|chunks|, 0, 0)] + TraceFrom(|chunks|, 0)
        && status.Snapshot() == LastBuilding(|chunks|, stop)
    {
      var total := |chunks|;
      ghost var before := status.Snapshot();
      status.SetStatus(FullUpdate(BuildingStatus(total, 0, 0)));
      FullUpdateOverwrites(before, BuildingStatus(total, 0, 0));
      var batches := RunBatches(chunks, failAt);
      var i := batches * BatchSize;
      ok := i >= total;
      CompletesAt(total, failAt, batches);
      if ok {
        LastBuildingAtEnd(total, i);
        assert TraceFrom(total, i) == [];
        assert chunks[..total] == chunks;
      }
    }

    /**
     * The loop of AddInBatches, from the opening record on: adds the batches
     * in order until the chunks run out or one fails, and returns how many
     * were added.
     */
    method RunBatches(chunks: seq<Document>, failAt: Option<nat>) returns (batches: nat)
      requires status.Snapshot() == BuildingStatus(|chunks|, 0, 0)
      modifies this, status
      ensures failAt.Some? ==> batches <= failAt.value
      ensures batches * BatchSize < |chunks| ==> failAt == Some(batches)
      ensures |chunks| == 0 ==> batches == 0
      ensures storeFiles == old(storeFiles) && fpFile == old(fpFile)
      ensures index == old(index) + chunks[..Min(batches * BatchSize, |chunks|)]
      ensures status.history + TraceFrom(|chunks|, batches * BatchSize) == old(status.history) + TraceFrom(|chunks|, 0)
      ensures status.Snapshot() == LastBuilding(|chunks|, batches * BatchSize)
    {
      var total := |chunks|;
      var i := 0;
      batches := 0;
      while i < total && failAt != Some(batches)
        invariant i == batches * BatchSize
        invariant total == 0 ==> i == 0
        invariant failAt.Some? ==> batches <= failAt.value
        invariant index == old(index) + chunks[..Min(i, total)]
        invariant storeFiles == old(storeFiles) && fpFile == old(fpFile)
        invariant status.history + TraceFrom(total, i) == old(status.history) + TraceFrom(total, 0)
        invariant status.Snapshot() == LastBuilding(total, i)
      {
        AddBatch(chunks, i, old(index));
        i, batches := i + BatchSize, batches + 1;
      }
    }

    /** One round of the progress loop: the batch starting at `i`, then its progress record. */
    method AddBatch(chunks: seq<Document>, i: nat, ghost base: seq<Document>)
      requires i < |chunks| && index == base + chunks[..i]
      modifies this, status
      ensures index == base + chunks[..Min(i + BatchSize, |chunks|)]
      ensures storeFiles == old(storeFiles) && fpFile == old(fpFile)
      ensures status.history + TraceFrom(|chunks|, i + BatchSize) == old(status.history) + TraceFrom(|chunks|, i)
      ensures status.Snapshot() == LastBuilding(|chunks|, i + BatchSize)
    {
      var total := |chunks|;
      var batch := chunks[i..Min(i + BatchSize, total)];
      index := index + batch;
      PrefixGrows(chunks, i, Min(i + BatchSize, total));
      var done := i + |batch|;
      var percent := if total != 0 then done * 100 / total else 100;
      assert done == Min(i + BatchSize, total) && percent == PercentOf(done, total);
      ghost var h := status.history;
      ghost var before := status.Snapshot();
      status.SetStatus(FullUpdate(BuildingStatus(total, done, percent)));
      FullUpdateOverwrites(before, BuildingStatus(total, done, percent));
      PublishedStep(h, total, i);
    }

    /**
     * `initialize_vectorstore(chunks)`. Without an API key nothing happens.
     * Otherwise the fingerprint of the files found is compared with the saved
     * one: a match reuses the stored index and reports it ready; anything else
     * deletes the directory, indexes `chunks` in batches, saves the fingerprint
     * and reports `ready`. A saved value that is not an object makes the
     * comparison itself fail; a batch that fails to be added stops the build
     * before the fingerprint is saved.
     */
    method InitializeVectorstore(chunks: seq<Document>, found: seq<FileEntry>, digest: seq<FileItem> -> string,
                                 apiKey: Option<string>, failAt: Option<nat>)
      returns (r: VsResult)
      modifies this, status
      ensures r == MissingApiKey <==> apiKey.None? || apiKey.value == ""
      ensures r == MissingApiKey || r == BadSavedFingerprint ==> unchanged(this) && unchanged(status)
      ensures r != MissingApiKey ==>
        var d := Decide(old(DbExists()), old(SavedFingerprint()), FingerprintOf(found, digest).hash);
        && (r == BadSavedFingerprint <==> d == SavedNotObject)
        && (r == Reused <==> d == Reuse)
        && (r == Rebuilt || r == BuildFailed <==> d == Rebuild)
      ensures r == Rebuilt || r == BuildFailed ==> (r == Rebuilt <==> Completes(|chunks|, failAt))
      ensures r == Reused ==>
        && unchanged(this)
        && status.history == old(status.history) + [ReusedStatus]
        && status.Snapshot() == ReusedStatus
      ensures r == Rebuilt ==>
        && index == chunks
        && storeFiles
        && fpFile == FpText(SavedJson(FingerprintOf(found, digest)))
        && status.history == old(status.history) + BuildTrace(|chunks|)
        && status.Snapshot() == ReadyStatus(|chunks|)
      ensures r == Reused || r == Rebuilt ==>
        Decide(DbExists(), SavedFingerprint(), FingerprintOf(found, digest).hash) == Reuse
      ensures r == BuildFailed ==>
        && index == chunks[..failAt.value * BatchSize]
        && storeFiles
        && fpFile == NoFpFile
        && status.history < old(status.history) + BuildTrace(|chunks|)
        && (forall j :: |old(status.history)| <= j < |status.history| ==> status.history[j].state == Building)
        && status.Snapshot() == LastBuilding(|chunks|, failAt.value * BatchSize)
        && Decide(DbExists(), SavedFingerprint(), FingerprintOf(found, digest).hash) == Rebuild
    {
      if apiKey.None? || apiKey.value == "" {
        return MissingApiKey;
      }
      var current := ComputeDataFingerprint(found, digest);
      var saved := SavedFingerprint();
      var dbExists := DbExists();
      var d := Decide(dbExists, saved, current.hash);
      if d == SavedNotObject {
        return BadSavedFingerprint;
      }
      if d == Reuse {
        ghost var before := status.Snapshot();
        status.SetStatus(FullUpdate(ReusedStatus));
        FullUpdateOverwrites(before, ReusedStatus);
        return Reused;
      }
      var ok := RebuildIndex(chunks, current, failAt);
      if ok {
        SavedFingerprintReused(current);
        r := Rebuilt;
      } else {
        DecideFailsIff(DbExists(), SavedFingerprint(), current.hash);
        r := BuildFailed;
      }
    }

    /**
     * The rebuild branch of `initialize_vectorstore`: clear the directory,
     * index the chunks in batches, save the fingerprint, report `ready`. A
     * failing batch leaves the directory without a fingerprint file and the
     * record at the last batch's `building`.
     */
    method RebuildIndex(chunks: seq<Document>, current: DataFingerprint, failAt: Option<nat>) returns (ok: bool)
      modifies this, status
      ensures ok == Completes(|chunks|, failAt)
      ensures storeFiles
      ensures ok ==>
        && index == chunks
        && fpFile == FpText(SavedJson(current))
        && status.history == old(status.history) + BuildTrace(|chunks|)
        && status.Snapshot() == ReadyStatus(|chunks|)
      ensures !ok ==>
        var stop := failAt.value * BatchSize;
        && stop < |chunks|
        && index == chunks[..stop]
        && fpFile == NoFpFile
        && status.history < old(status.history) + BuildTrace(|chunks|)
        && (forall j :: |old(status.history)| <= j < |status.history| ==> status.history[j].state == Building)
        && status.Snapshot() == LastBuilding(|chunks|, stop)
    {
      if DbExists() {
        storeFiles, index, fpFile := false, [], NoFpFile;
      }
      storeFiles, index := true, [];
      ghost var h0 := status.history;
      ok := AddInBatches(chunks, failAt);
      if !ok {
        CutTraceIsPrefix(h0, status.history, |chunks|, failAt.value * BatchSize);
        return;
      }
      fpFile := FpText(SavedJson(current));
      ghost var before := status.Snapshot();
      status.SetStatus(FullUpdate(ReadyStatus(|chunks|)));
      FullUpdateOverwrites(before, ReadyStatus(|chunks|));
      BuildTraceAfter(h0, |chunks|);
    }

    /**
     * `initialize_rag()` on a process without a chain yet. `loadChunks` is what
     * `load_and_split_documents()` would return, `chainBuilt` whether
     * `setup_qa_chain` succeeds and `failAt` the batch `add_documents` raises
     * on, if any. The chunks are loaded only when the saved index cannot be
     * reused. Every failure ends in "no chain", and none of them moves the
     * status record to `error`.
     */
    method InitializeRag(found: seq<FileEntry>, digest: seq<FileItem> -> string, loadChunks: seq<Document>,
                         apiKey: Option<string>, chainBuilt: bool, failAt: Option<nat>)
      returns (ready: bool, chunks: seq<Document>)
      modifies this, status
      ensures var d := Decide(old(DbExists()), old(SavedFingerprint()), FingerprintOf(found, digest).hash);
        var key := apiKey.Some? && apiKey.value != "";
        var built := d == Rebuild && Completes(|loadChunks|, failAt);
        && chunks == (if d == Rebuild then loadChunks else [])
        && (ready <==> key && chainBuilt && (d == Reuse || built))
        && (d == SavedNotObject || !key ==> unchanged(this) && unchanged(status))
        && (d == Reuse && key ==>
              unchanged(this) && status.history == old(status.history) + [ReusedStatus]
              && status.Snapshot() == ReusedStatus)
        && (built && key ==>
              index == loadChunks && storeFiles && fpFile == FpText(SavedJson(FingerprintOf(found, digest)))
              && status.history == old(status.history) + BuildTrace(|loadChunks|)
              && status.Snapshot() == ReadyStatus(|loadChunks|))
        && ((d == Reuse || built) && key ==>
              Decide(DbExists(), SavedFingerprint(), FingerprintOf(found, digest).hash) == Reuse)
        && (d == Rebuild && !built && key ==>
              index == loadChunks[..failAt.value * BatchSize] && storeFiles && fpFile == NoFpFile
              && status.history < old(status.history) + BuildTrace(|loadChunks|)
              && (forall j :: |old(status.history)| <= j < |status.history| ==> status.history[j].state == Building)
              && status.Snapshot() == LastBuilding(|loadChunks|, failAt.value * BatchSize)
              && Decide(DbExists(), SavedFingerprint(), FingerprintOf(found, digest).hash) == Rebuild)
    {
      var current := ComputeDataFingerprint(found, digest);
      var saved := SavedFingerprint();
      var dbExists := DbExists();
      var d := Decide(dbExists, saved, current.hash);
      if d == SavedNotObject {
        return false, [];
      }
      chunks := if d == Reuse then [] else loadChunks;
      var r := InitializeVectorstore(chunks, found, digest, apiKey, failAt);
      ready := (r == Reused || r == Rebuilt) && chainBuilt;
    }
  }
}
