/**
 * Indexer: the database indexer. It classifies every LoRA file by its base
 * and category folders (with the WAN mode-folder shift), runs the block
 * analysis for Flux files, and upserts one row per file into the `lora`
 * table, replacing that file's rows in `lora_block_weights` when the
 * analysis produced weights. Files whose stored modification time matches
 * are skipped.
 */
module Indexer {
  import opened Text
  import Skeleton = CatalogSkeleton
  import opened BlockLayouts
  import opened WeightRows
  import opened Numeric

  // ---------------------------------------------------------------
  // Folder classification
  // ---------------------------------------------------------------

  const WanBaseFolders: set<string> := {"WAN2.1", "WAN2.2"}
  const WanModeFolders: set<string> := {"T2V", "I2V", "V2V", "T2I", "I2I", "IMG2VID", "IMAGE2VIDEO"}

  /**
   * A WAN base folder followed by a mode folder (compared stripped and
   * upper-cased) and at least two more parts: the category is then the
   * third part.
   */
  predicate HasModeFolder(parts: seq<string>)
  {
    |parts| >= 4 && parts[0] in WanBaseFolders && Upper(Strip(parts[1])) in WanModeFolders
  }

  /** `parse_base_and_category` of the indexer: as the catalog skeleton's, with the category folder shifted past a WAN mode folder. */
  function ParseBaseAndCategory(relPath: Option<string>, sep: char): (r: Skeleton.FolderInfo)
    ensures r.baseModelName.Some? <==> relPath.Some? && |Split(relPath.value, sep)| >= 3
    ensures r.baseModelName.None? ==> r == Skeleton.Unparsed
    ensures r.baseModelName.Some? ==> r.categoryName.Some?
  {
    if relPath.None? then Skeleton.Unparsed
    else
      var parts := Split(relPath.value, sep);
      if |parts| < 3 then Skeleton.Unparsed
      else
        var categoryIndex := if HasModeFolder(parts) then 2 else 1;
        Skeleton.Classified(Skeleton.BaseModelOf(parts[0]), Skeleton.CategoryOf(parts[categoryIndex]))
  }

  /** The parts of a path with its second part (the mode folder) removed. */
  function WithoutModeFolder(parts: seq<string>): (r: seq<string>)
    requires |parts| >= 2
    ensures |r| == |parts| - 1 && r[0] == parts[0] && r[1..] == parts[2..]
  {
    [parts[0]] + parts[2..]
  }

  /**
   * The indexer and the catalog skeleton classify alike, except that the
   * indexer reads a WAN path as if its mode folder were not there.
   */
  lemma AgreesWithSkeleton(relPath: Option<string>, sep: char)
    ensures (relPath.None? || !HasModeFolder(Split(relPath.value, sep))) ==>
            ParseBaseAndCategory(relPath, sep) == Skeleton.ParseBaseAndCategory(relPath, sep)
    ensures relPath.Some? && HasModeFolder(Split(relPath.value, sep)) ==>
            ParseBaseAndCategory(relPath, sep)
            == Skeleton.ParseBaseAndCategory(Some(Join(WithoutModeFolder(Split(relPath.value, sep)), sep)), sep)
  {
    if relPath.Some? && HasModeFolder(Split(relPath.value, sep)) {
      var parts := Split(relPath.value, sep);
      var q := WithoutModeFolder(parts);
      SplitPartsLackSeparator(relPath.value, sep);
      forall i | 0 <= i < |q| ensures Lacks(q[i], sep) {
        if i > 0 {
          assert q[i] == parts[i + 1];
        }
      }
      SplitOfJoin(q, sep);
      assert q[1] == parts[2];
    }
  }

  lemma {:induction false} AllPartsLack(prefix: seq<string>, rest: seq<string>, sep: char)
    requires forall i | 0 <= i < |prefix| :: Lacks(prefix[i], sep)
    requires forall i | 0 <= i < |rest| :: Lacks(rest[i], sep)
    ensures forall i | 0 <= i < |prefix + rest| :: Lacks((prefix + rest)[i], sep)
  {
    forall i | 0 <= i < |prefix + rest| ensures Lacks((prefix + rest)[i], sep) {
      if i >= |prefix| {
        assert (prefix + rest)[i] == rest[i - |prefix|];
      } else {
        assert (prefix + rest)[i] == prefix[i];
      }
    }
  }

  /** A path joined from separator-free parts is classified by its first part and its (possibly shifted) category part. */
  lemma ParseOfJoin(parts: seq<string>, sep: char)
    requires |parts| >= 3 && forall i | 0 <= i < |parts| :: Lacks(parts[i], sep)
    ensures ParseBaseAndCategory(Some(Join(parts, sep)), sep)
            == Skeleton.Classified(Skeleton.BaseModelOf(parts[0]),
                                   Skeleton.CategoryOf(parts[if HasModeFolder(parts) then 2 else 1]))
  {
    SplitOfJoin(parts, sep);
  }

  /** A WAN base folder, a mode folder, a category folder and at least one more part: the category is the third folder. */
  lemma ParseOfWanFolders(base: string, mode: string, category: string, rest: seq<string>, sep: char)
    requires base in WanBaseFolders && Upper(Strip(mode)) in WanModeFolders && |rest| >= 1
    requires Lacks(base, sep) && Lacks(mode, sep) && Lacks(category, sep)
    requires forall i | 0 <= i < |rest| :: Lacks(rest[i], sep)
    ensures ParseBaseAndCategory(Some(Join([base, mode, category] + rest, sep)), sep)
            == Skeleton.Classified(Skeleton.BaseModelOf(base), Skeleton.CategoryOf(category))
  {
    var parts := [base, mode, category] + rest;
    assert parts[0] == base && parts[1] == mode && parts[2] == category;
    assert HasModeFolder(parts);
    AllPartsLack([base, mode, category], rest, sep);
    SplitOfJoin(parts, sep);
    ParseOfModeParts(Join(parts, sep), parts, sep);
  }

  /** A path that splits into parts with a mode folder is classified by its first and third parts. */
  lemma ParseOfModeParts(path: string, parts: seq<string>, sep: char)
    requires Split(path, sep) == parts && HasModeFolder(parts)
    ensures ParseBaseAndCategory(Some(path), sep)
            == Skeleton.Classified(Skeleton.BaseModelOf(parts[0]), Skeleton.CategoryOf(parts[2]))
  {
  }

  /**
   * Without a recognised WAN mode folder (or with one followed only by the
   * file name) the category is the second folder.
   */
  lemma ParseOfPlainFolders(base: string, category: string, rest: seq<string>, sep: char)
    requires |rest| >= 1 && Lacks(base, sep) && Lacks(category, sep)
    requires forall i | 0 <= i < |rest| :: Lacks(rest[i], sep)
    requires base !in WanBaseFolders || Upper(Strip(category)) !in WanModeFolders || |rest| == 1
    ensures ParseBaseAndCategory(Some(Join([base, category] + rest, sep)), sep)
            == Skeleton.Classified(Skeleton.BaseModelOf(base), Skeleton.CategoryOf(category))
  {
    var parts := [base, category] + rest;
    assert parts[0] == base && parts[1] == category;
    assert !HasModeFolder(parts);
    AllPartsLack([base, category], rest, sep);
    ParseOfJoin(parts, sep);
  }

  // ---------------------------------------------------------------
  // Records and the per-file analysis
  // ---------------------------------------------------------------

  /** `LoraRecord` of the indexer. */
  datatype IndexRecord = IndexRecord(
    filePath: string,
    filename: string,
    info: Skeleton.FolderInfo,
    modelFamily: Option<string>,
    loraType: Option<string>,
    rank: Option<int>,
    hasBlockWeights: bool,
    blockLayout: Option<string>,
    lastModified: real)

  /** The keys of the analysis dictionary that the indexer reads. */
  datatype Analysis = Analysis(
    modelFamily: Option<string>,
    loraType: Option<string>,
    rank: Option<int>,
    blockWeights: Option<seq<real>>,
    rawBlockStrengths: Option<seq<real>>)

  /** What `inspect_lora` did for one file: a result, or an exception. */
  datatype AnalysisOutcome = Analysed(analysis: Analysis) | AnalysisFailed

  /** A discovered file: its normalised path, its path relative to the root (`None` where `relpath` fails), its mtime and the analysis outcome. */
  datatype FileEntry = FileEntry(path: string, relPath: Option<string>, mtime: real, outcome: AnalysisOutcome)

  /** Which counter a processed file advances besides `processed`. */
  datatype FileKind = FluxWithWeights | FluxFallback | NonFlux | AnalysisError

  datatype Classification = Classification(rec: IndexRecord, blockWeights: seq<real>, rawStrengths: seq<real>, kind: FileKind)

  predicate IsFluxCode(code: Option<string>)
  {
    code == Some("FLX") || code == Some("FLK")
  }

  /** `value or []` */
  function OrNoWeights(s: Option<seq<real>>): (r: seq<real>)
    ensures s.Some? ==> r == s.value
    ensures s.None? ==> r == []
  {
    if s.Some? then s.value else []
  }

  /** The record built before the analysis: classification, file name and mtime; no analysis fields. */
  function NewRecord(e: FileEntry, sep: char): (r: IndexRecord)
    ensures r.filePath == e.path && r.lastModified == e.mtime
    ensures Lacks(r.filename, sep) && EndsWith(e.path, r.filename)
    ensures r.info == ParseBaseAndCategory(e.relPath, sep)
    ensures r.modelFamily.None? && r.loraType.None? && r.rank.None? && !r.hasBlockWeights && r.blockLayout.None?
  {
    Skeleton.BasenameIsLastPart(e.path, sep);
    IndexRecord(e.path, Skeleton.Basename(e.path, sep), ParseBaseAndCategory(e.relPath, sep),
                None, None, None, false, None, e.mtime)
  }

  /**
   * The analysis step of the main loop: only Flux and Flux Krea files are
   * analysed; a non-empty weight list sets the flag and a layout built
   * from its length, an empty one the 16-block fallback layout; a failed
   * analysis leaves no weights and no layout.
   */
  function Classify(rec: IndexRecord, outcome: AnalysisOutcome): (c: Classification)
    ensures c.rec.filePath == rec.filePath && c.rec.filename == rec.filename
    ensures c.rec.info == rec.info && c.rec.lastModified == rec.lastModified
    ensures c.rec.hasBlockWeights <==> c.kind == FluxWithWeights
    ensures c.rec.hasBlockWeights <==> c.blockWeights != []
    ensures c.kind == FluxWithWeights ==> c.rec.blockLayout == MakeFluxLayout(c.rec.loraType, |c.blockWeights|)
    ensures c.kind == FluxFallback ==> c.rec.blockLayout == Some(FluxFallback16)
    ensures c.kind == NonFlux <==> !IsFluxCode(rec.info.baseModelCode)
    ensures c.kind == AnalysisError <==> IsFluxCode(rec.info.baseModelCode) && outcome.AnalysisFailed?
    ensures c.kind in {NonFlux, AnalysisError} ==> c.rec.blockLayout.None? && c.blockWeights == [] && c.rawStrengths == []
    ensures c.kind == NonFlux ==> c.rec.modelFamily.None? && c.rec.loraType.None? && c.rec.rank.None?
    ensures c.kind == AnalysisError ==>
              c.rec.modelFamily == rec.modelFamily && c.rec.loraType == rec.loraType && c.rec.rank == rec.rank
    ensures IsFluxCode(rec.info.baseModelCode) && outcome.Analysed? ==>
              c.rec.modelFamily == outcome.analysis.modelFamily && c.rec.loraType == outcome.analysis.loraType
              && c.rec.rank == outcome.analysis.rank
              && c.blockWeights == OrNoWeights(outcome.analysis.blockWeights)
              && c.rawStrengths == OrNoWeights(outcome.analysis.rawBlockStrengths)
  {
    if !IsFluxCode(rec.info.baseModelCode) then
      Classification(rec.(modelFamily := None, loraType := None, rank := None, hasBlockWeights := false, blockLayout := None),
                     [], [], NonFlux)
    else if outcome.AnalysisFailed? then
      Classification(rec.(hasBlockWeights := false, blockLayout := None), [], [], AnalysisError)
    else
      var a := outcome.analysis;
      var weights := OrNoWeights(a.blockWeights);
      var raw := OrNoWeights(a.rawBlockStrengths);
      var analysed := rec.(modelFamily := a.modelFamily, loraType := a.loraType, rank := a.rank);
      if weights != [] then
        Classification(analysed.(hasBlockWeights := true, blockLayout := MakeFluxLayout(a.loraType, |weights|)),
                       weights, raw, FluxWithWeights)
      else
        Classification(analysed.(hasBlockWeights := false, blockLayout := Some(FluxFallback16)), weights, raw, FluxFallback)
  }

  /**
   * Every layout the indexer stores is one the layout parser accepts, and
   * it expects as many blocks as were stored (16 for the fallback).
   */
  lemma StoredLayoutIsRecognised(rec: IndexRecord, outcome: AnalysisOutcome)
    ensures var c := Classify(rec, outcome);
            c.rec.blockLayout.Some? ==> NormalizeBlockLayout(c.rec.blockLayout) == c.rec.blockLayout
    ensures var c := Classify(rec, outcome);
            c.kind == FluxWithWeights && c.rec.blockLayout.Some? ==>
              ExpectedBlockCountForLayout(c.rec.blockLayout) == Some(|c.blockWeights|)
    ensures var c := Classify(rec, outcome);
            c.kind == FluxFallback ==> ExpectedBlockCountForLayout(c.rec.blockLayout) == Some(16)
  {
    var c := Classify(rec, outcome);
    if c.kind == FluxWithWeights && c.rec.blockLayout.Some? {
      MakeFluxLayoutRoundTrip(c.rec.loraType, |c.blockWeights|);
    }
  }

  // ---------------------------------------------------------------
  // The `lora` table
  // ---------------------------------------------------------------

  /** A row of the `lora` table. */
  datatype LoraRow = LoraRow(id: nat, rec: IndexRecord, createdAt: string, updatedAt: string)

  /** A row of `lora_block_weights`. */
  datatype StoredWeight = StoredWeight(loraId: nat, row: WeightRow)

  /** `get_existing_lora_row`: the position of the row whose `file_path` matches. */
  function FindRow(rows: seq<LoraRow>, path: string): (r: Option<nat>)
    ensures r.Some? ==> r.value < |rows| && rows[r.value].rec.filePath == path
    ensures r.None? ==> forall i | 0 <= i < |rows| :: rows[i].rec.filePath != path
  {
    if rows == [] then None
    else if rows[|rows| - 1].rec.filePath == path then Some(|rows| - 1)
    else FindRow(rows[..|rows| - 1], path)
  }

  /** `file_path` is UNIQUE, ids are distinct and AUTOINCREMENT never hands out an id above the last one. */
  predicate TableInvariant(rows: seq<LoraRow>, lastId: nat)
  {
    (forall i, j | 0 <= i < j < |rows| :: rows[i].rec.filePath != rows[j].rec.filePath)
    && (forall i, j | 0 <= i < j < |rows| :: rows[i].id != rows[j].id)
    && (forall i | 0 <= i < |rows| :: 1 <= rows[i].id <= lastId)
  }

  datatype Upserted = Upserted(rows: seq<LoraRow>, lastId: nat, id: nat)

  /**
   * `upsert_lora`: a new path is inserted with a fresh id and both
   * timestamps set to `now`; an existing row keeps its id, its path and
   * its `created_at`, and takes every other field from the record.
   */
  function UpsertRows(rows: seq<LoraRow>, lastId: nat, rec: IndexRecord, now: string): (u: Upserted)
    ensures FindRow(rows, rec.filePath).None? ==> u.id == lastId + 1 && u.lastId == u.id
    ensures FindRow(rows, rec.filePath).Some? ==> u.id == rows[FindRow(rows, rec.filePath).value].id && u.lastId == lastId
    ensures |u.rows| >= |rows|
  {
    match FindRow(rows, rec.filePath)
    case None => Upserted(rows + [LoraRow(lastId + 1, rec, now, now)], lastId + 1, lastId + 1)
    case Some(k) => Upserted(rows[k := LoraRow(rows[k].id, rec, rows[k].createdAt, now)], lastId, rows[k].id)
  }

  lemma {:induction false} FindRowAppend(rows: seq<LoraRow>, row: LoraRow, path: string)
    ensures FindRow(rows + [row], path) == if row.rec.filePath == path then Some(|rows|) else FindRow(rows, path)
  {
    assert (rows + [row])[..|rows|] == rows;
  }

  lemma {:induction false} FindRowUpdate(rows: seq<LoraRow>, k: nat, row: LoraRow, path: string)
    requires k < |rows| && row.rec.filePath == rows[k].rec.filePath
    ensures FindRow(rows[k := row], path) == FindRow(rows, path)
    decreases |rows|
  {
    var n := |rows|;
    var upd := rows[k := row];
    if k < n - 1 {
      assert upd[n - 1] == rows[n - 1];
      var shorter := rows[..n - 1][k := row];
      assert |upd[..n - 1]| == |shorter|;
      assert forall j | 0 <= j < n - 1 :: upd[..n - 1][j] == shorter[j];
      assert upd[..n - 1] == shorter;
      FindRowUpdate(rows[..n - 1], k, row, path);
    } else {
      assert upd[n - 1].rec.filePath == rows[n - 1].rec.filePath;
      assert upd[..n - 1] == rows[..n - 1];
    }
  }

  /** After an upsert the row for the record's path holds the record, under the returned id, stamped `now`. */
  lemma UpsertStoresRecord(rows: seq<LoraRow>, lastId: nat, rec: IndexRecord, now: string)
    ensures var u := UpsertRows(rows, lastId, rec, now);
            FindRow(u.rows, rec.filePath).Some?
            && u.rows[FindRow(u.rows, rec.filePath).value].rec == rec
            && u.rows[FindRow(u.rows, rec.filePath).value].id == u.id
            && u.rows[FindRow(u.rows, rec.filePath).value].updatedAt == now
  {
    match FindRow(rows, rec.filePath)
    case None =>
      FindRowAppend(rows, LoraRow(lastId + 1, rec, now, now), rec.filePath);
    case Some(k) =>
      FindRowUpdate(rows, k, LoraRow(rows[k].id, rec, rows[k].createdAt, now), rec.filePath);
  }

  /** An upsert leaves the row of every other path where and as it was. */
  lemma UpsertKeepsOtherRows(rows: seq<LoraRow>, lastId: nat, rec: IndexRecord, now: string, path: string)
    requires path != rec.filePath
    ensures var u := UpsertRows(rows, lastId, rec, now);
            FindRow(u.rows, path) == FindRow(rows, path)
            && (FindRow(rows, path).Some? ==> u.rows[FindRow(rows, path).value] == rows[FindRow(rows, path).value])
  {
    match FindRow(rows, rec.filePath)
    case None =>
      FindRowAppend(rows, LoraRow(lastId + 1, rec, now, now), path);
    case Some(k) =>
      FindRowUpdate(rows, k, LoraRow(rows[k].id, rec, rows[k].createdAt, now), path);
  }

  /** An update keeps the row's id and creation time. */
  lemma UpsertKeepsIdentity(rows: seq<LoraRow>, lastId: nat, rec: IndexRecord, now: string)
    requires FindRow(rows, rec.filePath).Some?
    ensures var k := FindRow(rows, rec.filePath).value;
            var u := UpsertRows(rows, lastId, rec, now);
            |u.rows| == |rows| && u.rows[k].id == rows[k].id && u.rows[k].createdAt == rows[k].createdAt
  {
  }

  /** Upserting keeps paths unique and ids distinct and allocated. */
  lemma UpsertKeepsInvariant(rows: seq<LoraRow>, lastId: nat, rec: IndexRecord, now: string)
    requires TableInvariant(rows, lastId)
    ensures var u := UpsertRows(rows, lastId, rec, now); TableInvariant(u.rows, u.lastId)
    ensures UpsertRows(rows, lastId, rec, now).id >= 1
  {
    var u := UpsertRows(rows, lastId, rec, now);
    match FindRow(rows, rec.filePath)
    case None =>
      assert forall i | 0 <= i < |rows| :: u.rows[i] == rows[i];
    case Some(k) =>
      assert forall i | 0 <= i < |rows| && i != k :: u.rows[i] == rows[i];
  }

  /** Upserting the same record twice leaves the table as one upsert did. */
  lemma UpsertIdempotent(rows: seq<LoraRow>, lastId: nat, rec: IndexRecord, now: string)
    ensures var u := UpsertRows(rows, lastId, rec, now);
            UpsertRows(u.rows, u.lastId, rec, now) == u
  {
    var u := UpsertRows(rows, lastId, rec, now);
    UpsertStoresRecord(rows, lastId, rec, now);
    var k := FindRow(u.rows, rec.filePath).value;
    match FindRow(rows, rec.filePath)
    case None =>
      assert u.rows[k := LoraRow(u.rows[k].id, rec, u.rows[k].createdAt, now)] == u.rows;
    case Some(j) =>
      FindRowUpdate(rows, j, LoraRow(rows[j].id, rec, rows[j].createdAt, now), rec.filePath);
      assert u.rows[k := LoraRow(u.rows[k].id, rec, u.rows[k].createdAt, now)] == u.rows;
  }

  // ---------------------------------------------------------------
  // The `lora_block_weights` table
  // ---------------------------------------------------------------

  /** `DELETE FROM lora_block_weights WHERE lora_id = ?` */
  function WithoutLora(ws: seq<StoredWeight>, loraId: nat): (r: seq<StoredWeight>)
    ensures forall w :: w in r <==> w in ws && w.loraId != loraId
    ensures |r| <= |ws|
  {
    if ws == [] then []
    else
      var w := ws[|ws| - 1];
      var kept := WithoutLora(ws[..|ws| - 1], loraId);
      assert ws == ws[..|ws| - 1] + [w];
      if w.loraId == loraId then kept else kept + [w]
  }

  /** The inserted rows, each tagged with the LoRA's id. */
  function Tagged(loraId: nat, rows: seq<WeightRow>): (r: seq<StoredWeight>)
    ensures |r| == |rows|
  {
    seq(|rows|, i requires 0 <= i < |rows| => StoredWeight(loraId, rows[i]))
  }

  /** The weight rows stored for one LoRA, in table order. */
  function WeightsOf(ws: seq<StoredWeight>, loraId: nat): (r: seq<WeightRow>)
    ensures |r| <= |ws|
  {
    if ws == [] then []
    else
      var w := ws[|ws| - 1];
      var before := WeightsOf(ws[..|ws| - 1], loraId);
      if w.loraId == loraId then before + [w.row] else before
  }

  lemma {:induction false} WeightsOfConcat(a: seq<StoredWeight>, b: seq<StoredWeight>, loraId: nat)
    ensures WeightsOf(a + b, loraId) == WeightsOf(a, loraId) + WeightsOf(b, loraId)
    decreases |b|
  {
    if b == [] {
      assert a + b == a;
    } else {
      var n := |b|;
      assert (a + b)[..|a + b| - 1] == a + b[..n - 1];
      WeightsOfConcat(a, b[..n - 1], loraId);
    }
  }

  lemma {:induction false} WeightsOfWithout(ws: seq<StoredWeight>, loraId: nat, other: nat)
    ensures WeightsOf(WithoutLora(ws, loraId), other) == if other == loraId then [] else WeightsOf(ws, other)
    decreases |ws|
  {
    if ws != [] {
      var w := ws[|ws| - 1];
      WeightsOfWithout(ws[..|ws| - 1], loraId, other);
      if w.loraId != loraId {
        var kept := WithoutLora(ws[..|ws| - 1], loraId);
        WeightsOfConcat(kept, [w], other);
        assert [w][..0] == [];
      }
    }
  }

  lemma {:induction false} WeightsOfTagged(loraId: nat, rows: seq<WeightRow>, other: nat)
    ensures WeightsOf(Tagged(loraId, rows), other) == if other == loraId then rows else []
    decreases |rows|
  {
    if rows != [] {
      var n := |rows|;
      assert Tagged(loraId, rows)[..n - 1] == Tagged(loraId, rows[..n - 1]);
      WeightsOfTagged(loraId, rows[..n - 1], other);
      assert rows[..n - 1] + [rows[n - 1]] == rows;
    }
  }

  /**
   * `replace_block_weights`: afterwards the LoRA has exactly the new rows,
   * and every other LoRA keeps the rows it had.
   */
  lemma ReplaceLeavesExactlyNewRows(ws: seq<StoredWeight>, loraId: nat, rows: seq<WeightRow>, other: nat)
    ensures WeightsOf(WithoutLora(ws, loraId) + Tagged(loraId, rows), other)
            == if other == loraId then rows else WeightsOf(ws, other)
  {
    WeightsOfConcat(WithoutLora(ws, loraId), Tagged(loraId, rows), other);
    WeightsOfWithout(ws, loraId, other);
    WeightsOfTagged(loraId, rows, other);
  }

  // ---------------------------------------------------------------
  // The main loop
  // ---------------------------------------------------------------

  /** The `abs(last_mod - mtime) < 1e-6` tolerance. */
  const Tolerance: real := 0.000001

  /** A file whose stored row carries (within the tolerance) its modification time. */
  predicate UpToDate(rows: seq<LoraRow>, e: FileEntry)
  {
    FindRow(rows, e.path).Some? && Abs(rows[FindRow(rows, e.path).value].rec.lastModified - e.mtime) < Tolerance
  }

  datatype Db = Db(rows: seq<LoraRow>, weights: seq<StoredWeight>, lastId: nat)

  datatype IndexStats = IndexStats(processed: nat, skippedUnchanged: nat, errors: nat, fluxWithWeights: nat, fluxSdxlStyle: nat)

  datatype IndexState = IndexState(db: Db, stats: IndexStats)

  const NoStats := IndexStats(0, 0, 0, 0, 0)

  function Count(stats: IndexStats, kind: FileKind): (r: IndexStats)
    ensures r.processed == stats.processed + 1 && r.skippedUnchanged == stats.skippedUnchanged
    ensures r.errors + r.fluxWithWeights + r.fluxSdxlStyle <= stats.errors + stats.fluxWithWeights + stats.fluxSdxlStyle + 1
    ensures r.errors >= stats.errors && r.fluxWithWeights >= stats.fluxWithWeights && r.fluxSdxlStyle >= stats.fluxSdxlStyle
  {
    match kind
    case FluxWithWeights => stats.(processed := stats.processed + 1, fluxWithWeights := stats.fluxWithWeights + 1)
    case FluxFallback => stats.(processed := stats.processed + 1, fluxSdxlStyle := stats.fluxSdxlStyle + 1)
    case NonFlux => stats.(processed := stats.processed + 1)
    case AnalysisError => stats.(processed := stats.processed + 1, errors := stats.errors + 1)
  }

  /** The weight table after one processed file: replaced only when the record has weights. */
  function StoreWeights(ws: seq<StoredWeight>, loraId: nat, c: Classification): seq<StoredWeight>
  {
    if c.rec.hasBlockWeights && c.blockWeights != [] then
      WithoutLora(ws, loraId) + Tagged(loraId, ZippedRows(c.blockWeights, c.rawStrengths))
    else ws
  }

  /** One iteration of the main loop. */
  function Step(s: IndexState, e: FileEntry, sep: char, now: string): IndexState
  {
    if UpToDate(s.db.rows, e) then
      s.(stats := s.stats.(skippedUnchanged := s.stats.skippedUnchanged + 1))
    else
      var c := Classify(NewRecord(e, sep), e.outcome);
      var u := UpsertRows(s.db.rows, s.db.lastId, c.rec, now);
      IndexState(Db(u.rows, StoreWeights(s.db.weights, u.id, c), u.lastId), Count(s.stats, c.kind))
  }

  /** The main loop over the files, in order. */
  function IndexAll(s: IndexState, files: seq<FileEntry>, sep: char, now: string): IndexState
    decreases |files|
  {
    if files == [] then s
    else Step(IndexAll(s, files[..|files| - 1], sep, now), files[|files| - 1], sep, now)
  }

  lemma StepKeepsInvariant(s: IndexState, e: FileEntry, sep: char, now: string)
    requires TableInvariant(s.db.rows, s.db.lastId)
    ensures var t := Step(s, e, sep, now); TableInvariant(t.db.rows, t.db.lastId)
  {
    if !UpToDate(s.db.rows, e) {
      UpsertKeepsInvariant(s.db.rows, s.db.lastId, Classify(NewRecord(e, sep), e.outcome).rec, now);
    }
  }

  /** The loop keeps every path unique and every id distinct. */
  lemma {:induction false} IndexAllKeepsInvariant(s: IndexState, files: seq<FileEntry>, sep: char, now: string)
    requires TableInvariant(s.db.rows, s.db.lastId)
    ensures var t := IndexAll(s, files, sep, now); TableInvariant(t.db.rows, t.db.lastId)
    decreases |files|
  {
    if files != [] {
      IndexAllKeepsInvariant(s, files[..|files| - 1], sep, now);
      StepKeepsInvariant(IndexAll(s, files[..|files| - 1], sep, now), files[|files| - 1], sep, now);
    }
  }

  /** Every file is either processed or skipped as unchanged, and each processed file advances at most one of the other counters. */
  lemma {:induction false} IndexAllCounts(files: seq<FileEntry>, db: Db, sep: char, now: string)
    ensures var t := IndexAll(IndexState(db, NoStats), files, sep, now);
            t.stats.processed + t.stats.skippedUnchanged == |files|
            && t.stats.errors + t.stats.fluxWithWeights + t.stats.fluxSdxlStyle <= t.stats.processed
    decreases |files|
  {
    if files != [] {
      IndexAllCounts(files[..|files| - 1], db, sep, now);
    }
  }

  /** After one iteration the file is up to date. */
  lemma StepUpdatesItsFile(s: IndexState, e: FileEntry, sep: char, now: string)
    ensures UpToDate(Step(s, e, sep, now).db.rows, e)
  {
    if !UpToDate(s.db.rows, e) {
      UpsertStoresRecord(s.db.rows, s.db.lastId, Classify(NewRecord(e, sep), e.outcome).rec, now);
    }
  }

  /** One iteration leaves the row of every other path where and as it was. */
  lemma StepKeepsOtherRows(s: IndexState, e: FileEntry, sep: char, now: string, path: string)
    requires path != e.path
    ensures FindRow(Step(s, e, sep, now).db.rows, path) == FindRow(s.db.rows, path)
    ensures FindRow(s.db.rows, path).Some? ==>
              Step(s, e, sep, now).db.rows[FindRow(s.db.rows, path).value] == s.db.rows[FindRow(s.db.rows, path).value]
  {
    if !UpToDate(s.db.rows, e) {
      UpsertKeepsOtherRows(s.db.rows, s.db.lastId, Classify(NewRecord(e, sep), e.outcome).rec, now, path);
    }
  }

  lemma StepKeepsOtherFile(s: IndexState, e: FileEntry, sep: char, now: string, f: FileEntry)
    requires f.path != e.path && UpToDate(s.db.rows, f)
    ensures UpToDate(Step(s, e, sep, now).db.rows, f)
  {
    StepKeepsOtherRows(s, e, sep, now, f.path);
  }

  /** No later file has the same path. */
  predicate LastWithPath(files: seq<FileEntry>, i: nat)
    requires i < |files|
  {
    forall j | i < j < |files| :: files[j].path != files[i].path
  }

  /** One iteration keeps the files seen so far up to date and adds its own. */
  lemma StepKeepsLastUpToDate(mid: IndexState, init: seq<FileEntry>, e: FileEntry, sep: char, now: string)
    requires forall i | 0 <= i < |init| && LastWithPath(init, i) :: UpToDate(mid.db.rows, init[i])
    ensures forall i | 0 <= i < |init + [e]| && LastWithPath(init + [e], i) :: UpToDate(Step(mid, e, sep, now).db.rows, (init + [e])[i])
  {
    var files := init + [e];
    forall i | 0 <= i < |files| && LastWithPath(files, i)
      ensures UpToDate(Step(mid, e, sep, now).db.rows, files[i])
    {
      if i < |init| {
        assert files[i] == init[i] && files[|init|] == e;
        assert files[i].path != e.path;
        assert forall j | i < j < |init| :: init[j] == files[j];
        assert LastWithPath(init, i);
        assert UpToDate(mid.db.rows, init[i]);
        StepKeepsOtherFile(mid, e, sep, now, files[i]);
      } else {
        StepUpdatesItsFile(mid, e, sep, now);
      }
    }
  }

  /**
   * After the loop every file has a row whose stored modification time is
   * its own (for a path met twice, the later file's).
   */
  lemma {:induction false} IndexAllLeavesFilesUpToDate(s: IndexState, files: seq<FileEntry>, sep: char, now: string)
    ensures forall i | 0 <= i < |files| && LastWithPath(files, i) :: UpToDate(IndexAll(s, files, sep, now).db.rows, files[i])
    decreases |files|
  {
    if files != [] {
      var n := |files|;
      var init := files[..n - 1];
      IndexAllLeavesFilesUpToDate(s, init, sep, now);
      StepKeepsLastUpToDate(IndexAll(s, init, sep, now), init, files[n - 1], sep, now);
      assert init + [files[n - 1]] == files;
    }
  }

  /** The loop never removes a row: every path indexed before is indexed after. */
  lemma {:induction false} IndexAllKeepsPaths(s: IndexState, files: seq<FileEntry>, sep: char, now: string, path: string)
    requires FindRow(s.db.rows, path).Some?
    ensures FindRow(IndexAll(s, files, sep, now).db.rows, path).Some?
    decreases |files|
  {
    if files != [] {
      var mid := IndexAll(s, files[..|files| - 1], sep, now);
      IndexAllKeepsPaths(s, files[..|files| - 1], sep, now, path);
      if path == files[|files| - 1].path {
        StepUpdatesItsFile(mid, files[|files| - 1], sep, now);
      } else {
        StepKeepsOtherRows(mid, files[|files| - 1], sep, now, path);
      }
    }
  }

  /** Files that are all up to date are all skipped, and the tables do not change. */
  lemma {:induction false} UnchangedFilesAreSkipped(s: IndexState, files: seq<FileEntry>, sep: char, now: string)
    requires forall i | 0 <= i < |files| :: UpToDate(s.db.rows, files[i])
    ensures var t := IndexAll(s, files, sep, now);
            t.db == s.db && t.stats == s.stats.(skippedUnchanged := s.stats.skippedUnchanged + |files|)
    decreases |files|
  {
    if files != [] {
      UnchangedFilesAreSkipped(s, files[..|files| - 1], sep, now);
    }
  }

  /** A second run over the same files (all paths distinct) skips every file and changes nothing. */
  lemma SecondRunSkipsEverything(s: IndexState, files: seq<FileEntry>, sep: char, now: string, later: string)
    requires forall i, j | 0 <= i < j < |files| :: files[i].path != files[j].path
    ensures var t := IndexAll(s, files, sep, now);
            var t2 := IndexAll(IndexState(t.db, NoStats), files, sep, later);
            t2.db == t.db && t2.stats.skippedUnchanged == |files| && t2.stats.processed == 0
  {
    var t := IndexAll(s, files, sep, now);
    IndexAllLeavesFilesUpToDate(s, files, sep, now);
    forall i | 0 <= i < |files| ensures UpToDate(t.db.rows, files[i]) {
      assert LastWithPath(files, i);
    }
    UnchangedFilesAreSkipped(IndexState(t.db, NoStats), files, sep, later);
  }

  // ---------------------------------------------------------------
  // The database, as state
  // ---------------------------------------------------------------

  /** The `lora` and `lora_block_weights` tables of the open connection. */
  class LoraTable {
    var rows: seq<LoraRow>
    var weights: seq<StoredWeight>
    var lastId: nat

    ghost predicate Valid()
      reads this
    {
      TableInvariant(rows, lastId)
    }

    function State(): Db
      reads this
    {
      Db(rows, weights, lastId)
    }

    /** `ensure_db` on a fresh database: both tables empty. */
    constructor ()
      ensures Valid() && rows == [] && weights == [] && lastId == 0
    {
      rows := [];
      weights := [];
      lastId := 0;
    }

    /** `upsert_lora` */
    method Upsert(rec: IndexRecord, now: string) returns (id: nat)
      requires Valid()
      modifies this
      ensures Valid()
      ensures var u := UpsertRows(old(rows), old(lastId), rec, now);
              rows == u.rows && lastId == u.lastId && id == u.id
      ensures weights == old(weights)
    {
      UpsertKeepsInvariant(rows, lastId, rec, now);
      var existing := FindRow(rows, rec.filePath);
      if existing.None? {
        lastId := lastId + 1;
        rows := rows + [LoraRow(lastId, rec, now, now)];
        id := lastId;
      } else {
        var k := existing.value;
        id := rows[k].id;
        rows := rows[k := LoraRow(id, rec, rows[k].createdAt, now)];
      }
    }

    /** `replace_block_weights`: delete the LoRA's rows, then insert one row per zipped position. */
    method ReplaceBlockWeights(loraId: nat, blockWeights: seq<real>, rawStrengths: seq<real>)
      modifies this
      ensures weights == WithoutLora(old(weights), loraId) + Tagged(loraId, ZippedRows(blockWeights, rawStrengths))
      ensures rows == old(rows) && lastId == old(lastId)
    {
      weights := WithoutLora(weights, loraId);
      var inserted := ZipWeightRows(blockWeights, rawStrengths);
      weights := weights + Tagged(loraId, inserted);
    }

    /** One iteration of the main loop: skip an unchanged file, otherwise upsert it and store its weights. */
    method IndexFile(e: FileEntry, sep: char, now: string, stats: IndexStats) returns (next: IndexStats)
      requires Valid()
      modifies this
      ensures Valid()
      ensures IndexState(State(), next) == Step(IndexState(old(State()), stats), e, sep, now)
    {
      StepKeepsInvariant(IndexState(State(), stats), e, sep, now);
      var existing := FindRow(rows, e.path);
      if existing.Some? && Abs(rows[existing.value].rec.lastModified - e.mtime) < Tolerance {
        next := stats.(skippedUnchanged := stats.skippedUnchanged + 1);
      } else {
        next := ProcessFile(e, sep, now, stats);
      }
    }

    /** A new or changed file: classify it, upsert its row and, when the analysis gave weights, replace them. */
    method ProcessFile(e: FileEntry, sep: char, now: string, stats: IndexStats) returns (next: IndexStats)
      requires Valid() && !UpToDate(rows, e)
      modifies this
      ensures Valid()
      ensures IndexState(State(), next) == Step(IndexState(old(State()), stats), e, sep, now)
    {
      StepKeepsInvariant(IndexState(State(), stats), e, sep, now);
      var c := Classify(NewRecord(e, sep), e.outcome);
      var loraId := Upsert(c.rec, now);
      if c.rec.hasBlockWeights && c.blockWeights != [] {
        ReplaceBlockWeights(loraId, c.blockWeights, c.rawStrengths);
      }
      next := Count(stats, c.kind);
    }

    /** The main loop of the indexer over the discovered files, in order. */
    method IndexFiles(files: seq<FileEntry>, sep: char, now: string) returns (stats: IndexStats)
      requires Valid()
      modifies this
      ensures Valid()
      ensures IndexState(State(), stats) == IndexAll(IndexState(old(State()), NoStats), files, sep, now)
    {
      ghost var start := IndexState(State(), NoStats);
      stats := NoStats;
      var idx := 0;
      while idx < |files|
        invariant 0 <= idx <= |files|
        invariant Valid()
        invariant IndexState(State(), stats) == IndexAll(start, files[..idx], sep, now)
      {
        assert files[..idx + 1][..idx] == files[..idx];
        stats := IndexFile(files[idx], sep, now, stats);
        idx := idx + 1;
      }
      assert files[..idx] == files;
    }
  }
}
