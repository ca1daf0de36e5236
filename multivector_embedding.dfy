/**
 * The ingestion prototype (`multivector_embedding.py`): which folder holds a caption
 * file's records, the eight-channel sensor vector read from a record, the text that is
 * embedded, and the loop that buffers rows in six parallel columns and inserts them in
 * batches of fifty. Reading files, the embedding model and `float()` on text are
 * oracles; the vector database is the log of inserted batches.
 */
module MultivectorEmbedding {
  import opened Wrappers
  import opened Text
  import MilvusService

  /** The stored vector's channels, in storage order. */
  const SensorFields: seq<string> :=
    ["AirTemperature", "AirHumidity", "Co2", "Quantum", "HighSoilTemp", "HighSoilHumi", "LowSoilTemp", "LowSoilHumi"]

  /** Rows per insert call. */
  const BatchSize: nat := 50

  const BostonFernFolder: string := "VL_A.화초_3.습생식물_08.보스턴고사리"
  const SpathiphyllumFolder: string := "VL_A.화초_2.중생식물_07.스파티필럼"

  /** The ingested channel order is the order the Java service reads the channels in. */
  lemma SameChannelOrder()
    ensures SensorFields == MilvusService.SensorKeys
    ensures |SensorFields| == 8
  {
  }

  // ---------------------------------------------------------------- folders

  /** `folder_for_caption`: the record folder for a caption file name, checked Boston fern first. */
  function FolderForCaption(name: string): (r: Option<string>)
    ensures r.None? <==> !Contains(name, "보스턴고사리") && !Contains(name, "스파티필럼")
    ensures Contains(name, "보스턴고사리") ==> r == Some(BostonFernFolder)
    ensures !Contains(name, "보스턴고사리") && Contains(name, "스파티필럼") ==> r == Some(SpathiphyllumFolder)
  {
    if Contains(name, "보스턴고사리") then Some(BostonFernFolder)
    else if Contains(name, "스파티필럼") then Some(SpathiphyllumFolder)
    else None
  }

  /** The Boston fern caption file maps to the Boston fern folder. */
  lemma BostonCaptionFileMapped()
    ensures FolderForCaption("전체보스턴고사리_캡션.json") == Some(BostonFernFolder)
  {
    var boston := "전체보스턴고사리_캡션.json";
    assert boston[2..2 + |"보스턴고사리"|] == "보스턴고사리";
    ContainsAt(boston, "보스턴고사리", 2);
  }

  /** The Spathiphyllum caption file maps to the Spathiphyllum folder. */
  lemma SpathiphyllumCaptionFileMapped()
    ensures FolderForCaption("전체스파티필럼_캡션2.json") == Some(SpathiphyllumFolder)
  {
    var spathi := "전체스파티필럼_캡션2.json";
    assert spathi[2..2 + |"스파티필럼"|] == "스파티필럼";
    ContainsAt(spathi, "스파티필럼", 2);
    assert "보스턴고사리"[0] !in spathi;
    AbsentChar(spathi, "보스턴고사리", 0);
  }

  // ---------------------------------------------------------------- sensor vector

  /** A decoded JSON value. */
  datatype JsonValue =
    | JNumber(number: real)
    | JBool(truth: bool)
    | JText(text: string)
    | JNull
    | JArray(elements: seq<JsonValue>)
    | JObject(members: map<string, JsonValue>)

  /** Python's `float()` on a string: `None` when it raises `ValueError`. */
  type FloatParser = string -> Option<real>

  datatype IngestFault =
    | SensorNotObject  // the `sensor` entry is not an object, so it has no `get`
    | NotConvertible   // `float()` raises `TypeError` on null, arrays and objects

  /** `float(v)`: a number is itself, a boolean 1 or 0, text is parsed and 0 when it does not parse. */
  function ChannelValue(v: JsonValue, parse: FloatParser): (r: Result<real, IngestFault>)
    ensures r.Failure? <==> v.JNull? || v.JArray? || v.JObject?
    ensures r.Failure? ==> r.error == NotConvertible
  {
    match v
    case JNumber(x) => Success(x)
    case JBool(b) => Success(if b then 1.0 else 0.0)
    case JText(t) => Success(parse(t).GetOr(0.0))
    case _ => Failure(NotConvertible)
  }

  /** The `sensor` object of a record, empty when the record has none. */
  function SensorEntry(data: map<string, JsonValue>): JsonValue {
    if "sensor" in data then data["sensor"] else JObject(map[])
  }

  /** A channel's value: a missing key reads as 0. */
  function FieldValue(sensor: map<string, JsonValue>, key: string, parse: FloatParser): Result<real, IngestFault> {
    ChannelValue(if key in sensor then sensor[key] else JNumber(0.0), parse)
  }

  /** The values of the first `n` channels. */
  function Channels(sensor: map<string, JsonValue>, n: nat, parse: FloatParser): (r: Result<seq<real>, IngestFault>)
    requires n <= |SensorFields|
    ensures r.Success? ==> |r.value| == n
    ensures r.Failure? ==> r.error == NotConvertible
    ensures r.Success? <==> forall i :: 0 <= i < n ==> FieldValue(sensor, SensorFields[i], parse).Success?
    ensures r.Success? ==> forall i :: 0 <= i < n ==> r.value[i] == FieldValue(sensor, SensorFields[i], parse).value
  {
    if n == 0 then Success([])
    else
      match Channels(sensor, n - 1, parse)
      case Failure(e) => Failure(e)
      case Success(prefix) =>
        match FieldValue(sensor, SensorFields[n - 1], parse)
        case Failure(e) => Failure(e)
        case Success(x) => Success(prefix + [x])
  }

  /** What `extract_sensor_vector` returns for an already decoded record. */
  function SensorVectorOf(data: map<string, JsonValue>, parse: FloatParser): Result<seq<real>, IngestFault> {
    match SensorEntry(data)
    case JObject(sensor) => Channels(sensor, |SensorFields|, parse)
    case _ => Failure(SensorNotObject)
  }

  /** `extract_sensor_vector`: one value per channel, appended in channel order. */
  method ExtractSensorVector(data: map<string, JsonValue>, parse: FloatParser) returns (r: Result<seq<real>, IngestFault>)
    ensures r == SensorVectorOf(data, parse)
  {
    var entry := if "sensor" in data then data["sensor"] else JObject(map[]);
    if !entry.JObject? {
      return Failure(SensorNotObject);
    }
    var sensor := entry.members;
    var vec: seq<real> := [];
    for i := 0 to |SensorFields|
      invariant Channels(sensor, i, parse) == Success(vec)
    {
      var key := SensorFields[i];
      var v := if key in sensor then sensor[key] else JNumber(0.0);
      match v {
        case JNumber(x) => vec := vec + [x];
        case JBool(b) => vec := vec + [if b then 1.0 else 0.0];
        case JText(t) =>
          var parsed := parse(t);
          vec := vec + [if parsed.Some? then parsed.value else 0.0];
        case _ =>
          assert FieldValue(sensor, SensorFields[i], parse).Failure?;
          return Failure(NotConvertible);
      }
    }
    return Success(vec);
  }

  /**
   * Eight values in channel order whenever extraction succeeds; a missing channel and a
   * text that does not parse both read as 0; a record without a `sensor` entry gives
   * eight zeros; extraction fails exactly when some channel holds null, an array or an
   * object.
   */
  lemma SensorVectorProperties(data: map<string, JsonValue>, parse: FloatParser)
    ensures var r := SensorVectorOf(data, parse);
      && (r.Success? ==> |r.value| == 8)
      && ("sensor" !in data ==> r == Success([0.0, 0.0, 0.0, 0.0, 0.0, 0.0, 0.0, 0.0]))
      && (SensorEntry(data).JObject? ==>
            (r.Failure? <==> exists i :: 0 <= i < 8 && SensorFields[i] in SensorEntry(data).members &&
                                          ChannelValue(SensorEntry(data).members[SensorFields[i]], parse).Failure?))
    ensures forall sensor: map<string, JsonValue>, i :: 0 <= i < 8 && SensorFields[i] !in sensor ==>
      FieldValue(sensor, SensorFields[i], parse) == Success(0.0)
    ensures forall sensor: map<string, JsonValue>, i ::
      (0 <= i < 8 && SensorFields[i] in sensor && sensor[SensorFields[i]].JText? &&
       parse(sensor[SensorFields[i]].text).None?) ==>
      FieldValue(sensor, SensorFields[i], parse) == Success(0.0)
  {
    if "sensor" !in data {
      var r := SensorVectorOf(data, parse);
      assert r.Success?;
      assert r.value == [0.0, 0.0, 0.0, 0.0, 0.0, 0.0, 0.0, 0.0];
    }
  }

  // ---------------------------------------------------------------- combined text

  /** The fields of a record the embedded text and the stored row are built from, already rendered as text. */
  datatype PlantRecord = PlantRecord(
    plantName: string, plantClass: string, environment: string, place: string,
    growthLevel: string, irrigationState: string, amountIrrigation: string)

  const InfoHeader: string := "[식물 정보]\n"
  const CaptionHeader: string := "\n\n[이미지 설명]\n"

  /** The sentence describing a record. */
  function Sentence(r: PlantRecord): string {
    r.plantName + "는 " + r.place + "에서 자라는 " + r.plantClass + "이며, "
    + "환경은 " + r.environment + " 상태이고 "
    + "생장 결과는 " + r.growthLevel + "이다. "
    + "현재 " + r.irrigationState + " 상태이고, "
    + "관수량은 " + r.amountIrrigation + "ml이다."
  }

  /** `build_combined_text`: the record's sentence under one header and the caption under another. */
  function BuildCombinedText(r: PlantRecord, caption: string): (t: string)
    ensures StartsWith(t, InfoHeader + r.plantName)
    ensures |t| >= |caption| && t[|t| - |caption|..] == caption
  {
    var t := InfoHeader + Sentence(r) + CaptionHeader + caption;
    assert t[..|InfoHeader + r.plantName|] == InfoHeader + r.plantName;
    t
  }

  /** The caption can be read back from the text, so two texts of one record differ exactly when their captions do. */
  lemma CombinedTextDeterminesCaption(r: PlantRecord, c1: string, c2: string)
    ensures BuildCombinedText(r, c1) == BuildCombinedText(r, c2) <==> c1 == c2
  {
    var prefix := InfoHeader + Sentence(r) + CaptionHeader;
    assert BuildCombinedText(r, c1) == prefix + c1;
    assert BuildCombinedText(r, c2) == prefix + c2;
    if prefix + c1 == prefix + c2 {
      assert c1 == (prefix + c1)[|prefix|..];
      assert c2 == (prefix + c2)[|prefix|..];
    }
  }

  // ---------------------------------------------------------------- rows and batches

  /** One stored row: text embedding, sensor vector, species, growth level, place, image. */
  datatype Row = Row(textVector: seq<real>, sensorVector: seq<real>, plantName: string,
                     growthLevel: string, place: string, imageName: string)

  /** A decoded record file: the rendered fields and the whole object. */
  datatype Document = Document(record: PlantRecord, data: map<string, JsonValue>)

  /** One caption entry: its image name and its caption, either of which may be missing. */
  datatype CaptionItem = CaptionItem(imageName: Option<string>, caption: Option<string>)

  /** A caption file: its name and its decoded entries. */
  datatype CaptionFile = CaptionFile(name: string, items: seq<CaptionItem>)

  /** The record file for an image in a folder, `None` when it does not exist. */
  type RecordStore = (string, string) -> Option<Document>

  /** The text-embedding model. */
  type Embedder = string -> seq<real>

  /** The row an entry yields: `None` when it is skipped, a failure when its sensor values raise. */
  function ItemRow(folder: string, item: CaptionItem, store: RecordStore, embed: Embedder, parse: FloatParser)
    : Result<Option<Row>, IngestFault>
  {
    if item.imageName.None? || item.imageName.value == [] then Success(None)
    else
      var image := item.imageName.value;
      match store(folder, image)
      case None => Success(None)
      case Some(doc) =>
        match SensorVectorOf(doc.data, parse)
        case Failure(e) => Failure(e)
        case Success(sensor) =>
          var text := embed(BuildCombinedText(doc.record, item.caption.GetOr("")));
          Success(Some(Row(text, sensor, doc.record.plantName, doc.record.growthLevel, doc.record.place, image)))
  }

  /**
   * An entry is skipped exactly when its image name is missing or empty or its record
   * file does not exist; it fails exactly when its record's sensor values raise; any
   * other entry yields the row of its record, its sensor vector, the embedding of its
   * combined text and its image name.
   */
  lemma ItemRowOutcome(folder: string, item: CaptionItem, store: RecordStore, embed: Embedder, parse: FloatParser)
    ensures ItemRow(folder, item, store, embed, parse) == Success(None) <==>
      item.imageName.None? || item.imageName.value == [] || store(folder, item.imageName.value).None?
    ensures ItemRow(folder, item, store, embed, parse).Failure? <==>
      item.imageName.Some? && item.imageName.value != [] && store(folder, item.imageName.value).Some? &&
      SensorVectorOf(store(folder, item.imageName.value).value.data, parse).Failure?
    ensures var r := ItemRow(folder, item, store, embed, parse);
      r.Success? && r.value.Some? ==>
        var doc := store(folder, item.imageName.value).value;
        && r.value.value.imageName == item.imageName.value
        && r.value.value.sensorVector == SensorVectorOf(doc.data, parse).value
        && |r.value.value.sensorVector| == 8
        && r.value.value.textVector == embed(BuildCombinedText(doc.record, item.caption.GetOr("")))
        && r.value.value.plantName == doc.record.plantName
        && r.value.value.growthLevel == doc.record.growthLevel
        && r.value.value.place == doc.record.place
  {
    if item.imageName.Some? && item.imageName.value != [] && store(folder, item.imageName.value).Some? {
      SensorVectorProperties(store(folder, item.imageName.value).value.data, parse);
    }
  }

  /** The rows an entry contributes: none when it is skipped, its row otherwise. */
  function RowsOf(r: Option<Row>): seq<Row> {
    if r.Some? then [r.value] else []
  }

  /**
   * The rows kept from a file's entries, in entry order; the first failing entry aborts.
   * Kept rows exist exactly when no entry fails, and then each entry contributes its
   * own row, or nothing when it is skipped.
   */
  function KeptRows(folder: string, items: seq<CaptionItem>, store: RecordStore, embed: Embedder, parse: FloatParser)
    : (r: Result<seq<Row>, IngestFault>)
    ensures r.Success? ==> |r.value| <= |items|
    ensures r.Success? <==> forall i :: 0 <= i < |items| ==> ItemRow(folder, items[i], store, embed, parse).Success?
    ensures r.Failure? ==> exists i :: 0 <= i < |items| && ItemRow(folder, items[i], store, embed, parse) == Failure(r.error)
    decreases |items|
  {
    if items == [] then Success([])
    else
      match KeptRows(folder, items[..|items| - 1], store, embed, parse)
      case Failure(e) => Failure(e)
      case Success(rows) =>
        match ItemRow(folder, items[|items| - 1], store, embed, parse)
        case Failure(e) => Failure(e)
        case Success(None) => Success(rows)
        case Success(Some(row)) => Success(rows + [row])
  }

  /** A lone entry keeps its own row, or nothing when it is skipped. */
  lemma KeptRowsSingle(folder: string, item: CaptionItem, store: RecordStore, embed: Embedder, parse: FloatParser)
    ensures ItemRow(folder, item, store, embed, parse).Success? ==>
      KeptRows(folder, [item], store, embed, parse) == Success(RowsOf(ItemRow(folder, item, store, embed, parse).value))
  {
    assert [item][..0] == [];
    var r := ItemRow(folder, item, store, embed, parse);
    if r.Success? && r.value.Some? {
      assert [] + [r.value.value] == RowsOf(r.value);
    }
  }

  /**
   * The rows kept from two runs of entries, one after the other, are the rows of the
   * first run followed by those of the second: entry order is kept and no row is
   * duplicated or lost.
   */
  lemma {:induction false} KeptRowsAppend(folder: string, a: seq<CaptionItem>, b: seq<CaptionItem>,
                                          store: RecordStore, embed: Embedder, parse: FloatParser)
    ensures KeptRows(folder, a + b, store, embed, parse).Success? <==>
      KeptRows(folder, a, store, embed, parse).Success? && KeptRows(folder, b, store, embed, parse).Success?
    ensures KeptRows(folder, a + b, store, embed, parse).Success? ==>
      KeptRows(folder, a + b, store, embed, parse).value ==
      KeptRows(folder, a, store, embed, parse).value + KeptRows(folder, b, store, embed, parse).value
    decreases |b|
  {
    if b == [] {
      assert a + b == a;
    } else {
      var b' := b[..|b| - 1];
      assert (a + b)[..|a + b| - 1] == a + b';
      assert (a + b)[|a + b| - 1] == b[|b| - 1];
      KeptRowsAppend(folder, a, b', store, embed, parse);
      var ra := KeptRows(folder, a, store, embed, parse);
      var rb' := KeptRows(folder, b', store, embed, parse);
      var last := ItemRow(folder, b[|b| - 1], store, embed, parse);
      if ra.Success? && rb'.Success? && last.Success? {
        assert KeptRows(folder, b, store, embed, parse).value == rb'.value + RowsOf(last.value);
        assert KeptRows(folder, a + b, store, embed, parse).value == ra.value + rb'.value + RowsOf(last.value);
      }
    }
  }

  /** The full batches inserted so far and the buffered rows, after feeding `rows` one at a time. */
  function Accumulate(rows: seq<Row>): (s: (seq<seq<Row>>, seq<Row>))
    ensures |s.1| < BatchSize
  {
    if rows == [] then ([], [])
    else
      var before := Accumulate(rows[..|rows| - 1]);
      var grown := before.1 + [rows[|rows| - 1]];
      if |grown| >= BatchSize then (before.0 + [grown], []) else (before.0, grown)
  }

  /** The batches one file inserts: the full ones, then the remainder if any. */
  function FileBatches(rows: seq<Row>): seq<seq<Row>> {
    var acc := Accumulate(rows);
    if acc.1 != [] then acc.0 + [acc.1] else acc.0
  }

  function Flatten(batches: seq<seq<Row>>): seq<Row> {
    if batches == [] then [] else Flatten(batches[..|batches| - 1]) + batches[|batches| - 1]
  }

  lemma {:induction false} FlattenAppend(a: seq<seq<Row>>, b: seq<seq<Row>>)
    ensures Flatten(a + b) == Flatten(a) + Flatten(b)
    decreases |b|
  {
    if b == [] {
      assert a + b == a;
    } else {
      assert (a + b)[..|a + b| - 1] == a + b[..|b| - 1];
      FlattenAppend(a, b[..|b| - 1]);
    }
  }

  lemma FlattenSingle(batch: seq<Row>)
    ensures Flatten([batch]) == batch
  {
    assert [batch][..0] == [];
  }

  /** Every batch holds exactly fifty rows. */
  predicate AllFull(batches: seq<seq<Row>>) {
    forall k :: 0 <= k < |batches| ==> |batches[k]| == BatchSize
  }

  lemma FullAppend(batches: seq<seq<Row>>, batch: seq<Row>)
    requires AllFull(batches) && |batch| == BatchSize
    ensures AllFull(batches + [batch])
  {
    forall k | 0 <= k < |batches| + 1
      ensures |(batches + [batch])[k]| == BatchSize
    {
      if k < |batches| {
        assert (batches + [batch])[k] == batches[k];
      }
    }
  }

  /** Every accumulated batch is full, and the batches followed by the buffer are exactly the rows fed. */
  lemma {:induction false} AccumulateKeepsRows(rows: seq<Row>)
    ensures Flatten(Accumulate(rows).0) + Accumulate(rows).1 == rows
    ensures AllFull(Accumulate(rows).0)
  {
    if rows != [] {
      var prefix := rows[..|rows| - 1];
      AccumulateKeepsRows(prefix);
      var before := Accumulate(prefix);
      var grown := before.1 + [rows[|rows| - 1]];
      assert rows == prefix + [rows[|rows| - 1]];
      assert Flatten(before.0) + grown == rows;
      if |grown| >= BatchSize {
        assert Accumulate(rows) == (before.0 + [grown], []);
        assert |grown| == BatchSize;
        FullAppend(before.0, grown);
        FlattenAppend(before.0, [grown]);
        FlattenSingle(grown);
      } else {
        assert Accumulate(rows) == (before.0, grown);
      }
    }
  }

  /**
   * Every row is inserted exactly once and in order; every batch holds between one and
   * fifty rows; all batches but the last of a file hold exactly fifty.
   */
  lemma FileBatchesShape(rows: seq<Row>)
    ensures Flatten(FileBatches(rows)) == rows
    ensures forall k :: 0 <= k < |FileBatches(rows)| ==> 1 <= |FileBatches(rows)[k]| <= BatchSize
    ensures forall k :: 0 <= k < |FileBatches(rows)| - 1 ==> |FileBatches(rows)[k]| == BatchSize
    ensures rows == [] <==> FileBatches(rows) == []
  {
    AccumulateKeepsRows(rows);
    var acc := Accumulate(rows);
    if acc.1 != [] {
      FlattenAppend(acc.0, [acc.1]);
      FlattenSingle(acc.1);
    }
    if rows == [] {
      assert FileBatches(rows) == [];
    }
  }

  /** Feeding `n` rows leaves `n / 50` full batches and `n % 50` buffered rows. */
  lemma {:induction false} AccumulateCounts(rows: seq<Row>)
    ensures |Accumulate(rows).0| == |rows| / BatchSize
    ensures |Accumulate(rows).1| == |rows| % BatchSize
  {
    if rows != [] {
      AccumulateCounts(rows[..|rows| - 1]);
    }
  }

  /**
   * A file inserts `n / 50` full batches, followed by one batch of the `n % 50`
   * remaining rows when that is not zero.
   */
  lemma FileBatchesCount(rows: seq<Row>)
    ensures |FileBatches(rows)| == |rows| / BatchSize + (if |rows| % BatchSize == 0 then 0 else 1)
    ensures forall k :: 0 <= k < |rows| / BatchSize ==> |FileBatches(rows)[k]| == BatchSize
    ensures |rows| % BatchSize != 0 ==> |FileBatches(rows)[|rows| / BatchSize]| == |rows| % BatchSize
  {
    AccumulateCounts(rows);
    AccumulateKeepsRows(rows);
  }

  /** 120 kept rows go in as 50, 50 and 20. */
  lemma FileBatchesExample(rows: seq<Row>)
    requires |rows| == 120
    ensures |FileBatches(rows)| == 3
    ensures |FileBatches(rows)[0]| == 50 && |FileBatches(rows)[1]| == 50 && |FileBatches(rows)[2]| == 20
  {
    FileBatchesCount(rows);
  }

  // ---------------------------------------------------------------- the insertion loop

  /** The six parallel column buffers, the database's insert log, and the running count. */
  class Ingestion {
    var textVecs: seq<seq<real>>
    var sensorVecs: seq<seq<real>>
    var plantNames: seq<string>
    var growthLevels: seq<string>
    var places: seq<string>
    var imageNames: seq<string>
    /** Every `insert` call so far, oldest first. */
    var inserted: seq<seq<Row>>
    var totalAdded: nat

    /** The buffers stay parallel and the count is the number of inserted rows. */
    ghost predicate Valid()
      reads this
    {
      && |sensorVecs| == |textVecs| && |plantNames| == |textVecs| && |growthLevels| == |textVecs|
      && |places| == |textVecs| && |imageNames| == |textVecs|
      && totalAdded == |Flatten(inserted)|
    }

    /** The buffered rows, read across the six columns. */
    function Buffered(): (rows: seq<Row>)
      reads this
      requires Valid()
      ensures |rows| == |textVecs|
    {
      var (t, v, n, g, p, m) := (textVecs, sensorVecs, plantNames, growthLevels, places, imageNames);
      seq(|t|, i requires 0 <= i < |t| => Row(t[i], v[i], n[i], g[i], p[i], m[i]))
    }

    constructor()
      ensures Valid() && Buffered() == [] && inserted == [] && totalAdded == 0
    {
      textVecs, sensorVecs, plantNames, growthLevels, places, imageNames := [], [], [], [], [], [];
      inserted := [];
      totalAdded := 0;
    }

    /** Empties the six buffers. */
    method Reset()
      requires Valid()
      modifies this
      ensures Valid() && Buffered() == []
      ensures inserted == old(inserted) && totalAdded == old(totalAdded)
    {
      textVecs, sensorVecs, plantNames, growthLevels, places, imageNames := [], [], [], [], [], [];
    }

    /** Appends one row, one entry per column. */
    method Append(row: Row)
      requires Valid()
      modifies this
      ensures Valid() && Buffered() == old(Buffered()) + [row]
      ensures inserted == old(inserted) && totalAdded == old(totalAdded)
    {
      textVecs := textVecs + [row.textVector];
      sensorVecs := sensorVecs + [row.sensorVector];
      plantNames := plantNames + [row.plantName];
      growthLevels := growthLevels + [row.growthLevel];
      places := places + [row.place];
      imageNames := imageNames + [row.imageName];
    }

    /** Inserts the buffered rows as one batch and counts them; the buffers are left as they are. */
    method Insert()
      requires Valid()
      modifies this
      ensures Valid() && Buffered() == old(Buffered())
      ensures inserted == old(inserted) + [old(Buffered())]
      ensures totalAdded == old(totalAdded) + |old(Buffered())|
    {
      var batch := Buffered();
      FlattenAppend(inserted, [batch]);
      assert Flatten([batch]) == batch by {
        assert [batch][..0] == [];
      }
      inserted := inserted + [batch];
      totalAdded := totalAdded + |textVecs|;
    }
  }

  /** Reads one entry's record and builds its row. */
  method PrepareRow(folder: string, item: CaptionItem, store: RecordStore, embed: Embedder, parse: FloatParser)
    returns (r: Result<Option<Row>, IngestFault>)
    ensures r == ItemRow(folder, item, store, embed, parse)
  {
    if item.imageName.None? || item.imageName.value == [] {
      return Success(None);
    }
    var image := item.imageName.value;
    var doc := store(folder, image);
    if doc.None? {
      return Success(None);
    }
    var sensor := ExtractSensorVector(doc.value.data, parse);
    if sensor.Failure? {
      return Failure(sensor.error);
    }
    var text := embed(BuildCombinedText(doc.value.record, item.caption.GetOr("")));
    var record := doc.value.record;
    return Success(Some(Row(text, sensor.value, record.plantName, record.growthLevel, record.place, image)));
  }

  /** One more entry extends the kept rows by that entry's row, if any. */
  lemma KeptRowsStep(folder: string, items: seq<CaptionItem>, i: nat, store: RecordStore, embed: Embedder, parse: FloatParser)
    requires i < |items|
    ensures KeptRows(folder, items[..i + 1], store, embed, parse) ==
      match KeptRows(folder, items[..i], store, embed, parse)
      case Failure(e) => Failure(e)
      case Success(rows) =>
        match ItemRow(folder, items[i], store, embed, parse)
        case Failure(e) => Failure(e)
        case Success(None) => Success(rows)
        case Success(Some(row)) => Success(rows + [row])
  {
    assert items[..i + 1][..i] == items[..i];
  }

  /** Feeding one more row appends it to the buffer, and a buffer that reaches fifty becomes a batch. */
  lemma AccumulateStep(rows: seq<Row>, row: Row)
    ensures var grown := Accumulate(rows).1 + [row];
      Accumulate(rows + [row]) ==
        if |grown| >= BatchSize then (Accumulate(rows).0 + [grown], []) else (Accumulate(rows).0, grown)
  {
    assert (rows + [row])[..|rows|] == rows;
  }

  /** Appends a kept row, and inserts and resets the buffers once they hold fifty rows. */
  method Feed(ing: Ingestion, row: Row, ghost rows: seq<Row>, ghost start: seq<seq<Row>>)
    requires ing.Valid()
    requires ing.inserted == start + Accumulate(rows).0 && ing.Buffered() == Accumulate(rows).1
    modifies ing
    ensures ing.Valid()
    ensures ing.inserted == start + Accumulate(rows + [row]).0 && ing.Buffered() == Accumulate(rows + [row]).1
  {
    AccumulateStep(rows, row);
    ing.Append(row);
    if |ing.textVecs| >= BatchSize {
      ing.Insert();
      ing.Reset();
      assert start + Accumulate(rows).0 + [Accumulate(rows).1 + [row]] == start + (Accumulate(rows).0 + [Accumulate(rows).1 + [row]]);
    }
  }

  /**
   * One caption file: the buffers are reset, each kept entry is appended, a full buffer
   * is inserted and reset, and a remainder is inserted at the end. A failing entry stops
   * everything.
   */
  method IngestFile(ing: Ingestion, folder: string, items: seq<CaptionItem>,
                    store: RecordStore, embed: Embedder, parse: FloatParser)
    returns (fault: Option<IngestFault>)
    requires ing.Valid()
    modifies ing
    ensures ing.Valid()
    ensures fault.None? <==> KeptRows(folder, items, store, embed, parse).Success?
    ensures fault.None? ==> ing.inserted == old(ing.inserted) + FileBatches(KeptRows(folder, items, store, embed, parse).value)
  {
    ing.Reset();
    ghost var rows: seq<Row> := [];
    for i := 0 to |items|
      invariant ing.Valid()
      invariant KeptRows(folder, items[..i], store, embed, parse) == Success(rows)
      invariant ing.inserted == old(ing.inserted) + Accumulate(rows).0
      invariant ing.Buffered() == Accumulate(rows).1
    {
      KeptRowsStep(folder, items, i, store, embed, parse);
      var r := PrepareRow(folder, items[i], store, embed, parse);
      if r.Failure? {
        KeptRowsFailureSticks(folder, items, i + 1, store, embed, parse);
        return Some(r.error);
      }
      if r.value.Some? {
        Feed(ing, r.value.value, rows, old(ing.inserted));
        rows := rows + [r.value.value];
      }
    }
    assert items[..|items|] == items;
    if ing.textVecs != [] {
      ing.Insert();
    }
    return None;
  }

  /** Once an entry fails, every longer run of entries fails. */
  lemma {:induction false} KeptRowsFailureSticks(folder: string, items: seq<CaptionItem>, n: nat,
                                                 store: RecordStore, embed: Embedder, parse: FloatParser)
    requires n <= |items| && KeptRows(folder, items[..n], store, embed, parse).Failure?
    ensures KeptRows(folder, items, store, embed, parse).Failure?
    decreases |items| - n
  {
    if n == |items| {
      assert items[..n] == items;
    } else {
      assert items[..n + 1][..n] == items[..n];
      KeptRowsFailureSticks(folder, items, n + 1, store, embed, parse);
    }
  }

  /** The batches one caption file contributes: none when its folder is unknown. */
  function CaptionFileBatches(file: CaptionFile, store: RecordStore, embed: Embedder, parse: FloatParser)
    : Result<seq<seq<Row>>, IngestFault>
  {
    match FolderForCaption(file.name)
    case None => Success([])
    case Some(folder) =>
      match KeptRows(folder, file.items, store, embed, parse)
      case Failure(e) => Failure(e)
      case Success(rows) => Success(FileBatches(rows))
  }

  /** The batches of every caption file in turn; the first failing file aborts. */
  function IngestPlan(files: seq<CaptionFile>, store: RecordStore, embed: Embedder, parse: FloatParser)
    : Result<seq<seq<Row>>, IngestFault>
  {
    if files == [] then Success([])
    else
      match IngestPlan(files[..|files| - 1], store, embed, parse)
      case Failure(e) => Failure(e)
      case Success(batches) =>
        match CaptionFileBatches(files[|files| - 1], store, embed, parse)
        case Failure(e) => Failure(e)
        case Success(more) => Success(batches + more)
  }

  /** One caption file: skipped when its folder is unknown, ingested otherwise. */
  method IngestCaptionFile(ing: Ingestion, file: CaptionFile, store: RecordStore, embed: Embedder, parse: FloatParser)
    returns (fault: Option<IngestFault>)
    requires ing.Valid()
    modifies ing
    ensures ing.Valid()
    ensures fault.None? <==> CaptionFileBatches(file, store, embed, parse).Success?
    ensures fault.None? ==> ing.inserted == old(ing.inserted) + CaptionFileBatches(file, store, embed, parse).value
  {
    var folder := FolderForCaption(file.name);
    if folder.None? {
      assert old(ing.inserted) + [] == old(ing.inserted);
      return None;
    }
    fault := IngestFile(ing, folder.value, file.items, store, embed, parse);
  }

  /** The whole ingestion, file by file. */
  method IngestAll(ing: Ingestion, files: seq<CaptionFile>, store: RecordStore, embed: Embedder, parse: FloatParser)
    returns (fault: Option<IngestFault>)
    requires ing.Valid()
    modifies ing
    ensures ing.Valid()
    ensures fault.None? <==> IngestPlan(files, store, embed, parse).Success?
    ensures fault.None? ==> ing.inserted == old(ing.inserted) + IngestPlan(files, store, embed, parse).value
    ensures fault.None? ==> ing.totalAdded == old(ing.totalAdded) + |Flatten(IngestPlan(files, store, embed, parse).value)|
  {
    ghost var plan: seq<seq<Row>> := [];
    for i := 0 to |files|
      invariant ing.Valid()
      invariant IngestPlan(files[..i], store, embed, parse) == Success(plan)
      invariant ing.inserted == old(ing.inserted) + plan
    {
      fault, plan := IngestNext(ing, files, i, store, embed, parse, old(ing.inserted), plan);
      if fault.Some? {
        PlanFailureSticks(files, i + 1, store, embed, parse);
        return;
      }
    }
    assert files[..|files|] == files;
    FlattenAppend(old(ing.inserted), plan);
    return None;
  }

  /** Ingests the next caption file and extends the plan followed so far by its batches. */
  method IngestNext(ing: Ingestion, files: seq<CaptionFile>, i: nat, store: RecordStore, embed: Embedder, parse: FloatParser,
                    ghost start: seq<seq<Row>>, ghost plan: seq<seq<Row>>)
    returns (fault: Option<IngestFault>, ghost plan': seq<seq<Row>>)
    requires ing.Valid() && i < |files|
    requires IngestPlan(files[..i], store, embed, parse) == Success(plan) && ing.inserted == start + plan
    modifies ing
    ensures ing.Valid()
    ensures fault.Some? ==> IngestPlan(files[..i + 1], store, embed, parse).Failure?
    ensures fault.None? ==> IngestPlan(files[..i + 1], store, embed, parse) == Success(plan') && ing.inserted == start + plan'
  {
    PlanStep(files, i, store, embed, parse, plan);
    ghost var more := CaptionFileBatches(files[i], store, embed, parse);
    fault := IngestCaptionFile(ing, files[i], store, embed, parse);
    plan' := plan;
    if fault.None? {
      assert start + plan + more.value == start + (plan + more.value);
      plan' := plan + more.value;
    }
  }

  lemma PlanStep(files: seq<CaptionFile>, i: nat, store: RecordStore, embed: Embedder, parse: FloatParser, plan: seq<seq<Row>>)
    requires i < |files| && IngestPlan(files[..i], store, embed, parse) == Success(plan)
    ensures var more := CaptionFileBatches(files[i], store, embed, parse);
      IngestPlan(files[..i + 1], store, embed, parse) == if more.Success? then Success(plan + more.value) else Failure(more.error)
  {
    assert files[..i + 1][..i] == files[..i];
  }

  lemma {:induction false} PlanFailureSticks(files: seq<CaptionFile>, n: nat, store: RecordStore, embed: Embedder, parse: FloatParser)
    requires n <= |files| && IngestPlan(files[..n], store, embed, parse).Failure?
    ensures IngestPlan(files, store, embed, parse).Failure?
    decreases |files| - n
  {
    if n == |files| {
      assert files[..n] == files;
    } else {
      assert files[..n + 1][..n] == files[..n];
      PlanFailureSticks(files, n + 1, store, embed, parse);
    }
  }
}
