/** The binary metrics payload: a start time, a sampling interval, a sensor type, and 32-bit samples. */
module Metrics {
  import opened Wrappers
  import opened LittleEndian
  import opened GosterWy

  /** A sample; its 32-bit floating point value is kept as the word that encodes it. */
  datatype MetricPoint = MetricPoint(name: string, unit: string, bits: U32, observedAt: int, legacyType: U8)

  datatype MetricsError = PayloadTooShort | UnsupportedType | LengthMismatch

  const METRICS_HEADER: nat := 17
  const POINT_SIZE: nat := 4
  const TWO_63: int := 0x8000_0000_0000_0000
  const TWO_64: int := 0x1_0000_0000_0000_0000

  function LegacyMetricName(dataType: U8): Option<(string, string)> {
    if dataType == 1 then Some(("temperature", "\U{B0}C"))
    else if dataType == 2 then Some(("humidity", "%"))
    else if dataType == 4 then Some(("illuminance", "lx"))
    else if dataType == 8 then Some(("access_signal_a", ""))
    else if dataType == 16 then Some(("access_signal_b", ""))
    else None
  }

  /** What a computation on int64 leaves of an integer. */
  function Int64(n: int): (w: int)
    ensures -TWO_63 <= w < TWO_63
  {
    (n + TWO_63) % TWO_64 - TWO_63
  }

  function ObservedAt(start: U64, interval: U32, i: nat): int {
    Int64(Int64(start) + Int64(i * interval))
  }

  // ---------------------------------------------------------------- parsing

  function FieldAt(payload: seq<bv8>, i: nat): U32
    requires i + 4 <= |payload|
  {
    PowValues();
    Get(payload[i..i + 4])
  }

  function StartOf(payload: seq<bv8>): U64
    requires |payload| >= METRICS_HEADER
  {
    PowValues();
    Get(payload[..8])
  }

  function PointAt(payload: seq<bv8>, i: nat): MetricPoint
    requires |payload| >= METRICS_HEADER + POINT_SIZE * (i + 1) && LegacyMetricName(ByteValue(payload[12])).Some?
  {
    var (name, unit) := LegacyMetricName(ByteValue(payload[12])).value;
    MetricPoint(name, unit, FieldAt(payload, METRICS_HEADER + POINT_SIZE * i),
                ObservedAt(StartOf(payload), FieldAt(payload, 8), i), ByteValue(payload[12]))
  }

  function Parsed(payload: seq<bv8>): (r: Result<seq<MetricPoint>, MetricsError>) {
    if |payload| < METRICS_HEADER then Err(PayloadTooShort)
    else if LegacyMetricName(ByteValue(payload[12])).None? then Err(UnsupportedType)
    else if |payload| != METRICS_HEADER + POINT_SIZE * FieldAt(payload, 13) then Err(LengthMismatch)
    else Ok(seq(FieldAt(payload, 13), i requires 0 <= i < FieldAt(payload, 13) => PointAt(payload, i)))
  }

  method ParseMetricsPayload(payload: seq<bv8>) returns (r: Result<seq<MetricPoint>, MetricsError>)
    ensures r == Parsed(payload)
  {
    hide Get, ByteValue, LegacyMetricName, Int64, StartOf, FieldAt;
    if |payload| < METRICS_HEADER {
      return Err(PayloadTooShort);
    }
    var startTimestamp := Int64(StartOf(payload));
    var sampleInterval := FieldAt(payload, 8);
    var dataType := ByteValue(payload[12]);
    var count := FieldAt(payload, 13);
    var dataBlob := payload[METRICS_HEADER..];
    var metric := LegacyMetricName(dataType);
    if metric.None? {
      return Err(UnsupportedType);
    }
    if |dataBlob| != count * POINT_SIZE {
      return Err(LengthMismatch);
    }
    var points: seq<MetricPoint> := [];
    for i := 0 to count
      invariant |points| == i
      invariant forall k :: 0 <= k < i ==> points[k] == PointAt(payload, k)
    {
      BlobField(payload, i);
      var bits := FieldAt(dataBlob, i * POINT_SIZE);
      var observedAt := Int64(startTimestamp + Int64(i * sampleInterval));
      points := points + [MetricPoint(metric.value.0, metric.value.1, bits, observedAt, dataType)];
    }
    assert points == Parsed(payload).value;
    return Ok(points);
  }

  lemma BlobField(payload: seq<bv8>, i: nat)
    requires |payload| >= METRICS_HEADER + POINT_SIZE * (i + 1)
    ensures FieldAt(payload[METRICS_HEADER..], i * POINT_SIZE) == FieldAt(payload, METRICS_HEADER + POINT_SIZE * i)
  {
    hide Get;
    assert payload[METRICS_HEADER..][i * POINT_SIZE..i * POINT_SIZE + 4]
        == payload[METRICS_HEADER + POINT_SIZE * i..METRICS_HEADER + POINT_SIZE * i + 4];
  }

  // ---------------------------------------------------------------- the encoder it must undo

  /** What a device wants to report. */
  datatype Batch = Batch(start: U64, interval: U32, dataType: U8, values: seq<U32>)

  predicate Valid(b: Batch) {
    LegacyMetricName(b.dataType).Some? && |b.values| < 0x1_0000_0000
  }

  function EncodeValues(values: seq<U32>): (s: seq<bv8>)
    ensures |s| == POINT_SIZE * |values|
  {
    if values == [] then [] else EncodeValues(values[..|values| - 1]) + Put(values[|values| - 1], 4)
  }

  function Encode(b: Batch): seq<bv8> {
    Put(b.start, 8) + Put(b.interval, 4) + [ByteOf(b.dataType)] + Put(|b.values|, 4) + EncodeValues(b.values)
  }

  /** The samples it stands for. */
  function PointsOf(b: Batch): (points: seq<MetricPoint>)
    requires Valid(b)
    ensures |points| == |b.values|
  {
    seq(|b.values|, i requires 0 <= i < |b.values| =>
      MetricPoint(LegacyMetricName(b.dataType).value.0, LegacyMetricName(b.dataType).value.1, b.values[i],
                  ObservedAt(b.start, b.interval, i), b.dataType))
  }

  lemma {:induction false} EncodedValueAt(values: seq<U32>, i: nat)
    requires i < |values|
    ensures EncodeValues(values)[POINT_SIZE * i..POINT_SIZE * i + 4] == Put(values[i], 4)
    decreases |values|
  {
    hide Put;
    var init := values[..|values| - 1];
    if i == |init| {
    } else {
      EncodedValueAt(init, i);
      assert EncodeValues(values)[..|EncodeValues(init)|] == EncodeValues(init);
      assert EncodeValues(values)[POINT_SIZE * i..POINT_SIZE * i + 4]
          == EncodeValues(init)[POINT_SIZE * i..POINT_SIZE * i + 4];
    }
  }

  lemma EncodeLayout(b: Batch)
    ensures var p := Encode(b);
            && |p| == METRICS_HEADER + POINT_SIZE * |b.values|
            && p[..8] == Put(b.start, 8) && p[8..12] == Put(b.interval, 4) && p[12] == ByteOf(b.dataType)
            && p[13..17] == Put(|b.values|, 4) && p[17..] == EncodeValues(b.values)
  {
    hide Put, EncodeValues;
  }

  lemma FieldReads(payload: seq<bv8>, i: nat, n: U32)
    requires i + 4 <= |payload| && payload[i..i + 4] == Put(n, 4)
    ensures FieldAt(payload, i) == n
  {
    hide Put, Get;
    PowValues();
    GetPut(n, 4);
  }

  lemma StartReads(payload: seq<bv8>, n: U64)
    requires |payload| >= METRICS_HEADER && payload[..8] == Put(n, 8)
    ensures StartOf(payload) == n
  {
    hide Put, Get;
    PowValues();
    GetPut(n, 8);
  }

  lemma EncodedValueReads(b: Batch, i: nat)
    requires i < |b.values|
    ensures |Encode(b)| == METRICS_HEADER + POINT_SIZE * |b.values|
    ensures FieldAt(Encode(b), METRICS_HEADER + POINT_SIZE * i) == b.values[i]
  {
    EncodeLayout(b);
    hide Put, Encode, EncodeValues, FieldAt;
    var p := Encode(b);
    var k := POINT_SIZE * i;
    EncodedValueAt(b.values, i);
    assert p[METRICS_HEADER + k..METRICS_HEADER + k + 4] == p[METRICS_HEADER..][k..k + 4];
    FieldReads(p, METRICS_HEADER + k, b.values[i]);
  }

  lemma EncodeReads(b: Batch)
    requires |b.values| < 0x1_0000_0000
    ensures var p := Encode(b);
            && |p| == METRICS_HEADER + POINT_SIZE * |b.values|
            && StartOf(p) == b.start && FieldAt(p, 8) == b.interval && ByteValue(p[12]) == b.dataType
            && FieldAt(p, 13) == |b.values|
            && forall i :: 0 <= i < |b.values| ==> FieldAt(p, METRICS_HEADER + POINT_SIZE * i) == b.values[i]
  {
    EncodeLayout(b);
    ByteRoundTrip(b.dataType, 0);
    hide Put, ByteOf, ByteValue, Encode, EncodeValues, StartOf, FieldAt;
    var p := Encode(b);
    StartReads(p, b.start);
    FieldReads(p, 8, b.interval);
    FieldReads(p, 13, |b.values|);
    forall i | 0 <= i < |b.values| ensures FieldAt(p, METRICS_HEADER + POINT_SIZE * i) == b.values[i] {
      EncodedValueReads(b, i);
    }
  }

  /** Parsing undoes encoding, and an encoded batch is refused exactly for its sensor type. */
  lemma ParseUndoesEncode(b: Batch)
    requires |b.values| < 0x1_0000_0000
    ensures Parsed(Encode(b)) == if LegacyMetricName(b.dataType).Some? then Ok(PointsOf(b)) else Err(UnsupportedType)
  {
    EncodeReads(b);
    hide Get, ByteValue, LegacyMetricName, Encode, Int64;
    if LegacyMetricName(b.dataType).Some? {
      assert Parsed(Encode(b)).value == PointsOf(b);
    }
  }

  /** What each type of sensor measures, and its unit. */
  ghost predicate Labelled(p: MetricPoint) {
    (p.legacyType as int, p.name, p.unit) in
      {(1, "temperature", "\U{B0}C"), (2, "humidity", "%"), (4, "illuminance", "lx"), (8, "access_signal_a", ""),
       (16, "access_signal_b", "")}
  }

  /** What a sample measures can be told from its name, which is that of its sensor: no two sensor types share one. */
  lemma NamesTellTypes(payload: seq<bv8>, other: seq<bv8>, i: nat, j: nat)
    requires Parsed(payload).Ok? && Parsed(other).Ok? && i < |Parsed(payload).value| && j < |Parsed(other).value|
    ensures var p, q := Parsed(payload).value[i], Parsed(other).value[j];
            Labelled(p) && (p.name == q.name <==> p.legacyType == q.legacyType)
  {
    hide Get, ByteValue, StartOf, FieldAt, Int64;
    TypesHaveNames(ByteValue(payload[12]), ByteValue(other[12]));
    hide LegacyMetricName;
  }

  lemma TypesHaveNames(a: U8, b: U8)
    requires LegacyMetricName(a).Some? && LegacyMetricName(b).Some?
    ensures LegacyMetricName(a).value.0 == LegacyMetricName(b).value.0 <==> a == b
  {
  }

  /** The batch a payload stands for. */
  function BatchOf(payload: seq<bv8>): (b: Batch)
    requires Parsed(payload).Ok?
  {
    Batch(StartOf(payload), FieldAt(payload, 8), ByteValue(payload[12]),
          seq(FieldAt(payload, 13), i requires 0 <= i < FieldAt(payload, 13) =>
              FieldAt(payload, METRICS_HEADER + POINT_SIZE * i)))
  }

  lemma {:induction false} BlobOfValues(blob: seq<bv8>, values: seq<U32>)
    requires |blob| == POINT_SIZE * |values|
    requires forall i :: 0 <= i < |values| ==> values[i] == FieldAt(blob, POINT_SIZE * i)
    ensures EncodeValues(values) == blob
    decreases |values|
  {
    hide Put, Get;
    if values != [] {
      var n := |values| - 1;
      var init := blob[..POINT_SIZE * n];
      forall i | 0 <= i < n ensures values[i] == FieldAt(init, POINT_SIZE * i) {
        assert init[POINT_SIZE * i..POINT_SIZE * i + 4] == blob[POINT_SIZE * i..POINT_SIZE * i + 4];
      }
      BlobOfValues(init, values[..n]);
      PutGet(blob[POINT_SIZE * n..POINT_SIZE * n + 4]);
      assert blob == init + blob[POINT_SIZE * n..POINT_SIZE * n + 4];
    }
  }

  lemma AcceptedBlob(payload: seq<bv8>)
    requires Parsed(payload).Ok?
    ensures EncodeValues(BatchOf(payload).values) == payload[METRICS_HEADER..]
  {
    hide ByteValue, ByteOf, LegacyMetricName, EncodeValues, StartOf, FieldAt;
    var values := BatchOf(payload).values;
    forall i | 0 <= i < |values| ensures values[i] == FieldAt(payload[METRICS_HEADER..], POINT_SIZE * i) {
      BlobField(payload, i);
    }
    BlobOfValues(payload[METRICS_HEADER..], values);
  }

  lemma FiveParts(p: seq<bv8>)
    requires |p| >= METRICS_HEADER
    ensures p == p[..8] + p[8..12] + [p[12]] + p[13..17] + p[METRICS_HEADER..]
  {
  }

  lemma HeaderParts(payload: seq<bv8>)
    requires |payload| >= METRICS_HEADER
    ensures payload == Put(StartOf(payload), 8) + Put(FieldAt(payload, 8), 4) + [ByteOf(ByteValue(payload[12]))]
                       + Put(FieldAt(payload, 13), 4) + payload[METRICS_HEADER..]
  {
    ByteRoundTrip(0, payload[12]);
    PutGet(payload[..8]);
    PutGet(payload[8..12]);
    PutGet(payload[13..17]);
    FiveParts(payload);
    hide Put, Get, ByteValue, ByteOf;
  }

  /** Every accepted payload is the encoding of exactly the batch that was read from it. */
  lemma AcceptedIsEncoded(payload: seq<bv8>)
    requires Parsed(payload).Ok?
    ensures Valid(BatchOf(payload)) && Encode(BatchOf(payload)) == payload
            && Parsed(payload).value == PointsOf(BatchOf(payload))
  {
    hide Put, Get, ByteValue, ByteOf, LegacyMetricName, EncodeValues, StartOf, FieldAt, Int64;
    HeaderParts(payload);
    AcceptedBlob(payload);
    assert Parsed(payload).value == PointsOf(BatchOf(payload));
  }

  // ---------------------------------------------------------------- timestamps

  /**
   * Within the frame size, a start between 0 and 2^63 - 2^46 keeps clear of every int64 overflow: the
   * timestamps are the arithmetic progression that the device meant, and never go back.
   */
  lemma TimestampsAdvance(payload: seq<bv8>, i: nat, j: nat)
    requires Parsed(payload).Ok? && |payload| <= MAX_PAYLOAD_SIZE
    requires StartOf(payload) < TWO_63 - 0x4000_0000_0000
    requires i <= j < |Parsed(payload).value|
    ensures var points := Parsed(payload).value;
            && points[i].observedAt == StartOf(payload) + i * FieldAt(payload, 8)
            && points[i].observedAt <= points[j].observedAt < TWO_63
  {
    hide Get, ByteValue, LegacyMetricName;
    NoOverflow(StartOf(payload), FieldAt(payload, 8), i);
    NoOverflow(StartOf(payload), FieldAt(payload, 8), j);
    Monotone(i, j, FieldAt(payload, 8));
  }

  lemma Monotone(i: nat, j: nat, step: nat)
    requires i <= j
    ensures i * step <= j * step
  {
  }

  lemma NoOverflow(start: U64, interval: U32, i: nat)
    requires start < TWO_63 - 0x4000_0000_0000 && i < 0x4000
    ensures ObservedAt(start, interval, i) == start + i * interval < TWO_63
  {
    hide Int64;
    SpanBound(interval, i);
    InRange(start);
    InRange(i * interval);
    InRange(start + i * interval);
  }

  lemma SpanBound(interval: nat, i: nat)
    requires i < 0x4000 && interval < 0x1_0000_0000
    ensures 0 <= i * interval < 0x4000_0000_0000
  {
    Monotone(0, i, interval);
    Monotone(i, 0x4000, interval);
  }

  lemma InRange(n: nat)
    requires n < TWO_63
    ensures Int64(n) == n
  {
  }
}
