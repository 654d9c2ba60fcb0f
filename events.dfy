/**
 * The two records of csv2ics and the row normalisation of `process_csv`.
 *
 * CSV decoding itself is done by a library; here every input row arrives
 * already decoded (`Decoded`) or as the decoder's failure (`Malformed`).
 */
module Events {
  import opened CharFilter

  datatype Option<T> = None | Some(value: T)

  /** The errors a run can stop with. */
  datatype Error =
    | MalformedInput(reason: string)   // a CSV row that did not decode
    | IoFailure(path: string)          // a directory or file that could not be written

  datatype Result<T> = Ok(value: T) | Err(error: Error)

  /** One decoded CSV row, the five columns of the header. */
  datatype CsvEventData = CsvEventData(
    organizer: string,
    startTime: string,
    endTime: string,
    summary: string,
    description: string)

  /** A normalised row: a generated id and compact time stamps. */
  datatype EventData = EventData(
    guid: string,
    organizer: string,
    startTime: string,
    endTime: string,
    summary: string,
    description: string)

  /** What the CSV decoder yields for one data row. */
  datatype Row = Decoded(data: CsvEventData) | Malformed(reason: string)

  /** The characters removed from time stamps. */
  const TimestampPunctuation: set<char> := {'-', ':'}

  /**
   * ISO 8601 extended date-time to the basic form of section 3.3.5 of
   * RFC 5545, by deleting every `-` and `:`; nothing is validated.
   */
  function CompactTimestamp(t: string): string
  {
    Remove(t, TimestampPunctuation)
  }

  /** The EventData built from one decoded row and the id generated for it. */
  function Normalize(row: CsvEventData, guid: string): EventData
  {
    EventData(guid, row.organizer, CompactTimestamp(row.startTime),
              CompactTimestamp(row.endTime), row.summary, row.description)
  }

  /** A compact time stamp has no `-` and no `:`, and is no longer than the input. */
  lemma CompactTimestampClean(t: string)
    ensures |CompactTimestamp(t)| <= |t|
    ensures forall i :: 0 <= i < |CompactTimestamp(t)| ==>
              CompactTimestamp(t)[i] != '-' && CompactTimestamp(t)[i] != ':'
  {
  }

  /** Compacting an already compact time stamp changes nothing. */
  lemma CompactTimestampIdempotent(t: string)
    ensures CompactTimestamp(CompactTimestamp(t)) == CompactTimestamp(t)
  {
    RemoveIdempotent(t, TimestampPunctuation);
  }

  /** The start of the sample template row, in basic form. */
  lemma CompactTimestampTemplateStart()
    ensures CompactTimestamp("2024-11-25T10:00:00") == "20241125T100000"
  {
    CompactTimestampOf("2024", "11", "25T10", "00", "00");
    assert "2024" + "-" + "11" + "-" + "25T10" + ":" + "00" + ":" + "00" == "2024-11-25T10:00:00";
    assert "2024" + "11" + "25T10" + "00" + "00" == "20241125T100000";
  }

  /** The end of the sample template row, in basic form. */
  lemma CompactTimestampTemplateEnd()
    ensures CompactTimestamp("2024-11-25T12:00:00") == "20241125T120000"
  {
    CompactTimestampOf("2024", "11", "25T12", "00", "00");
    assert "2024" + "-" + "11" + "-" + "25T12" + ":" + "00" + ":" + "00" == "2024-11-25T12:00:00";
    assert "2024" + "11" + "25T12" + "00" + "00" == "20241125T120000";
  }

  /** Compacting `yyyy-mm-ddThh:mm:ss` drops exactly the four separators. */
  lemma CompactTimestampOf(y: string, m: string, dh: string, mi: string, sec: string)
    requires forall i :: 0 <= i < |y| ==> y[i] !in TimestampPunctuation
    requires forall i :: 0 <= i < |m| ==> m[i] !in TimestampPunctuation
    requires forall i :: 0 <= i < |dh| ==> dh[i] !in TimestampPunctuation
    requires forall i :: 0 <= i < |mi| ==> mi[i] !in TimestampPunctuation
    requires forall i :: 0 <= i < |sec| ==> sec[i] !in TimestampPunctuation
    ensures CompactTimestamp(y + "-" + m + "-" + dh + ":" + mi + ":" + sec) == y + m + dh + mi + sec
  {
    var d := TimestampPunctuation;
    RemoveUnchanged(y, d);
    RemoveUnchanged(m, d);
    RemoveUnchanged(dh, d);
    RemoveUnchanged(mi, d);
    RemoveUnchanged(sec, d);
    assert Remove("-", d) == [] && Remove(":", d) == [];
    RemoveConcat(y, "-", d);
    RemoveConcat(y + "-", m, d);
    RemoveConcat(y + "-" + m, "-", d);
    RemoveConcat(y + "-" + m + "-", dh, d);
    RemoveConcat(y + "-" + m + "-" + dh, ":", d);
    RemoveConcat(y + "-" + m + "-" + dh + ":", mi, d);
    RemoveConcat(y + "-" + m + "-" + dh + ":" + mi, ":", d);
    RemoveConcat(y + "-" + m + "-" + dh + ":" + mi + ":", sec, d);
  }

  /** The index of the first row that failed to decode, or |rows| if none did. */
  function FirstFailure(rows: seq<Row>): (k: nat)
    ensures k <= |rows|
    ensures forall j :: 0 <= j < k ==> rows[j].Decoded?
    ensures k < |rows| ==> rows[k].Malformed?
  {
    if rows == [] || rows[0].Malformed? then 0
    else 1 + FirstFailure(rows[1..])
  }

  /** The events of a file whose rows all decoded: row i normalised with id i. */
  function NormalizeAll(rows: seq<Row>, guids: seq<string>): (events: seq<EventData>)
    requires FirstFailure(rows) == |rows| && |guids| >= |rows|
    ensures |events| == |rows|
    ensures forall i :: 0 <= i < |rows| ==> events[i] == Normalize(rows[i].data, guids[i])
  {
    if rows == [] then []
    else [Normalize(rows[0].data, guids[0])] + NormalizeAll(rows[1..], guids[1..])
  }

  /**
   * Field by field: event i carries id i, the organizer, summary and
   * description of row i unchanged, and row i's time stamps compacted.
   */
  lemma NormalizeAllFields(rows: seq<Row>, guids: seq<string>)
    requires FirstFailure(rows) == |rows| && |guids| >= |rows|
    ensures forall i :: 0 <= i < |rows| ==>
              && NormalizeAll(rows, guids)[i].guid == guids[i]
              && NormalizeAll(rows, guids)[i].organizer == rows[i].data.organizer
              && NormalizeAll(rows, guids)[i].startTime == CompactTimestamp(rows[i].data.startTime)
              && NormalizeAll(rows, guids)[i].endTime == CompactTimestamp(rows[i].data.endTime)
              && NormalizeAll(rows, guids)[i].summary == rows[i].data.summary
              && NormalizeAll(rows, guids)[i].description == rows[i].data.description
  {
  }

  /**
   * `process_csv`: one EventData per decoded row, in row order; the i-th
   * row gets the i-th generated id. The first row that fails to decode
   * ends the loop with that row's error and no partial vector.
   */
  method ProcessCsv(rows: seq<Row>, guids: seq<string>) returns (r: Result<seq<EventData>>)
    requires |guids| >= |rows|
    ensures r.Ok? <==> FirstFailure(rows) == |rows|
    ensures r.Err? ==> r.error == MalformedInput(rows[FirstFailure(rows)].reason)
    ensures r.Ok? ==> r.value == NormalizeAll(rows, guids)
  {
    var events: seq<EventData> := [];
    var i := 0;
    while i < |rows|
      invariant 0 <= i <= |rows|
      invariant forall j :: 0 <= j < i ==> rows[j].Decoded?
      invariant |events| == i
      invariant forall j :: 0 <= j < i ==> events[j] == Normalize(rows[j].data, guids[j])
    {
      match rows[i]
      case Malformed(reason) =>
        return Err(MalformedInput(reason));
      case Decoded(row) =>
        events := events + [Normalize(row, guids[i])];
      i := i + 1;
    }
    return Ok(events);
  }
}
