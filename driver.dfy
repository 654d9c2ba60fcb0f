/**
 * The file a document is saved to, `create_calendar_event` as a whole and
 * the conversion loop of `main`.
 *
 * The file system is not modelled: whether creating the output directory
 * or saving the i-th file succeeds is an input (`io`), and a saved file is
 * recorded as a `SavedFile` in the order the saves happen.
 */
module Driver {
  import opened CharFilter
  import opened Events
  import opened Ics

  /** The characters deleted from a summary before it becomes a file name. */
  const PathSeparators: set<char> := {'/', '\\'}

  /**
   * The save path: the output directory, then the summary without `/` and
   * `\`, then `.ics`. No separator is put after the directory.
   */
  function SavePath(outputDir: string, summary: string): string
  {
    outputDir + Remove(summary, PathSeparators) + ".ics"
  }

  /**
   * The path starts with the directory exactly as given and ends in `.ics`;
   * between the two stands the filtered summary, in which no `/` and no `\`
   * occurs.
   */
  lemma SavePathParts(outputDir: string, summary: string)
    ensures var p := SavePath(outputDir, summary);
      && |p| == |outputDir| + |Remove(summary, PathSeparators)| + 4
      && p[..|outputDir|] == outputDir
      && p[|outputDir|..|p| - 4] == Remove(summary, PathSeparators)
      && p[|p| - 4..] == ".ics"
      && forall i :: |outputDir| <= i < |p| - 4 ==> p[i] != '/' && p[i] != '\\'
  {
    var p := SavePath(outputDir, summary);
    var name := Remove(summary, PathSeparators);
    assert p[|outputDir|..|p| - 4] == name;
    assert forall i :: |outputDir| <= i < |p| - 4 ==> p[i] == name[i - |outputDir|];
  }

  /** Two summaries give the same file exactly when they agree once filtered. */
  lemma SavePathSame(outputDir: string, s1: string, s2: string)
    ensures SavePath(outputDir, s1) == SavePath(outputDir, s2)
            <==> Remove(s1, PathSeparators) == Remove(s2, PathSeparators)
  {
    SavePathParts(outputDir, s1);
    SavePathParts(outputDir, s2);
  }

  /** Sample paths: the default directory, and no separator added after a bare one. */
  lemma SavePathExamples()
    ensures SavePath("./events/", "Standup") == "./events/Standup.ics"
    ensures SavePath("./events", "Standup") == "./eventsStandup.ics"
  {
    RemoveUnchanged("Standup", PathSeparators);
  }

  /** Sample path: both kinds of slash are stripped from the summary. */
  lemma SavePathStripsSlashes()
    ensures SavePath("out/", "a/b\\c") == "out/abc.ics"
  {
    assert "a/b\\c" == "a/b" + "\\c";
    RemoveConcat("a/b", "\\c", PathSeparators);
    assert Remove("a/b", PathSeparators) == "ab";
    assert Remove("\\c", PathSeparators) == "c";
  }

  /** What the filesystem does with one event's directory creation and save. */
  datatype IoOutcome = Succeeds | DirectoryFails | SaveFails

  /** One file written: where and what. */
  datatype SavedFile = SavedFile(path: string, calendar: Calendar)

  /** How a run ends. */
  datatype Outcome = Done | Failed(error: Error)

  /** The file `create_calendar_event` writes for a normalised row. */
  function FileFor(e: EventData, company: string, outputDir: string, escape: string -> string): SavedFile
  {
    SavedFile(SavePath(outputDir, e.summary), CalendarFor(e, company, escape))
  }

  /** The error a failed directory creation or save is reported as. */
  function IoError(io: IoOutcome, outputDir: string, summary: string): Error
  {
    if io == DirectoryFails then IoFailure(outputDir) else IoFailure(SavePath(outputDir, summary))
  }

  /**
   * `create_calendar_event`: build the document, make sure the directory
   * exists, save to the computed path; either I/O step fails the call.
   */
  method CreateCalendarEvent(e: EventData, company: string, outputDir: string,
                             escape: string -> string, io: IoOutcome)
    returns (r: Result<SavedFile>)
    ensures io == Succeeds ==> r == Ok(FileFor(e, company, outputDir, escape))
    ensures io == DirectoryFails ==> r == Err(IoFailure(outputDir))
    ensures io == SaveFails ==> r == Err(IoFailure(SavePath(outputDir, e.summary)))
  {
    var calendar := BuildCalendar(e, company, escape);
    if io == DirectoryFails {
      return Err(IoFailure(outputDir));
    }
    var savePath := SavePath(outputDir, e.summary);
    if io == SaveFails {
      return Err(IoFailure(savePath));
    }
    return Ok(SavedFile(savePath, calendar));
  }

  /**
   * What creating `events` in order, stopping at the first failure, leaves:
   * the first |saved| events were saved, each as its own file, every write
   * before the stop succeeded, and the run is done exactly when all were
   * saved; otherwise it failed with the error of the first failed write.
   */
  predicate CreatedInOrder(events: seq<EventData>, company: string, outputDir: string,
                           escape: string -> string, io: nat -> IoOutcome,
                           r: Outcome, saved: seq<SavedFile>)
  {
    && |saved| <= |events|
    && (forall i :: 0 <= i < |saved| ==>
          io(i) == Succeeds && saved[i] == FileFor(events[i], company, outputDir, escape))
    && (r == Done <==> |saved| == |events|)
    && (r != Done ==>
          && io(|saved|) != Succeeds
          && r == Failed(IoError(io(|saved|), outputDir, events[|saved|].summary)))
  }

  /** The `for` loop of `main`: one `create_calendar_event` per event, `?` on each. */
  method CreateEvents(events: seq<EventData>, company: string, outputDir: string,
                      escape: string -> string, io: nat -> IoOutcome)
    returns (r: Outcome, saved: seq<SavedFile>)
    ensures CreatedInOrder(events, company, outputDir, escape, io, r, saved)
  {
    saved := [];
    var i := 0;
    while i < |events|
      invariant 0 <= i <= |events|
      invariant |saved| == i
      invariant forall j :: 0 <= j < i ==>
                  io(j) == Succeeds && saved[j] == FileFor(events[j], company, outputDir, escape)
    {
      var created := CreateCalendarEvent(events[i], company, outputDir, escape, io(i));
      if created.Err? {
        return Failed(created.error), saved;
      }
      saved := saved + [created.value];
      i := i + 1;
    }
    return Done, saved;
  }

  /**
   * The run is done exactly when no write fails; a failed run stopped at the
   * first failing write and saved exactly the files before it.
   */
  lemma CreatedInOrderDone(events: seq<EventData>, company: string, outputDir: string,
                           escape: string -> string, io: nat -> IoOutcome,
                           r: Outcome, saved: seq<SavedFile>)
    requires CreatedInOrder(events, company, outputDir, escape, io, r, saved)
    ensures r == Done <==> forall i :: 0 <= i < |events| ==> io(i) == Succeeds
    ensures r != Done ==> exists k :: 0 <= k < |events| && io(k) != Succeeds && |saved| == k
                                     && forall j :: 0 <= j < k ==> io(j) == Succeeds
  {
  }

  /** Distinct ids give distinct UIDs in the saved documents. */
  lemma CreatedInOrderUids(events: seq<EventData>, company: string, outputDir: string,
                           escape: string -> string, io: nat -> IoOutcome,
                           r: Outcome, saved: seq<SavedFile>)
    requires CreatedInOrder(events, company, outputDir, escape, io, r, saved)
    requires forall i, j :: 0 <= i < j < |events| ==> events[i].guid != events[j].guid
    ensures forall i :: 0 <= i < |saved| ==> saved[i].calendar.events[0].uid == events[i].guid
    ensures forall i, j :: 0 <= i < j < |saved| ==>
              saved[i].calendar.events[0].uid != saved[j].calendar.events[0].uid
  {
  }

  /**
   * The conversion branch of `main`: process all rows, then create the
   * events in row order, stopping at the first failure. A row that does
   * not decode means nothing is written; a failed write leaves the files
   * of the rows before it written and none after it.
   */
  method Convert(rows: seq<Row>, guids: seq<string>, company: string, outputDir: string,
                 escape: string -> string, io: nat -> IoOutcome)
    returns (r: Outcome, saved: seq<SavedFile>)
    requires |guids| >= |rows|
    ensures FirstFailure(rows) < |rows| ==>
              r == Failed(MalformedInput(rows[FirstFailure(rows)].reason)) && saved == []
    ensures FirstFailure(rows) == |rows| ==>
              CreatedInOrder(NormalizeAll(rows, guids), company, outputDir, escape, io, r, saved)
  {
    var processed := ProcessCsv(rows, guids);
    if processed.Err? {
      return Failed(processed.error), [];
    }
    r, saved := CreateEvents(processed.value, company, outputDir, escape, io);
  }

  /**
   * After a conversion whose rows all decoded, the saved document of row i
   * has the i-th id as its UID, so pairwise distinct ids give pairwise
   * distinct UIDs.
   */
  lemma ConvertUids(rows: seq<Row>, guids: seq<string>, company: string, outputDir: string,
                    escape: string -> string, io: nat -> IoOutcome,
                    r: Outcome, saved: seq<SavedFile>)
    requires FirstFailure(rows) == |rows| && |guids| >= |rows|
    requires forall i, j :: 0 <= i < j < |rows| ==> guids[i] != guids[j]
    requires CreatedInOrder(NormalizeAll(rows, guids), company, outputDir, escape, io, r, saved)
    ensures forall i :: 0 <= i < |saved| ==> saved[i].calendar.events[0].uid == guids[i]
    ensures forall i, j :: 0 <= i < j < |saved| ==>
              saved[i].calendar.events[0].uid != saved[j].calendar.events[0].uid
  {
    var events := NormalizeAll(rows, guids);
    assert forall i :: 0 <= i < |events| ==> events[i].guid == guids[i];
    CreatedInOrderUids(events, company, outputDir, escape, io, r, saved);
  }

  /**
   * The files this run saved, folded in save order: each path holds the
   * document saved there last (`save_file` overwrites). Files that were in
   * the directory before the run are not part of it.
   */
  function Directory(saved: seq<SavedFile>): (dir: map<string, Calendar>)
    ensures forall p :: p in dir <==> exists i :: 0 <= i < |saved| && saved[i].path == p
  {
    if saved == [] then map[]
    else
      var last := saved[|saved| - 1];
      var dir := Directory(saved[..|saved| - 1])[last.path := last.calendar];
      assert forall i :: 0 <= i < |saved| - 1 ==> saved[..|saved| - 1][i] == saved[i];
      dir
  }

  /** The document at a path is the one saved there by the last save to it. */
  lemma {:induction false} DirectoryLastWins(saved: seq<SavedFile>, i: nat)
    requires i < |saved|
    requires forall j :: i < j < |saved| ==> saved[j].path != saved[i].path
    ensures saved[i].path in Directory(saved)
    ensures Directory(saved)[saved[i].path] == saved[i].calendar
  {
    if i < |saved| - 1 {
      var prefix := saved[..|saved| - 1];
      assert forall j :: i < j < |prefix| ==> prefix[j] == saved[j];
      DirectoryLastWins(prefix, i);
    }
  }

  /** When all save paths differ, there is one file per saved row. */
  lemma {:induction false} DirectoryOneFilePerSave(saved: seq<SavedFile>)
    requires forall i, j :: 0 <= i < j < |saved| ==> saved[i].path != saved[j].path
    ensures |Directory(saved)| == |saved|
  {
    if saved != [] {
      var prefix := saved[..|saved| - 1];
      var last := saved[|saved| - 1];
      assert forall i, j :: 0 <= i < j < |prefix| ==> prefix[i].path != prefix[j].path;
      DirectoryOneFilePerSave(prefix);
      assert forall k :: 0 <= k < |prefix| ==> prefix[k].path != last.path by {
        assert forall k :: 0 <= k < |prefix| ==> prefix[k] == saved[k];
      }
    }
  }

  /**
   * Rows whose summaries differ only in `/` or `\` share one file: the
   * second save replaces the first, so two rows leave one file.
   */
  lemma CollidingSummaries(f1: Calendar, f2: Calendar)
    ensures SavePath("./events/", "a/b") == SavePath("./events/", "ab")
    ensures var saved := [SavedFile(SavePath("./events/", "a/b"), f1),
                          SavedFile(SavePath("./events/", "ab"), f2)];
            |Directory(saved)| == 1 && Directory(saved)[SavePath("./events/", "ab")] == f2
  {
    assert Remove("a/b", PathSeparators) == "ab";
    assert Remove("ab", PathSeparators) == "ab";
    var p := SavePath("./events/", "ab");
    var saved := [SavedFile(p, f1), SavedFile(p, f2)];
    assert saved[..1] == [saved[0]];
    assert Directory(saved) == map[p := f2];
  }
}
