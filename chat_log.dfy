/**
 * The transcript file chat_log.csv of chatbot.py: `save_chat_history` pairs
 * the history into (user, bot, timestamp) rows under a header written only
 * into an empty file, `display_chat_history` lists the well-formed rows after
 * the first, and `clear_chat_history` deletes the file.
 *
 * The file is a sequence of CSV rows, each a sequence of fields; `None` while
 * the file does not exist. The clock is a parameter `now`: `now(j)` is the
 * text `datetime.now()` gives in the iteration that writes row `j`.
 */
module ChatLog {
  import opened Wrappers
  import opened ChatSession

  type Row = seq<string>

  const Header: Row := ["User", "Bot", "Timestamp"]

  // ---------------------------------------------------------------------
  // Pairing the history into rows

  /** The row for the turn made of entries `2 * j` and `2 * j + 1`. */
  function PairRow(h: seq<Message>, now: nat -> string, j: nat): (r: Row)
    requires 2 * j + 1 < |h|
    ensures |r| == 3
  {
    [h[2 * j].content, h[2 * j + 1].content, now(j)]
  }

  /** The first `n` rows that pairing `h` produces: row `j` for turn `j`. */
  function Rows(h: seq<Message>, now: nat -> string, n: nat): (r: seq<Row>)
    requires 2 * n <= |h|
    ensures |r| == n && forall j :: 0 <= j < n ==> r[j] == PairRow(h, now, j)
  {
    if n == 0 then [] else Rows(h, now, n - 1) + [PairRow(h, now, n - 1)]
  }

  /** All rows one save writes for history `h`. */
  function PairRows(h: seq<Message>, now: nat -> string): seq<Row>
  {
    Rows(h, now, |h| / 2)
  }

  /** A save writes `|h| / 2` rows; row `j` holds the texts of entries `2 * j`
      and `2 * j + 1` and the clock reading of its iteration. */
  lemma PairRowsShape(h: seq<Message>, now: nat -> string)
    ensures |PairRows(h, now)| == |h| / 2
    ensures forall j :: 0 <= j < |h| / 2 ==>
              PairRows(h, now)[j] == [h[2 * j].content, h[2 * j + 1].content, now(j)]
  {
  }

  /** The message texts of a history, in order. */
  function Contents(h: seq<Message>): (c: seq<string>)
    ensures |c| == |h| && forall k :: 0 <= k < |h| ==> c[k] == h[k].content
  {
    seq(|h|, k requires 0 <= k < |h| => h[k].content)
  }

  /** The user and bot texts of a list of rows, read back in order. */
  function Transcript(rows: seq<Row>): seq<string>
    requires forall k :: 0 <= k < |rows| ==> |rows[k]| >= 2
  {
    if rows == [] then []
    else
      var last := rows[|rows| - 1];
      Transcript(rows[..|rows| - 1]) + [last[0], last[1]]
  }

  lemma {:induction false} TranscriptOfRows(h: seq<Message>, now: nat -> string, n: nat)
    requires 2 * n <= |h|
    ensures forall k :: 0 <= k < |Rows(h, now, n)| ==> |Rows(h, now, n)[k]| >= 2
    ensures Transcript(Rows(h, now, n)) == Contents(h[..2 * n])
  {
    if n > 0 {
      TranscriptOfRows(h, now, n - 1);
      var rows := Rows(h, now, n);
      assert rows[..n - 1] == Rows(h, now, n - 1);
      ContentsGrow(h, 2 * n - 2);
    }
  }

  lemma ContentsGrow(h: seq<Message>, m: nat)
    requires m + 2 <= |h|
    ensures Contents(h[..m + 2]) == Contents(h[..m]) + [h[m].content, h[m + 1].content]
  {
  }

  /** Reading the saved rows back yields the history's texts in order, except
      a trailing entry without a partner, which is dropped. */
  lemma PairRowsRoundTrip(h: seq<Message>, now: nat -> string)
    ensures forall k :: 0 <= k < |PairRows(h, now)| ==> |PairRows(h, now)[k]| >= 2
    ensures Transcript(PairRows(h, now)) == Contents(h[..|h| - |h| % 2])
    ensures |h| % 2 == 0 ==> Transcript(PairRows(h, now)) == Contents(h)
  {
    TranscriptOfRows(h, now, |h| / 2);
    assert h[..|h|] == h;
  }

  // ---------------------------------------------------------------------
  // The file

  /** The rows of the file after `open(..., "a")`, which creates it empty. */
  function Existing(file: Option<seq<Row>>): seq<Row>
  {
    if file.None? then [] else file.value
  }

  /** The file after one save of history `h` onto `rows`: a header only if
      the file was empty, then the paired rows. */
  function AfterSave(rows: seq<Row>, h: seq<Message>, now: nat -> string): seq<Row>
  {
    rows + (if rows == [] then [Header] else []) + PairRows(h, now)
  }

  /** Saving again appends data rows only: no second header. */
  lemma SaveAgainAddsNoHeader(rows: seq<Row>, h1: seq<Message>, n1: nat -> string,
                              h2: seq<Message>, n2: nat -> string)
    ensures AfterSave(rows, h1, n1) != []
    ensures AfterSave(AfterSave(rows, h1, n1), h2, n2) == AfterSave(rows, h1, n1) + PairRows(h2, n2)
  {
  }

  /** A data row: three fields, and not the header. */
  predicate IsDataRow(r: Row)
  {
    |r| == 3 && r != Header
  }

  /** A log as saves leave it: empty, or the header followed by data rows, so
      the header occurs exactly once, at the top. */
  predicate ValidLog(rows: seq<Row>)
  {
    rows == [] || (rows[0] == Header && forall k :: 1 <= k < |rows| ==> IsDataRow(rows[k]))
  }

  /** Saving a history of labelled messages keeps a log valid: every message
      text starts with "User: " or "Bot: ", so no data row can equal the
      header. */
  lemma SaveKeepsLogValid(rows: seq<Row>, h: seq<Message>, now: nat -> string)
    requires ValidLog(rows) && Labelled(h)
    ensures ValidLog(AfterSave(rows, h, now))
  {
  }

  /** The rows `display_chat_history` shows among `rows`: those of exactly
      three fields, in file order. */
  function KeepFull(rows: seq<Row>): (r: seq<Row>)
    ensures forall k :: 0 <= k < |r| ==> |r[k]| == 3 && r[k] in rows
  {
    if rows == [] then []
    else
      var last := rows[|rows| - 1];
      KeepFull(rows[..|rows| - 1]) + (if |last| == 3 then [last] else [])
  }

  /** What is shown for a file: its first row is skipped, whatever it is. */
  function Shown(rows: seq<Row>): (r: seq<Row>)
    ensures forall k :: 0 <= k < |r| ==> rows != [] && |r[k]| == 3 && r[k] in rows[1..]
  {
    if rows == [] then [] else KeepFull(rows[1..])
  }

  lemma {:induction false} KeepFullAppend(a: seq<Row>, b: seq<Row>)
    ensures KeepFull(a + b) == KeepFull(a) + KeepFull(b)
  {
    if b != [] {
      assert (a + b)[..|a + b| - 1] == a + b[..|b| - 1];
      KeepFullAppend(a, b[..|b| - 1]);
    } else {
      assert a + b == a;
    }
  }

  lemma {:induction false} KeepFullOfFull(rows: seq<Row>)
    requires forall k :: 0 <= k < |rows| ==> |rows[k]| == 3
    ensures KeepFull(rows) == rows
  {
    if rows != [] {
      KeepFullOfFull(rows[..|rows| - 1]);
    }
  }

  /** A log as saves leave it shows every row after the header. */
  lemma ShownOfValidLog(rows: seq<Row>)
    requires ValidLog(rows)
    ensures rows != [] ==> Shown(rows) == rows[1..]
  {
    if rows != [] {
      KeepFullOfFull(rows[1..]);
    }
  }

  /** Saving then displaying, for any file on disk: what is shown afterwards
      is what was shown before, followed by exactly the new pairs. */
  lemma SaveThenDisplay(rows: seq<Row>, h: seq<Message>, now: nat -> string)
    ensures Shown(AfterSave(rows, h, now)) == Shown(rows) + PairRows(h, now)
  {
    var pairs := PairRows(h, now);
    var top := if rows == [] then [Header] else rows;
    assert AfterSave(rows, h, now) == top + pairs;
    assert (top + pairs)[1..] == top[1..] + pairs;
    KeepFullOfFull(pairs);
    KeepFullAppend(top[1..], pairs);
  }

  class LogFile {
    var file: Option<seq<Row>>

    /** The file as found on disk; `None` if it does not exist. */
    constructor (onDisk: Option<seq<Row>>)
      ensures file == onDisk
    {
      file := onDisk;
    }

    /** `save_chat_history`: open for append (creating the file), write the
        header if the file is empty, then one row per complete pair of
        entries; a trailing unpaired entry writes nothing. */
    method SaveChatHistory(history: seq<Message>, now: nat -> string)
      modifies this
      ensures file == Some(AfterSave(Existing(old(file)), history, now))
      ensures ValidLog(Existing(old(file))) && Labelled(history) ==> ValidLog(file.value)
    {
      file := Some(Existing(file));
      var start := file.value;
      if start == [] {
        file := Some(file.value + [Header]);
      }
      ghost var base := file.value;
      ghost var written := 0;
      assert base + Rows(history, now, 0) == base;
      var i := 0;
      while i < |history|
        invariant 2 * written <= |history|
        invariant i == 2 * written || (i == 2 * written + 2 && 2 * written + 1 == |history|)
        invariant file == Some(base + Rows(history, now, written))
      {
        var userMessage := history[i];
        var botMessage := if i + 1 < |history| then Some(history[i + 1]) else None;
        var timestamp := now(i / 2);
        if botMessage.Some? {
          file := Some(file.value + [[userMessage.content, botMessage.value.content, timestamp]]);
          assert i / 2 == written;
          assert Rows(history, now, written + 1) == Rows(history, now, written) + [PairRow(history, now, written)];
          assert file.value == base + Rows(history, now, written + 1);
          written := written + 1;
        }
        i := i + 2;
      }
      assert written == |history| / 2;
      if ValidLog(start) && Labelled(history) {
        SaveKeepsLogValid(start, history, now);
      }
    }

    /** `clear_chat_history`: delete the file; `cleared` tells whether there
        was one (the success message) or not (the error message). */
    method ClearChatHistory() returns (cleared: bool)
      modifies this
      ensures cleared == old(file).Some? && file == None
    {
      cleared := file.Some?;
      file := None;
    }

    /** `display_chat_history`: `None` ("No chat history found") if there is
        no file; otherwise the rows after the first that have three fields. */
    method DisplayChatHistory() returns (shown: Option<seq<Row>>)
      ensures shown == if file.None? then None else Some(Shown(file.value))
    {
      if file.None? {
        return None;
      }
      var rows := file.value;
      if rows == [] {
        return Some([]);
      }
      var result := [];
      for k := 1 to |rows|
        invariant result == KeepFull(rows[1..k])
      {
        var row := rows[k];
        if |row| == 3 {
          result := result + [row];
        }
        assert rows[1..k + 1][..k - 1] == rows[1..k];
      }
      assert rows[1..|rows|] == rows[1..];
      shown := Some(result);
    }
  }
}
