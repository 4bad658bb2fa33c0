/** The scan of an image's /etc/passwd for user ids that the platform reserves. */
module Passwd {
  import opened Options
  import opened Text

  const FIRST_RESERVED := 1001
  const LAST_RESERVED := 9999

  function Report(uid: int, user: string): string {
    "UID " + Decimal(uid) + " (" + user + ")"
  }

  predicate Reserved(uid: int) { FIRST_RESERVED <= uid <= LAST_RESERVED }

  /** The reports of one line: at most one. */
  function LineReports(line: string): seq<string> {
    var fields := Split(line, ':');
    if |fields| < 3 then []
    else
      match Atoi(fields[2])
      case None => []
      case Some(uid) => if Reserved(uid) then [Report(uid, fields[0])] else []
  }

  function LinesReports(lines: seq<string>): seq<string> {
    if lines == [] then []
    else LinesReports(lines[..|lines| - 1]) + LineReports(lines[|lines| - 1])
  }

  /** A line-by-line filter of the text. */
  function Scan(text: string): seq<string> { LinesReports(Split(text, '\n')) }

  method CollectCollisions(output: string) returns (collisions: seq<string>)
    ensures collisions == Scan(output)
  {
    collisions := [];
    var lines := Split(output, '\n');
    for i := 0 to |lines|
      invariant collisions == LinesReports(lines[..i])
    {
      var line := lines[i];
      assert lines[..i + 1][..i] == lines[..i];
      if line == "" {
        continue;
      }
      var fields := Split(line, ':');
      if |fields| < 3 {
        continue;
      }
      var uid := Atoi(fields[2]);
      if uid.None? {
        continue;
      }
      if uid.value >= 1001 && uid.value <= 9999 {
        collisions := collisions + ["UID " + Decimal(uid.value) + " (" + fields[0] + ")"];
      }
    }
    assert lines[..|lines|] == lines;
  }

  // ------------------------------------------------------------ round trip

  datatype Entry = Entry(user: string, password: string, uid: int, rest: seq<string>)

  predicate PlainField(s: string) { ':' !in s && '\n' !in s }

  ghost predicate Plain(e: Entry) {
    && PlainField(e.user) && PlainField(e.password)
    && (forall f | f in e.rest :: PlainField(f))
    && MIN_INT <= e.uid <= MAX_INT
  }

  function Fields(e: Entry): seq<string> { [e.user, e.password, Decimal(e.uid)] + e.rest }

  function PrintEntry(e: Entry): string { Join(Fields(e), ':') }

  function Lines(entries: seq<Entry>): seq<string> {
    seq(|entries|, i requires 0 <= i < |entries| => PrintEntry(entries[i]))
  }

  /** The file: every entry on its own newline-terminated line. */
  function Print(entries: seq<Entry>): string { Join(Lines(entries) + [""], '\n') }

  /** The entries with a reserved id, in order and with multiplicity. */
  function Expected(entries: seq<Entry>): seq<string> {
    if entries == [] then []
    else
      var e := entries[|entries| - 1];
      Expected(entries[..|entries| - 1]) + if Reserved(e.uid) then [Report(e.uid, e.user)] else []
  }

  lemma {:induction false} JoinFree(parts: seq<string>, sep: char, c: char)
    requires c != sep && forall p | p in parts :: c !in p
    ensures c !in Join(parts, sep)
  {
    if |parts| > 1 {
      JoinFree(parts[1..], sep, c);
    }
  }

  lemma FieldsPlain(e: Entry)
    requires Plain(e)
    ensures forall f | f in Fields(e) :: PlainField(f)
  {
  }

  lemma LineOfEntry(e: Entry)
    requires Plain(e)
    ensures LineReports(PrintEntry(e)) == if Reserved(e.uid) then [Report(e.uid, e.user)] else []
    ensures '\n' !in PrintEntry(e)
  {
    FieldsPlain(e);
    SplitJoin(Fields(e), ':');
    AtoiDecimal(e.uid);
    JoinFree(Fields(e), ':', '\n');
  }

  lemma {:induction false} LinesOfEntries(entries: seq<Entry>)
    requires forall e | e in entries :: Plain(e)
    ensures LinesReports(Lines(entries)) == Expected(entries)
  {
    if entries != [] {
      var n, lines := |entries| - 1, Lines(entries);
      LinesOfEntries(entries[..n]);
      LineOfEntry(entries[n]);
      assert lines[..n] == Lines(entries[..n]);
    }
  }

  lemma NoNewlines(entries: seq<Entry>)
    requires forall e | e in entries :: Plain(e)
    ensures forall l | l in Lines(entries) :: '\n' !in l
  {
    forall i | 0 <= i < |entries| ensures '\n' !in PrintEntry(entries[i]) {
      LineOfEntry(entries[i]);
    }
  }

  /** Scanning undoes printing, for every list of plain entries. */
  lemma ScanPrint(entries: seq<Entry>)
    requires forall e | e in entries :: Plain(e)
    ensures Scan(Print(entries)) == Expected(entries)
  {
    var lines := Lines(entries) + [""];
    LinesOfEntries(entries);
    NoNewlines(entries);
    SplitJoin(lines, '\n');
    assert lines[..|lines| - 1] == Lines(entries);
    SplitFree("", ':');
  }

  lemma {:induction false} ExpectedEmpty(entries: seq<Entry>)
    ensures Expected(entries) == [] <==> forall e | e in entries :: !Reserved(e.uid)
  {
    if entries != [] {
      var n := |entries| - 1;
      ExpectedEmpty(entries[..n]);
      assert entries == entries[..n] + [entries[n]];
    }
  }

  // ------------------------------------------------------------ any text

  /** A line of at least three fields whose third is a numeral between 1001 and 9999. */
  ghost predicate Offends(line: string) {
    var fields := Split(line, ':');
    |fields| >= 3 && exists n :: Numeral(fields[2], n) && 1001 <= n <= 9999
  }

  lemma OffendingLine(line: string)
    ensures LineReports(line) != [] <==> Offends(line)
  {
    var fields := Split(line, ':');
    if |fields| >= 3 {
      forall n ensures Atoi(fields[2]) == Some(n) <==> Numeral(fields[2], n) && MIN_INT <= n <= MAX_INT {
        AtoiExactly(fields[2], n);
      }
    }
  }

  /** What a line reports, by its fields. */
  lemma LineExactly(fields: seq<string>)
    requires fields != [] && forall f | f in fields :: ':' !in f
    ensures LineReports(Join(fields, ':')) ==
      if |fields| >= 3 && Atoi(fields[2]).Some? && 1001 <= Atoi(fields[2]).value <= 9999
      then ["UID " + Decimal(Atoi(fields[2]).value) + " (" + fields[0] + ")"] else []
  {
    SplitJoin(fields, ':');
  }

  /** What a text reports, line by line and in order. */
  lemma ScanLines(lines: seq<string>, last: string)
    requires '\n' !in last && forall l | l in lines :: '\n' !in l
    ensures Scan(Join(lines + [last], '\n')) ==
      (if lines == [] then [] else Scan(Join(lines, '\n'))) + LineReports(last)
  {
    SplitJoin(lines + [last], '\n');
    assert (lines + [last])[..|lines|] == lines;
    if lines != [] {
      SplitJoin(lines, '\n');
    }
  }

  lemma {:induction false} NoReports(lines: seq<string>)
    ensures LinesReports(lines) == [] <==> forall line | line in lines :: !Offends(line)
    decreases |lines|
  {
    if lines != [] {
      var n := |lines| - 1;
      NoReports(lines[..n]);
      OffendingLine(lines[n]);
      assert lines == lines[..n] + [lines[n]];
    }
  }

  /** Nothing is reported exactly if no line offends, whatever the text. */
  lemma ScanEmpty(text: string)
    ensures Scan(text) == [] <==> forall line | line in Split(text, '\n') :: !Offends(line)
  {
    NoReports(Split(text, '\n'));
  }
}
