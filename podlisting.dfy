/** Reading the text that `kubectl get pods -o wide | grep <label>` and
    `kubectl get nodes -o wide` print, and the decision the resolve loop takes
    after one such poll. */
module PodListing {

  import opened Outcome
  import opened Text

  /** Pod names (column 0) and pod IPs (fourth column from the end), one entry
      per non-empty output line, in output order. */
  datatype Listing = Listing(names: seq<string>, ips: seq<string>)

  /** The non-empty lines of the output: `[x for x in out.split('\n') if x != '']`. */
  function Rows(out: string): seq<string> {
    NonEmpty(Lines(out))
  }

  /** `[row.split() for row in rows]`: the fields of every row. */
  function Table(rows: seq<string>): (t: seq<seq<string>>)
    ensures |t| == |rows| && forall k :: 0 <= k < |rows| ==> t[k] == Words(rows[k])
  {
    seq(|rows|, k requires 0 <= k < |rows| => Words(rows[k]))
  }

  /** `[fields[idx] for fields in table]` with Python indexing: raises
      IndexError as soon as one row is too short for `idx`. */
  function Column(table: seq<seq<string>>, idx: int): (r: Result<seq<string>>)
    ensures r.Ok? <==> forall k :: 0 <= k < |table| ==> At(table[k], idx).Ok?
    ensures idx >= 0 ==> (r.Ok? <==> forall k :: 0 <= k < |table| ==> idx < |table[k]|)
    ensures r.Ok? ==> |r.value| == |table| &&
                      forall k :: 0 <= k < |table| ==> r.value[k] == At(table[k], idx).value
    ensures r.Raise? ==> r.exc == IndexError
  {
    if table == [] then Ok([])
    else match At(table[0], idx)
      case Raise(e) => Raise(e)
      case Ok(x) =>
        match Column(table[1..], idx)
        case Raise(e) => Raise(e)
        case Ok(rest) =>
          assert forall k :: 1 <= k < |table| ==> table[k] == table[1..][k - 1];
          Ok([x] + rest)
  }

  /** The IP comprehension (`split()[-4]`) runs first, then the name
      comprehension (`split()[0]`), over the same output (k8s/main.py:268-269
      and 280-281). A row with four fields has a first one, so the names never
      fail once the IPs succeed. */
  function Parse(out: string): (r: Result<Listing>)
    ensures var t := Table(Rows(out));
      && (r.Ok? <==> forall k :: 0 <= k < |t| ==> |t[k]| >= 4)
      && (r.Ok? ==> |r.value.names| == |r.value.ips| == |t| &&
                    forall k :: 0 <= k < |t| ==>
                      r.value.names[k] == t[k][0] && r.value.ips[k] == t[k][|t[k]| - 4])
  {
    var t := Table(Rows(out));
    match Column(t, -4)
    case Raise(e) => Raise(e)
    case Ok(ips) =>
      match Column(t, 0)
      case Raise(e) => Raise(e)
      case Ok(names) => Ok(Listing(names, ips))
  }

  /** The loop's exit test: `"<none>" not in ipList`. No count is checked, so
      an empty listing is ready too. */
  predicate Ready(ips: seq<string>) {
    "<none>" !in ips
  }

  /** What one iteration of the `while True` resolve loop does with one poll's
      output: leave with the listing, sleep and poll again, or raise. */
  datatype Poll = Resolved(listing: Listing) | Waiting | Failed(exc: Exc)

  function PollOnce(out: string): (p: Poll)
    ensures p.Resolved? <==> Parse(out).Ok? && Ready(Parse(out).value.ips)
    ensures p.Waiting? <==> Parse(out).Ok? && !Ready(Parse(out).value.ips)
    ensures p.Resolved? ==> p.listing == Parse(out).value
  {
    match Parse(out)
    case Raise(e) => Failed(e)
    case Ok(l) => if Ready(l.ips) then Resolved(l) else Waiting
  }

  // ---------------------------------------------------------------------------
  // What kubectl prints, as a reference for the parser
  // ---------------------------------------------------------------------------

  /** One pod line of `kubectl get pods -o wide`: NAME READY STATUS RESTARTS
      AGE IP NODE NOMINATED-NODE READINESS-GATES. RESTARTS may print as several
      words ("2 (5m ago)"), which is why the IP is taken from the end. */
  datatype PodRow = PodRow(name: string, ready: string, status: string,
                           restarts: seq<string>, age: string, ip: string,
                           node: string, nominated: string, gates: string)

  function Fields(r: PodRow): seq<string> {
    [r.name, r.ready, r.status] + r.restarts + [r.age, r.ip, r.node, r.nominated, r.gates]
  }

  /** How kubectl pads one line into columns: whitespace before the first
      field, between neighbouring fields (single spaces once `gaps` runs out)
      and after the last. */
  datatype Padding = Padding(lead: string, gaps: seq<string>, trail: string)

  /** A printed line: a pod and the padding it is printed with. */
  datatype PodLine = PodLine(row: PodRow, pad: Padding)

  predicate Blank(s: string) {
    AllSpace(s) && '\n' !in s
  }

  /** Every field is a word and the padding is whitespace other than newlines,
      with at least one character between neighbouring fields. */
  predicate WellFormed(l: PodLine) {
    && (forall w <- Fields(l.row) :: IsWord(w))
    && Blank(l.pad.lead) && Blank(l.pad.trail)
    && forall g <- l.pad.gaps :: IsGap(g) && '\n' !in g
  }

  function RowLine(l: PodLine): string {
    l.pad.lead + Spread(Fields(l.row), l.pad.gaps) + l.pad.trail
  }

  function RowLines(lines: seq<PodLine>): (ls: seq<string>)
    ensures |ls| == |lines|
    ensures forall k :: 0 <= k < |lines| ==> ls[k] == RowLine(lines[k])
  {
    if lines == [] then [] else [RowLine(lines[0])] + RowLines(lines[1..])
  }

  /** The whole output: one line per pod, each ended by a newline. */
  function Render(lines: seq<PodLine>): string {
    if lines == [] then [] else Join(RowLines(lines), '\n') + ['\n']
  }

  function NamesOf(lines: seq<PodLine>): (r: seq<string>)
    ensures |r| == |lines| && forall k :: 0 <= k < |lines| ==> r[k] == lines[k].row.name
  {
    if lines == [] then [] else [lines[0].row.name] + NamesOf(lines[1..])
  }

  function IpsOf(lines: seq<PodLine>): (r: seq<string>)
    ensures |r| == |lines| && forall k :: 0 <= k < |lines| ==> r[k] == lines[k].row.ip
  {
    if lines == [] then [] else [lines[0].row.ip] + IpsOf(lines[1..])
  }

  lemma JoinSnocEmpty(ls: seq<string>, sep: char)
    requires ls != []
    ensures Join(ls + [[]], sep) == Join(ls, sep) + [sep]
  {
    if |ls| == 1 {
      assert (ls + [[]])[1..] == [[]];
    } else {
      assert (ls + [[]])[1..] == ls[1..] + [[]];
      JoinSnocEmpty(ls[1..], sep);
    }
  }

  lemma {:induction false} NonEmptyDropsLastEmpty(ls: seq<string>)
    requires forall l <- ls :: l != []
    ensures NonEmpty(ls + [[]]) == ls
  {
    if ls == [] {
      assert NonEmpty([[]]) == NonEmpty([]);
    } else {
      assert (ls + [[]])[0] == ls[0] && ls[0] in ls;
      assert (ls + [[]])[1..] == ls[1..] + [[]];
      assert forall l <- ls[1..] :: l in ls;
      NonEmptyDropsLastEmpty(ls[1..]);
      assert [ls[0]] + ls[1..] == ls;
    }
  }

  lemma RowLineWords(l: PodLine)
    requires WellFormed(l)
    ensures Words(RowLine(l)) == Fields(l.row)
    ensures RowLine(l) != [] && '\n' !in RowLine(l)
  {
    var fs, p := Fields(l.row), l.pad;
    assert forall g <- p.gaps :: IsGap(g);
    WordsOfSpread(p.lead, fs, p.gaps, p.trail);
    assert fs[0] in fs;
    SpreadHead(fs, p.gaps);
    NoNewlineInSpread(fs, p.gaps);
  }

  lemma {:induction false} NoNewlineInSpread(ws: seq<string>, gaps: seq<string>)
    requires forall w <- ws :: IsWord(w)
    requires forall g <- gaps :: '\n' !in g
    ensures '\n' !in Spread(ws, gaps)
  {
    if |ws| == 1 {
      assert IsWord(ws[0]);
      assert IsSpace('\n');
    } else if |ws| > 1 {
      assert IsWord(ws[0]);
      assert IsSpace('\n');
      var g := if gaps == [] then " " else gaps[0];
      var more := if gaps == [] then [] else gaps[1..];
      assert '\n' !in g by { if gaps != [] { assert gaps[0] in gaps; } }
      assert forall w <- ws[1..] :: w in ws;
      assert forall h <- more :: h in gaps;
      NoNewlineInSpread(ws[1..], more);
      assert '\n' !in ws[0];
    }
  }

  lemma RowLinesWords(lines: seq<PodLine>)
    requires forall l <- lines :: WellFormed(l)
    ensures forall k :: 0 <= k < |lines| ==>
      Words(RowLines(lines)[k]) == Fields(lines[k].row) && RowLines(lines)[k] != [] &&
      '\n' !in RowLines(lines)[k]
  {
    forall k | 0 <= k < |lines|
      ensures Words(RowLines(lines)[k]) == Fields(lines[k].row) && RowLines(lines)[k] != [] &&
              '\n' !in RowLines(lines)[k]
    {
      assert lines[k] in lines;
      RowLineWords(lines[k]);
    }
  }

  lemma RowsOfLines(ls: seq<string>)
    requires forall l <- ls :: l != [] && '\n' !in l
    ensures Rows(if ls == [] then [] else Join(ls, '\n') + ['\n']) == ls
  {
    if ls != [] {
      JoinSnocEmpty(ls, '\n');
      var ls' := ls + [[]];
      assert forall l <- ls' :: l in ls || l == [];
      LinesOfJoin(ls');
      NonEmptyDropsLastEmpty(ls);
    }
  }

  lemma RowsOfRender(lines: seq<PodLine>)
    requires forall l <- lines :: WellFormed(l)
    ensures Rows(Render(lines)) == RowLines(lines)
    ensures forall k :: 0 <= k < |lines| ==> Words(RowLines(lines)[k]) == Fields(lines[k].row)
  {
    var ls := RowLines(lines);
    RowLinesWords(lines);
    assert forall l <- ls :: l != [] && '\n' !in l;
    RowsOfLines(ls);
  }

  lemma FieldsAt(r: PodRow)
    ensures |Fields(r)| >= 8
    ensures Fields(r)[0] == r.name && Fields(r)[|Fields(r)| - 4] == r.ip
  {
    var tail := [r.age, r.ip, r.node, r.nominated, r.gates];
    assert Fields(r) == ([r.name, r.ready, r.status] + r.restarts) + tail;
    assert Fields(r)[|Fields(r)| - 4] == tail[1];
  }

  /** Parsing what kubectl prints for a list of pods, however it pads the
      columns, gives back, in order, the names and IPs of those pods: the two
      lists have one entry per pod and entry k of each comes from pod k. */
  lemma ParseRender(lines: seq<PodLine>)
    requires forall l <- lines :: WellFormed(l)
    ensures Parse(Render(lines)) == Ok(Listing(NamesOf(lines), IpsOf(lines)))
  {
    RowsOfRender(lines);
    var t := Table(RowLines(lines));
    forall k | 0 <= k < |lines|
      ensures |t[k]| >= 4 && t[k][0] == lines[k].row.name && t[k][|t[k]| - 4] == lines[k].row.ip
    {
      assert t[k] == Fields(lines[k].row);
      FieldsAt(lines[k].row);
    }
    var p := Parse(Render(lines));
    assert p.Ok?;
    assert p.value.ips == IpsOf(lines);
    assert p.value.names == NamesOf(lines);
  }

  /** One poll over well-formed output ends the wait exactly when no pod
      reports `<none>` as its IP. */
  lemma PollRender(lines: seq<PodLine>)
    requires forall l <- lines :: WellFormed(l)
    ensures PollOnce(Render(lines)).Resolved? <==> forall l <- lines :: l.row.ip != "<none>"
  {
    ParseRender(lines);
    var ips := IpsOf(lines);
    if !Ready(ips) {
      var k :| 0 <= k < |ips| && ips[k] == "<none>";
      assert lines[k] in lines;
    }
  }

  // ---------------------------------------------------------------------------
  // Worker nodes: `kubectl get nodes -o wide`
  // ---------------------------------------------------------------------------

  /** The node lines kept: non-empty and containing "Ready". */
  function NodeRows(ls: seq<string>): (r: seq<string>)
    ensures forall l <- r :: l in ls && l != [] && Contains(l, "Ready")
    ensures forall l <- ls :: l != [] && Contains(l, "Ready") ==> l in r
  {
    if ls == [] then []
    else if ls[0] != [] && Contains(ls[0], "Ready") then [ls[0]] + NodeRows(ls[1..])
    else NodeRows(ls[1..])
  }

  /** The node filter keeps the matching lines in their original order. */
  lemma {:induction false} NodeRowsIsFilter(a: seq<string>, b: seq<string>, l: string)
    ensures NodeRows(a + b) == NodeRows(a) + NodeRows(b)
    ensures NodeRows([l]) == if l != [] && Contains(l, "Ready") then [l] else []
    decreases |a|
  {
    if a == [] {
      assert a + b == b;
    } else {
      assert (a + b)[0] == a[0];
      assert (a + b)[1..] == a[1..] + b;
      NodeRowsIsFilter(a[1..], b, l);
    }
  }

  /** `[row.split()[5] for row in out.split('\n') if row != '' and "Ready" in row]`
      (k8s/main.py:390): the INTERNAL-IP column of every kept node line. */
  function NodeIps(out: string): (r: Result<seq<string>>)
    ensures var t := Table(NodeRows(Lines(out)));
      && (r.Ok? <==> forall k :: 0 <= k < |t| ==> |t[k]| >= 6)
      && (r.Ok? ==> |r.value| == |t| && forall k :: 0 <= k < |t| ==> r.value[k] == t[k][5])
  {
    var t := Table(NodeRows(Lines(out)));
    var r := Column(t, 5);
    assert r.Ok? ==> forall k :: 0 <= k < |t| ==> |t[k]| >= 6;
    assert (forall k :: 0 <= k < |t| ==> |t[k]| >= 6) ==> r.Ok?;
    r
  }

  lemma {:induction false} ContainsAfterDrop(s: string, k: nat, sub: string)
    requires k <= |s|
    requires Contains(s[k..], sub)
    ensures Contains(s, sub)
    decreases k
  {
    if k > 0 {
      assert s[1..][k - 1..] == s[k..];
      ContainsAfterDrop(s[1..], k - 1, sub);
    }
  }

  /** The "Ready" test is a substring test, so a node whose line says
      "NotReady" is kept as a copy target too. */
  lemma {:induction false} NotReadyNodesKept(line: string)
    requires Contains(line, "NotReady")
    ensures Contains(line, "Ready")
    decreases |line|
  {
    if "NotReady" <= line {
      assert line[3..][..5] == "Ready";
      assert "Ready" <= line[3..];
      ContainsAfterDrop(line, 3, "Ready");
    } else {
      NotReadyNodesKept(line[1..]);
    }
  }
}
