/** The per-line logic of `load_csv_values`: splitting a line at commas the
    way three successive `std::getline(ss, field, ',')` calls do, trimming
    the label field, and deciding the anomaly flag. Opening the file, reading
    its lines and parsing the float are outside this model; the float parser
    is a parameter. */
module Csv {
  import opened Outcomes

  /** One CSV row: timestamp, measured value, ground-truth anomaly flag. */
  datatype DataPoint = DataPoint(timestamp: string, value: real, isAnomaly: bool)

  /** The characters of `" \n\r\t"`. */
  predicate IsSpace(ch: char) {
    ch == ' ' || ch == '\n' || ch == '\r' || ch == '\t'
  }

  /** `s.erase(0, s.find_first_not_of(" \n\r\t"))`: the suffix left after
      dropping the leading spaces. */
  function TrimStart(s: string): (r: string)
    ensures |r| <= |s| && r == s[|s| - |r|..]
    ensures forall k :: 0 <= k < |s| - |r| ==> IsSpace(s[k])
    ensures r == [] || !IsSpace(r[0])
  {
    if |s| > 0 && IsSpace(s[0]) then TrimStart(s[1..]) else s
  }

  /** `s.erase(s.find_last_not_of(" \n\r\t") + 1)`: the prefix left after
      dropping the trailing spaces. */
  function TrimEnd(s: string): (r: string)
    ensures |r| <= |s| && r == s[..|r|]
    ensures forall k :: |r| <= k < |s| ==> IsSpace(s[k])
    ensures r == [] || !IsSpace(r[|r| - 1])
  {
    if |s| > 0 && IsSpace(s[|s| - 1]) then TrimEnd(s[..|s| - 1]) else s
  }

  /** Both erasures: neither end of the result is a space. */
  function Trim(s: string): (r: string)
    ensures |r| <= |s|
    ensures r == [] || (!IsSpace(r[0]) && !IsSpace(r[|r| - 1]))
  {
    var front := TrimStart(s);
    var r := TrimEnd(front);
    assert r != [] ==> r[0] == front[0];
    r
  }

  /** How many leading spaces `Trim` drops. */
  function Lead(s: string): (n: nat)
    ensures n <= |s|
  {
    |s| - |TrimStart(s)|
  }

  /** What `Trim` keeps is one contiguous piece of `s` after its leading
      spaces. */
  lemma TrimIsInfix(s: string)
    ensures Lead(s) + |Trim(s)| <= |s|
    ensures Trim(s) == s[Lead(s)..Lead(s) + |Trim(s)|]
    ensures forall k :: 0 <= k < Lead(s) ==> IsSpace(s[k])
  {
    var front := TrimStart(s);
    var i := |s| - |front|;
    var r := TrimEnd(front);
    assert Lead(s) == i;
    assert Trim(s) == r;
    SliceOfSuffix(s, i, |r|);
  }

  /** The first `n` elements of the suffix from `i` are the slice `[i..i+n]`. */
  lemma SliceOfSuffix(s: string, i: nat, n: nat)
    requires i + n <= |s|
    ensures s[i..][..n] == s[i..i + n]
  {
  }

  /** Everything `Trim` cuts off after the kept piece is a space. */
  lemma TrimDropsTrailingSpaces(s: string)
    ensures forall k :: Lead(s) + |Trim(s)| <= k < |s| ==> IsSpace(s[k])
  {
    var front := TrimStart(s);
    var i := |s| - |front|;
    var r := TrimEnd(front);
    assert Lead(s) == i;
    assert Trim(s) == r;
    forall k | i + |r| <= k < |s| ensures IsSpace(s[k]) {
      assert s[k] == front[k - i];
    }
  }

  /** The anomaly flag of a label field: the trimmed field compared with
      `"1"`, `"1\n"`, `"1\r"` and `"1\r\n"`. Since trimming strips trailing
      line breaks, the flag is set exactly when the trimmed field is `"1"`. */
  function IsAnomalyLabel(field: string): (b: bool)
    ensures b <==> Trim(field) == "1"
  {
    var t := Trim(field);
    t == "1" || t == "1\n" || t == "1\r" || t == "1\r\n"
  }

  /** What one `std::getline(ss, field, ',')` extracts: the text up to the
      first comma, or all of it. */
  function UpToComma(s: string): (r: string)
    ensures ',' !in r
    ensures |r| <= |s| && r == s[..|r|]
    ensures |r| < |s| ==> s[|r|] == ','
  {
    if |s| == 0 || s[0] == ',' then [] else [s[0]] + UpToComma(s[1..])
  }

  /** What is left for the next `getline` once the comma is consumed; with
      no comma the stream is exhausted and later fields are empty. */
  function AfterComma(s: string): (r: string)
    ensures ',' in s ==> s == UpToComma(s) + [','] + r
    ensures ',' !in s ==> r == []
  {
    var n := |UpToComma(s)|;
    if n < |s| then
      assert s == s[..n] + [s[n]] + s[n + 1..];
      s[n + 1..]
    else
      []
  }

  /** The `k`-th comma-separated field of a line, empty when the line has
      fewer fields. A field never holds a comma. */
  function Field(line: string, k: nat): (r: string)
    ensures ',' !in r
    ensures ',' !in line && 0 < k ==> r == []
    decreases k
  {
    if k == 0 then UpToComma(line) else Field(AfterComma(line), k - 1)
  }

  /** The third field of `a,b,c...` is `c` when none of the three holds a
      comma and `c` is followed by a comma or by the end of the line. */
  lemma ThirdFieldOfRow(a: string, b: string, c: string, rest: string)
    requires ',' !in a && ',' !in b && ',' !in c
    requires rest == [] || rest[0] == ','
    ensures Field(a + [','] + b + [','] + c + rest, 2) == c
  {
    var afterB := c + rest;
    var afterA := b + [','] + afterB;
    RowJoin(a, b, c, rest);
    CommaFreePrefix(a, afterA);
    CommaFreePrefix(b, afterB);
    UpToCommaOfPrefix(c, rest);
    FieldAfterComma(a + [','] + afterA, 1);
    FieldAfterComma(afterA, 0);
  }

  /** The row `a,b,c...` read as its first field, a comma and the rest. */
  lemma RowJoin(a: string, b: string, c: string, rest: string)
    ensures a + [','] + b + [','] + c + rest == a + [','] + (b + [','] + (c + rest))
  {
  }

  /** Field `k + 1` of a line is field `k` of what follows its first comma. */
  lemma FieldAfterComma(line: string, k: nat)
    ensures Field(line, k + 1) == Field(AfterComma(line), k)
  {
  }

  /** Dropping a comma-free prefix and the comma after it. */
  lemma CommaFreePrefix(a: string, tail: string)
    requires ',' !in a
    ensures AfterComma(a + [','] + tail) == tail
  {
    var s := a + [','] + tail;
    UpToCommaOfPrefix(a, [','] + tail);
    assert s == a + ([','] + tail);
    assert UpToComma(s) == a;
    assert s[|a|] == ',';
    assert s[|a| + 1..] == tail;
  }

  /** `getline` stops at the first comma after a comma-free text. */
  lemma {:induction false} UpToCommaOfPrefix(c: string, rest: string)
    requires ',' !in c
    requires rest == [] || rest[0] == ','
    ensures UpToComma(c + rest) == c
  {
    if |c| > 0 {
      assert (c + rest)[0] == c[0];
      assert (c + rest)[1..] == c[1..] + rest;
      UpToCommaOfPrefix(c[1..], rest);
    } else {
      assert c + rest == rest;
    }
  }

  /** One data line (the loop body of `load_csv_values`): timestamp, value
      text and label text are the first three fields; a value the parser
      rejects makes the row be skipped, like the caught `std::stof`
      exception. A parsed row is an anomaly exactly when its trimmed third
      field is `"1"`. */
  function ParseRow(line: string, parseFloat: string -> Option<real>): (r: Option<DataPoint>)
    ensures r.Some? <==> parseFloat(Field(line, 1)).Some?
    ensures r.Some? ==>
      && r.value.timestamp == Field(line, 0)
      && r.value.value == parseFloat(Field(line, 1)).value
      && (r.value.isAnomaly <==> Trim(Field(line, 2)) == "1")
  {
    var timestamp := Field(line, 0);
    var valueText := Field(line, 1);
    var labelText := Field(line, 2);
    match parseFloat(valueText)
    case None => None
    case Some(v) => Some(DataPoint(timestamp, v, IsAnomalyLabel(labelText)))
  }

  /** The row one line of the file yields: none for an empty line (the
      source's `if (line.empty()) continue;`) or an unparsable one. */
  function LineRow(line: string, parseFloat: string -> Option<real>): (r: Option<DataPoint>)
    ensures r.Some? <==> line != [] && ParseRow(line, parseFloat).Some?
    ensures r.Some? ==> r == ParseRow(line, parseFloat)
  {
    if line == [] then None else ParseRow(line, parseFloat)
  }

  /** The reader the loop applies to each line. */
  function RowReader(parseFloat: string -> Option<real>): (read: string -> Option<DataPoint>)
    ensures forall line :: read(line) == LineRow(line, parseFloat)
  {
    line => LineRow(line, parseFloat)
  }

  /** The data lines after the header, each handed to `read`: lines it
      yields no row for are skipped, the others kept in file order. A single
      line yields exactly its row, if it has one. */
  function ParseLines(lines: seq<string>, read: string -> Option<DataPoint>): (rows: seq<DataPoint>)
    ensures |rows| <= |lines|
    ensures |lines| == 1 && read(lines[0]).None? ==> rows == []
    ensures |lines| == 1 && read(lines[0]).Some? ==> rows == [read(lines[0]).value]
  {
    if |lines| == 0 then []
    else
      var row := read(lines[0]);
      var rest := ParseLines(lines[1..], read);
      assert |lines| == 1 ==> rest == [];
      if row.Some? then [row.value] + rest else rest
  }

  /** The read loop is a filter over lines: the rows of two consecutive runs
      of lines are the rows of the first run followed by those of the
      second. With the one-line case of `ParseLines` this pins down every
      result. */
  lemma {:induction false} ParseLinesAppend(a: seq<string>, b: seq<string>, read: string -> Option<DataPoint>)
    ensures ParseLines(a + b, read) == ParseLines(a, read) + ParseLines(b, read)
  {
    if |a| == 0 {
      assert a + b == b;
    } else {
      assert (a + b)[0] == a[0];
      assert (a + b)[1..] == a[1..] + b;
      ParseLinesAppend(a[1..], b, read);
    }
  }

  /** When every line is nonempty and parses, every line yields its row, in
      order. */
  lemma {:induction false} ParseLinesKeepsGoodRows(lines: seq<string>, parseFloat: string -> Option<real>)
    requires forall k :: 0 <= k < |lines| ==> lines[k] != [] && ParseRow(lines[k], parseFloat).Some?
    ensures |ParseLines(lines, RowReader(parseFloat))| == |lines|
    ensures forall k :: 0 <= k < |lines| ==>
      ParseLines(lines, RowReader(parseFloat))[k] == ParseRow(lines[k], parseFloat).value
  {
    if |lines| > 0 {
      ParseLinesKeepsGoodRows(lines[1..], parseFloat);
      var read := RowReader(parseFloat);
      var rows := ParseLines(lines, read);
      assert read(lines[0]) == ParseRow(lines[0], parseFloat);
      forall k | 0 <= k < |lines| ensures rows[k] == ParseRow(lines[k], parseFloat).value {
        if k > 0 {
          assert lines[1..][k - 1] == lines[k];
        }
      }
    }
  }

  /** `load_csv_values` over the lines of an opened file: the first line is
      the header and is skipped. */
  function LoadCsvValues(fileLines: seq<string>, parseFloat: string -> Option<real>): (rows: seq<DataPoint>)
    ensures |rows| < |fileLines| || |fileLines| == 0
    ensures |fileLines| == 0 ==> rows == []
  {
    if |fileLines| == 0 then [] else ParseLines(fileLines[1..], RowReader(parseFloat))
  }

  /** The header never contributes a row, whatever it holds: a file yields
      exactly the rows of the lines after its first one. */
  lemma HeaderIgnored(header: string, other: string, lines: seq<string>, parseFloat: string -> Option<real>)
    ensures LoadCsvValues([header] + lines, parseFloat) == ParseLines(lines, RowReader(parseFloat))
    ensures LoadCsvValues([header] + lines, parseFloat) == LoadCsvValues([other] + lines, parseFloat)
  {
    assert ([header] + lines)[1..] == lines;
    assert ([other] + lines)[1..] == lines;
  }
}
