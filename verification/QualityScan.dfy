/** One pass over the rows of a dataset: which rows are malformed, duplicate, conflicting or
    otherwise rejected, and why. */
module QualityScan {
  import opened Contracts

  type Line = seq<string>

  /** `requiredColumns` and `numericColumns` are sets of column names. */
  datatype Spec = Spec(
    expectedColumns: seq<string>, requiredColumns: set<string>, primaryKey: string,
    numericColumns: set<string>, amountColumn: Option<string>, timestampColumn: Option<string>)

  predicate NoRepeats(xs: seq<string>) { forall i, j :: 0 <= i < j < |xs| ==> xs[i] != xs[j] }

  predicate ValidSpec(s: Spec) {
    && s.expectedColumns != [] && NoRepeats(s.expectedColumns)
    && s.primaryKey in s.expectedColumns
    && (forall c :: c in s.requiredColumns ==> c in s.expectedColumns)
    && (s.amountColumn.Some? ==> s.amountColumn.value in s.expectedColumns)
    && (s.timestampColumn.Some? ==> s.timestampColumn.value in s.expectedColumns)
  }

  datatype TimestampReading = NotATimestamp | WithoutZone | WithZone(subsecond: bool)

  datatype AmountReading = NotAnAmount | AnAmount(negative: bool, overflows: bool)

  /** Library parsers of dates and decimals. */
  datatype Readers = Readers(timestamp: string -> TimestampReading, amount: string -> AmountReading)

  // ---------------------------------------------------------------------------
  // Cells
  // ---------------------------------------------------------------------------

  const SPACES: set<char> := {' ', '\t', '\n', '\r'}

  function StripLeft(s: string): (t: string) {
    if s != "" && s[0] in SPACES then StripLeft(s[1..]) else s
  }

  function StripRight(s: string): (t: string) {
    if s != "" && s[|s| - 1] in SPACES then StripRight(s[..|s| - 1]) else s
  }

  function Strip(s: string): (t: string) { StripRight(StripLeft(s)) }

  function Lower(s: string): (t: string) {
    seq(|s|, i requires 0 <= i < |s| =>
      if 'A' <= s[i] <= 'Z' then (s[i] as int - 'A' as int + 'a' as int) as char else s[i])
  }

  const NULL_TOKENS: set<string> := {"", "na", "n/a", "none", "null", "nan"}

  predicate IsNull(value: string) { Lower(Strip(value)) in NULL_TOKENS }

  function Clean(value: string): (v: string) { if IsNull(value) then "" else Strip(value) }

  /** The last cell under a header, as a dictionary of the row would have it. */
  function ValueOf(headers: Line, row: Line, column: string): (v: Option<string>)
    requires |headers| == |row|
  {
    if headers == [] then None
    else
      var n := |headers| - 1;
      if headers[n] == column then Some(Clean(row[n])) else ValueOf(headers[..n], row[..n], column)
  }

  function TextOf(headers: Line, row: Line, column: string): (text: string)
    requires |headers| == |row|
  {
    var v := ValueOf(headers, row, column);
    if v.Some? then Strip(v.value) else ""
  }

  /** All values but those of the primary key; this is what is hashed. */
  function PayloadOf(headers: Line, row: Line, primaryKey: string): (payload: Line)
    requires |headers| == |row|
  {
    if headers == [] then []
    else
      var n := |headers| - 1;
      PayloadOf(headers[..n], row[..n], primaryKey)
      + if headers[n] == primaryKey then [] else [Clean(row[n])]
  }

  // ---------------------------------------------------------------------------
  // What is wrong with one row on its own
  // ---------------------------------------------------------------------------

  /** `required` are the required columns in which the row has no value. */
  datatype Faults = Faults(
    required: set<string>, timestamp: TimestampReading, hasTimestamp: bool,
    amount: AmountReading, hasAmount: bool, numeric: bool)

  function FaultsOf(r: Readers, s: Spec, headers: Line, row: Line): (f: Faults)
    requires |headers| == |row|
  {
    var when := if s.timestampColumn.Some? then TextOf(headers, row, s.timestampColumn.value) else "";
    var much := if s.amountColumn.Some? then TextOf(headers, row, s.amountColumn.value) else "";
    Faults(
      (set c | c in s.requiredColumns && LacksValue(headers, row, c)),
      r.timestamp(when), when != "", r.amount(much), much != "",
      exists c :: c in s.numericColumns && Some(c) != s.amountColumn && NotNumeric(r, headers, row, c))
  }

  predicate LacksValue(headers: Line, row: Line, column: string)
    requires |headers| == |row|
  {
    var v := ValueOf(headers, row, column);
    v.None? || IsNull(v.value)
  }

  predicate NotNumeric(r: Readers, headers: Line, row: Line, column: string)
    requires |headers| == |row|
  {
    var text := TextOf(headers, row, column);
    text != "" && r.amount(text).NotAnAmount?
  }

  predicate BadTimestamp(f: Faults) { f.hasTimestamp && f.timestamp.NotATimestamp? }

  predicate ZoneMissing(f: Faults) { f.hasTimestamp && f.timestamp.WithoutZone? }

  predicate Subsecond(f: Faults) { f.hasTimestamp && f.timestamp.WithZone? && f.timestamp.subsecond }

  predicate NegativeAmount(f: Faults) { f.hasAmount && f.amount.AnAmount? && f.amount.negative }

  predicate BadAmount(f: Faults) { f.hasAmount && (f.amount.NotAnAmount? || f.amount.negative) }

  predicate Overflow(f: Faults) { f.hasAmount && f.amount.AnAmount? && f.amount.overflows }

  predicate Rejects(f: Faults) { f.required != {} || BadTimestamp(f) || ZoneMissing(f) || BadAmount(f) }

  // ---------------------------------------------------------------------------
  // What a row is among the rows before it
  // ---------------------------------------------------------------------------

  predicate WellFormed(headers: Line, row: Line) { |row| == |headers| }

  function KeyOf(s: Spec, headers: Line, row: Line): (key: string)
    requires WellFormed(headers, row)
  {
    TextOf(headers, row, s.primaryKey)
  }

  /** Row `i` is well-formed and carries the non-empty key. */
  predicate Carries(s: Spec, headers: Line, rows: seq<Line>, i: nat, key: string)
    requires i < |rows|
  {
    key != "" && WellFormed(headers, rows[i]) && KeyOf(s, headers, rows[i]) == key
  }

  /** The first of the first `n` rows that carries the key. */
  function FirstCarrier(s: Spec, headers: Line, rows: seq<Line>, n: nat, key: string): (i: Option<nat>)
    requires n <= |rows|
  {
    if n == 0 then None
    else
      var earlier := FirstCarrier(s, headers, rows, n - 1, key);
      if earlier.Some? then earlier
      else if Carries(s, headers, rows, n - 1, key) then Some(n - 1) else None
  }

  lemma {:induction false} FirstCarrierIsFirst(s: Spec, headers: Line, rows: seq<Line>, n: nat,
                                               key: string)
    requires n <= |rows|
    ensures var first := FirstCarrier(s, headers, rows, n, key);
      match first
      case None => forall i: nat :: i < n ==> !Carries(s, headers, rows, i, key)
      case Some(f) =>
        && f < n && Carries(s, headers, rows, f, key)
        && forall i: nat :: i < f ==> !Carries(s, headers, rows, i, key)
  {
    if n > 0 {
      FirstCarrierIsFirst(s, headers, rows, n - 1, key);
    }
  }

  datatype Kind = Malformed | DuplicateOf(first: nat) | ConflictsWith(first: nat) | Checked

  /** A row repeats or contradicts the first row of its key, or stands for itself. */
  function KindOf(s: Spec, headers: Line, rows: seq<Line>, i: nat): (k: Kind)
    requires i < |rows|
  {
    if !WellFormed(headers, rows[i]) then Malformed
    else
      match FirstCarrier(s, headers, rows, i, KeyOf(s, headers, rows[i]))
      case None => Checked
      case Some(f) =>
        FirstCarrierIsFirst(s, headers, rows, i, KeyOf(s, headers, rows[i]));
        if PayloadOf(headers, rows[f], s.primaryKey) == PayloadOf(headers, rows[i], s.primaryKey) then
          DuplicateOf(f)
        else ConflictsWith(f)
  }

  // ---------------------------------------------------------------------------
  // The scan
  // ---------------------------------------------------------------------------

  /** Rows are known by their number, counted from one. */
  datatype Findings = Findings(
    rejected: set<nat>, missing: set<nat>, missingByField: multiset<string>,
    badTimestamps: set<nat>, zoneMissing: set<nat>, badAmounts: set<nat>, negative: set<nat>,
    badNumeric: set<nat>, subsecond: nat, overflows: nat)

  datatype Keys = Keys(payloads: map<string, Line>, conflicting: set<string>, duplicates: set<nat>,
                       repeated: nat)

  datatype Scan = Scan(rows: nat, malformed: nat, keys: Keys, findings: Findings)

  const NO_FINDINGS := Findings({}, {}, multiset{}, {}, {}, {}, {}, {}, 0, 0)
  const NO_ROWS := Scan(0, 0, Keys(map[], {}, {}, 0), NO_FINDINGS)

  function AddIf(ns: set<nat>, n: nat, yes: bool): (ms: set<nat>) { if yes then ns + {n} else ns }

  function RecordFaults(g: Findings, f: Faults, n: nat): (g': Findings) {
    Findings(
      AddIf(g.rejected, n, Rejects(f)), AddIf(g.missing, n, f.required != {}),
      g.missingByField + multiset(f.required),
      AddIf(g.badTimestamps, n, BadTimestamp(f)), AddIf(g.zoneMissing, n, ZoneMissing(f)),
      AddIf(g.badAmounts, n, BadAmount(f)), AddIf(g.negative, n, NegativeAmount(f)),
      AddIf(g.badNumeric, n, f.numeric),
      g.subsecond + (if Subsecond(f) then 1 else 0), g.overflows + (if Overflow(f) then 1 else 0))
  }

  function Reject(g: Findings, n: nat): (g': Findings) { g.(rejected := g.rejected + {n}) }

  /** Row number `n` is scanned. */
  function ScanRow(r: Readers, s: Spec, headers: Line, scan: Scan, row: Line, n: nat): (scan': Scan) {
    if !WellFormed(headers, row) then
      Scan(n, scan.malformed + 1, scan.keys, Reject(scan.findings, n))
    else
      var key, payload := KeyOf(s, headers, row), PayloadOf(headers, row, s.primaryKey);
      var k := scan.keys;
      if key != "" && key in k.payloads then
        if k.payloads[key] != payload then
          Scan(n, scan.malformed,
               k.(conflicting := k.conflicting + {key}, repeated := k.repeated + 1),
               Reject(scan.findings, n))
        else
          Scan(n, scan.malformed,
               k.(duplicates := k.duplicates + {n}, repeated := k.repeated + 1), scan.findings)
      else
        Scan(n, scan.malformed,
             if key != "" then k.(payloads := k.payloads[key := payload]) else k,
             RecordFaults(scan.findings, FaultsOf(r, s, headers, row), n))
  }

  function ScanUpTo(r: Readers, s: Spec, headers: Line, rows: seq<Line>, n: nat): (scan: Scan)
    requires n <= |rows|
  {
    if n == 0 then NO_ROWS
    else ScanRow(r, s, headers, ScanUpTo(r, s, headers, rows, n - 1), rows[n - 1], n)
  }

  // ---------------------------------------------------------------------------
  // The loop
  // ---------------------------------------------------------------------------

  method RecordRequired(s: Spec, headers: Line, row: Line, g: Findings, n: nat) returns (g': Findings)
    requires WellFormed(headers, row)
    ensures var lacking := set c | c in s.requiredColumns && LacksValue(headers, row, c);
      g' == g.(missingByField := g.missingByField + multiset(lacking),
               missing := AddIf(g.missing, n, lacking != {}),
               rejected := AddIf(g.rejected, n, lacking != {}))
  {
    var todo := s.requiredColumns;
    var lacking: set<string>, byField := {}, g.missingByField;
    while todo != {}
      invariant todo <= s.requiredColumns
      invariant lacking == set c | c in s.requiredColumns - todo && LacksValue(headers, row, c)
      invariant byField == g.missingByField + multiset(lacking)
      decreases todo
    {
      var column :| column in todo;
      todo := todo - {column};
      if LacksValue(headers, row, column) {
        byField := byField + multiset{column};
        assert multiset(lacking + {column}) == multiset(lacking) + multiset{column};
        lacking := lacking + {column};
      }
    }
    assert s.requiredColumns - todo == s.requiredColumns;
    g' := g.(missingByField := byField);
    if lacking != {} {
      g' := g'.(missing := g'.missing + {n}, rejected := g'.rejected + {n});
    }
  }

  method RecordTimestamp(r: Readers, s: Spec, headers: Line, row: Line, g: Findings, n: nat)
    returns (g': Findings)
    requires WellFormed(headers, row)
    ensures var f := FaultsOf(r, s, headers, row);
      g' == g.(badTimestamps := AddIf(g.badTimestamps, n, BadTimestamp(f)),
               zoneMissing := AddIf(g.zoneMissing, n, ZoneMissing(f)),
               rejected := AddIf(g.rejected, n, BadTimestamp(f) || ZoneMissing(f)),
               subsecond := g.subsecond + if Subsecond(f) then 1 else 0)
  {
    g' := g;
    if s.timestampColumn.None? {
      return;
    }
    var text := TextOf(headers, row, s.timestampColumn.value);
    if text == "" {
      return;
    }
    var reading := r.timestamp(text);
    if reading.NotATimestamp? {
      g' := g.(badTimestamps := g.badTimestamps + {n}, rejected := g.rejected + {n});
    } else if reading.WithoutZone? {
      g' := g.(zoneMissing := g.zoneMissing + {n}, rejected := g.rejected + {n});
    } else if reading.subsecond {
      g' := g.(subsecond := g.subsecond + 1);
    }
  }

  method RecordAmount(r: Readers, s: Spec, headers: Line, row: Line, g: Findings, n: nat)
    returns (g': Findings)
    requires WellFormed(headers, row)
    ensures var f := FaultsOf(r, s, headers, row);
      g' == g.(badAmounts := AddIf(g.badAmounts, n, BadAmount(f)),
               negative := AddIf(g.negative, n, NegativeAmount(f)),
               rejected := AddIf(g.rejected, n, BadAmount(f)),
               overflows := g.overflows + if Overflow(f) then 1 else 0)
  {
    g' := g;
    if s.amountColumn.None? {
      return;
    }
    var text := TextOf(headers, row, s.amountColumn.value);
    if text == "" {
      return;
    }
    var reading := r.amount(text);
    if reading.NotAnAmount? {
      g' := g.(badAmounts := g.badAmounts + {n}, rejected := g.rejected + {n});
      return;
    }
    if reading.negative {
      g' := g.(negative := g.negative + {n}, badAmounts := g.badAmounts + {n},
               rejected := g.rejected + {n});
    }
    if reading.overflows {
      g' := g'.(overflows := g'.overflows + 1);
    }
  }

  method RecordNumeric(r: Readers, s: Spec, headers: Line, row: Line, g: Findings, n: nat)
    returns (g': Findings)
    requires WellFormed(headers, row)
    ensures g' == g.(badNumeric := AddIf(g.badNumeric, n, FaultsOf(r, s, headers, row).numeric))
  {
    g' := g;
    var todo := s.numericColumns - (if s.amountColumn.Some? then {s.amountColumn.value} else {});
    while todo != {}
      invariant forall c :: c in todo ==> c in s.numericColumns && Some(c) != s.amountColumn
      invariant forall c :: (c in s.numericColumns && Some(c) != s.amountColumn && c !in todo
          && NotNumeric(r, headers, row, c)) ==> n in g'.badNumeric
      invariant g' == g || (g' == g.(badNumeric := g.badNumeric + {n})
        && FaultsOf(r, s, headers, row).numeric)
      decreases todo
    {
      var column :| column in todo;
      todo := todo - {column};
      if NotNumeric(r, headers, row, column) {
        g' := g'.(badNumeric := g'.badNumeric + {n});
        assert g'.badNumeric == g.badNumeric + {n};
      }
    }
    if FaultsOf(r, s, headers, row).numeric {
      assert g.badNumeric + {n} == g'.badNumeric;
    }
  }

  method RecordChecked(r: Readers, s: Spec, headers: Line, row: Line, g: Findings, n: nat)
    returns (g': Findings)
    requires WellFormed(headers, row)
    ensures g' == RecordFaults(g, FaultsOf(r, s, headers, row), n)
  {
    g' := RecordRequired(s, headers, row, g, n);
    g' := RecordTimestamp(r, s, headers, row, g', n);
    g' := RecordAmount(r, s, headers, row, g', n);
    g' := RecordNumeric(r, s, headers, row, g', n);
  }

  /** The rows a scan counts: blank lines are passed over, and a prefix limit ends the scan. */
  function Kept(lines: seq<Line>, prefix: Option<nat>): (rows: seq<Line>) {
    if lines == [] then []
    else
      var earlier := Kept(lines[..|lines| - 1], prefix);
      if lines[|lines| - 1] == [] || (prefix.Some? && |earlier| >= prefix.value) then earlier
      else earlier + [lines[|lines| - 1]]
  }

  lemma {:induction false} KeptStops(lines: seq<Line>, prefix: Option<nat>, n: nat)
    requires n <= |lines| && prefix.Some? && |Kept(lines[..n], prefix)| >= prefix.value
    ensures Kept(lines, prefix) == Kept(lines[..n], prefix)
    decreases |lines| - n
  {
    if n == |lines| {
      assert lines[..n] == lines;
    } else {
      assert lines[..n + 1][..n] == lines[..n];
      KeptStops(lines, prefix, n + 1);
    }
  }

  lemma {:induction false} ScanExtends(r: Readers, s: Spec, headers: Line, rows: seq<Line>,
                                       more: seq<Line>, n: nat)
    requires n <= |rows|
    ensures ScanUpTo(r, s, headers, rows + more, n) == ScanUpTo(r, s, headers, rows, n)
  {
    if n > 0 {
      ScanExtends(r, s, headers, rows, more, n - 1);
    }
  }

  function ScanOf(r: Readers, s: Spec, headers: Line, rows: seq<Line>): (scan: Scan) {
    ScanUpTo(r, s, headers, rows, |rows|)
  }

  /** One counted row: number `n` of the scan. */
  method ScanLine(r: Readers, s: Spec, headers: Line, row: Line, n: nat, malformed: nat, k: Keys,
                  g: Findings)
    returns (malformed': nat, k': Keys, g': Findings)
    requires n > 0
    ensures Scan(n, malformed', k', g') == ScanRow(r, s, headers, Scan(n - 1, malformed, k, g), row, n)
  {
    malformed', k', g' := malformed, k, g;
    if |row| != |headers| {
      malformed' := malformed' + 1;
      g' := Reject(g', n);
      return;
    }
    var key := KeyOf(s, headers, row);
    if key != "" {
      var payload := PayloadOf(headers, row, s.primaryKey);
      if key in k'.payloads {
        k' := k'.(repeated := k'.repeated + 1);
        if k'.payloads[key] != payload {
          k' := k'.(conflicting := k'.conflicting + {key});
          g' := Reject(g', n);
          return;
        }
        k' := k'.(duplicates := k'.duplicates + {n});
        return;
      }
      k' := k'.(payloads := k'.payloads[key := payload]);
    }
    g' := RecordChecked(r, s, headers, row, g', n);
  }

  method ScanRows(r: Readers, s: Spec, headers: Line, lines: seq<Line>, prefix: Option<nat>)
    returns (scan: Scan)
    ensures scan == ScanOf(r, s, headers, Kept(lines, prefix))
  {
    var rows, malformed := 0, 0;
    var k, g := NO_ROWS.keys, NO_FINDINGS;
    ghost var kept: seq<Line> := [];
    for i := 0 to |lines|
      invariant kept == Kept(lines[..i], prefix) && rows == |kept|
      invariant Scan(rows, malformed, k, g) == ScanOf(r, s, headers, kept)
    {
      var row := lines[i];
      assert lines[..i + 1][..i] == lines[..i];
      if prefix.Some? && rows >= prefix.value {
        KeptStops(lines, prefix, i);
        return Scan(rows, malformed, k, g);
      }
      if row == [] {
        continue;
      }
      ScanExtends(r, s, headers, kept, [row], |kept|);
      rows := rows + 1;
      malformed, k, g := ScanLine(r, s, headers, row, rows, malformed, k, g);
      kept := kept + [row];
    }
    assert lines[..|lines|] == lines;
    return Scan(rows, malformed, k, g);
  }
}
