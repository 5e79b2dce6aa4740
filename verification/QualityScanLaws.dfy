/** What the scan's row sets mean. */
module QualityScanLaws {
  import opened Contracts
  import opened QualityScan

  // ---------------------------------------------------------------------------
  // The scan step, by the kind of the row
  // ---------------------------------------------------------------------------

  /** The payload table holds the payload of the first row of every key seen. */
  ghost predicate Tracks(s: Spec, headers: Line, rows: seq<Line>, n: nat, payloads: map<string, Line>)
    requires n <= |rows|
  {
    forall key :: TracksKey(s, headers, rows, n, payloads, key)
  }

  ghost predicate TracksKey(s: Spec, headers: Line, rows: seq<Line>, n: nat,
                            payloads: map<string, Line>, key: string)
    requires n <= |rows|
  {
    var first := FirstCarrier(s, headers, rows, n, key);
    && (key in payloads <==> first.Some?)
    && (first.Some? ==>
          first.value < n && WellFormed(headers, rows[first.value]) && key in payloads
          && payloads[key] == PayloadOf(headers, rows[first.value], s.primaryKey))
  }

  lemma {:induction false} PayloadsTrackFirsts(r: Readers, s: Spec, headers: Line, rows: seq<Line>,
                                               n: nat)
    requires n <= |rows|
    ensures ScanUpTo(r, s, headers, rows, n).rows == n
    ensures Tracks(s, headers, rows, n, ScanUpTo(r, s, headers, rows, n).keys.payloads)
  {
    if n > 0 {
      PayloadsTrackFirsts(r, s, headers, rows, n - 1);
      var before, after := ScanUpTo(r, s, headers, rows, n - 1), ScanUpTo(r, s, headers, rows, n);
      forall key ensures TracksKey(s, headers, rows, n, after.keys.payloads, key) {
        assert TracksKey(s, headers, rows, n - 1, before.keys.payloads, key);
        if WellFormed(headers, rows[n - 1]) {
          assert TracksKey(s, headers, rows, n - 1, before.keys.payloads,
                           KeyOf(s, headers, rows[n - 1]));
        }
      }
    }
  }

  /** What one more row does depends only on its kind. */
  lemma {:induction false} StepByKind(r: Readers, s: Spec, headers: Line, rows: seq<Line>, n: nat)
    requires 0 < n <= |rows|
    ensures var before, after := ScanUpTo(r, s, headers, rows, n - 1), ScanUpTo(r, s, headers, rows, n);
      var row, k, g := rows[n - 1], before.keys, before.findings;
      match KindOf(s, headers, rows, n - 1)
      case Malformed =>
        after.findings == Reject(g, n) && after.keys == k && after.malformed == before.malformed + 1
      case DuplicateOf(_) =>
        && after.findings == g && after.malformed == before.malformed
        && after.keys == k.(duplicates := k.duplicates + {n}, repeated := k.repeated + 1)
      case ConflictsWith(_) =>
        && after.findings == Reject(g, n) && after.malformed == before.malformed
        && after.keys == k.(conflicting := k.conflicting + {KeyOf(s, headers, row)},
                            repeated := k.repeated + 1)
      case Checked =>
        && WellFormed(headers, row) && after.malformed == before.malformed
        && after.findings == RecordFaults(g, FaultsOf(r, s, headers, row), n)
        && after.keys.duplicates == k.duplicates && after.keys.conflicting == k.conflicting
        && after.keys.repeated == k.repeated
  {
    var before := ScanUpTo(r, s, headers, rows, n - 1);
    PayloadsTrackFirsts(r, s, headers, rows, n - 1);
    if WellFormed(headers, rows[n - 1]) {
      var key := KeyOf(s, headers, rows[n - 1]);
      assert TracksKey(s, headers, rows, n - 1, before.keys.payloads, key);
      FirstCarrierIsFirst(s, headers, rows, n - 1, key);
    }
  }

  // ---------------------------------------------------------------------------
  // The row sets
  // ---------------------------------------------------------------------------

  ghost predicate IsDuplicate(s: Spec, headers: Line, rows: seq<Line>, i: nat)
    requires i < |rows|
  {
    KindOf(s, headers, rows, i).DuplicateOf?
  }

  ghost predicate IsRejected(r: Readers, s: Spec, headers: Line, rows: seq<Line>, i: nat)
    requires i < |rows|
  {
    match KindOf(s, headers, rows, i)
    case Malformed => true
    case ConflictsWith(_) => true
    case DuplicateOf(_) => false
    case Checked => WellFormed(headers, rows[i]) && Rejects(FaultsOf(r, s, headers, rows[i]))
  }

  /** A first or keyless row that nothing speaks against. */
  ghost predicate IsClean(r: Readers, s: Spec, headers: Line, rows: seq<Line>, i: nat)
    requires i < |rows|
  {
    KindOf(s, headers, rows, i).Checked? && !IsRejected(r, s, headers, rows, i)
  }

  lemma {:induction false} SetsStep(r: Readers, s: Spec, headers: Line, rows: seq<Line>, n: nat)
    requires 0 < n <= |rows|
    ensures var before, after := ScanUpTo(r, s, headers, rows, n - 1), ScanUpTo(r, s, headers, rows, n);
      && after.findings.rejected
         == AddIf(before.findings.rejected, n, IsRejected(r, s, headers, rows, n - 1))
      && after.keys.duplicates == AddIf(before.keys.duplicates, n, IsDuplicate(s, headers, rows, n - 1))
  {
    StepByKind(r, s, headers, rows, n);
  }

  lemma {:induction false} AddIfMember(ns: set<nat>, n: nat, yes: bool, m: nat)
    ensures m in AddIf(ns, n, yes) <==> m in ns || (yes && m == n)
  {
  }

  lemma {:induction false} RowSets(r: Readers, s: Spec, headers: Line, rows: seq<Line>, n: nat,
                                   m: nat)
    requires n <= |rows|
    ensures var scan := ScanUpTo(r, s, headers, rows, n);
      && (m in scan.keys.duplicates <==> 0 < m <= n && IsDuplicate(s, headers, rows, m - 1))
      && (m in scan.findings.rejected <==> 0 < m <= n && IsRejected(r, s, headers, rows, m - 1))
  {
    if n > 0 {
      var before := ScanUpTo(r, s, headers, rows, n - 1);
      RowSets(r, s, headers, rows, n - 1, m);
      SetsStep(r, s, headers, rows, n);
      AddIfMember(before.findings.rejected, n, IsRejected(r, s, headers, rows, n - 1), m);
      AddIfMember(before.keys.duplicates, n, IsDuplicate(s, headers, rows, n - 1), m);
    }
  }

  /** A row counts as a duplicate exactly when an earlier well-formed row has its non-empty key
      and the first such row has its payload. */
  lemma {:induction false} DuplicatesExactly(r: Readers, s: Spec, headers: Line, rows: seq<Line>,
                                             i: nat)
    requires i < |rows|
    ensures (i + 1) in ScanOf(r, s, headers, rows).keys.duplicates <==>
      WellFormed(headers, rows[i])
      && exists f: nat :: f < i && RepeatsFirst(s, headers, rows, f, i)
  {
    RowSets(r, s, headers, rows, |rows|, i + 1);
    if WellFormed(headers, rows[i]) {
      var key := KeyOf(s, headers, rows[i]);
      FirstCarrierIsFirst(s, headers, rows, i, key);
      var first := FirstCarrier(s, headers, rows, i, key);
      if IsDuplicate(s, headers, rows, i) {
        assert RepeatsFirst(s, headers, rows, first.value, i);
      }
      if f: nat :| f < i && RepeatsFirst(s, headers, rows, f, i) {
        assert first == Some(f);
      }
    }
  }

  /** Row `f` is the first to carry the key of row `i`, and has the same payload. */
  ghost predicate RepeatsFirst(s: Spec, headers: Line, rows: seq<Line>, f: nat, i: nat)
    requires f < i < |rows| && WellFormed(headers, rows[i])
  {
    var key := KeyOf(s, headers, rows[i]);
    && Carries(s, headers, rows, f, key)
    && (forall e: nat :: e < f ==> !Carries(s, headers, rows, e, key))
    && PayloadOf(headers, rows[f], s.primaryKey) == PayloadOf(headers, rows[i], s.primaryKey)
  }

  ghost predicate ConflictAt(s: Spec, headers: Line, rows: seq<Line>, i: nat, key: string)
    requires i < |rows|
  {
    && WellFormed(headers, rows[i]) && KeyOf(s, headers, rows[i]) == key
    && KindOf(s, headers, rows, i).ConflictsWith?
  }

  lemma {:induction false} ConflictingKeys(r: Readers, s: Spec, headers: Line, rows: seq<Line>,
                                           n: nat, key: string)
    requires n <= |rows|
    ensures key in ScanUpTo(r, s, headers, rows, n).keys.conflicting <==>
      exists i: nat :: i < n && ConflictAt(s, headers, rows, i, key)
  {
    if n > 0 {
      ConflictingKeys(r, s, headers, rows, n - 1, key);
      StepByKind(r, s, headers, rows, n);
      assert ConflictAt(s, headers, rows, n - 1, key) <==>
        KindOf(s, headers, rows, n - 1).ConflictsWith? && WellFormed(headers, rows[n - 1])
        && KeyOf(s, headers, rows[n - 1]) == key;
    }
  }

  ghost predicate Disagree(s: Spec, headers: Line, rows: seq<Line>, i: nat, j: nat, key: string)
    requires i < |rows| && j < |rows|
  {
    && Carries(s, headers, rows, i, key) && Carries(s, headers, rows, j, key)
    && PayloadOf(headers, rows[i], s.primaryKey) != PayloadOf(headers, rows[j], s.primaryKey)
  }

  lemma {:induction false} ConflictHasWitness(s: Spec, headers: Line, rows: seq<Line>, i: nat,
                                              key: string)
    requires i < |rows| && ConflictAt(s, headers, rows, i, key)
    ensures exists f: nat :: f < |rows| && Disagree(s, headers, rows, f, i, key)
  {
    FirstCarrierIsFirst(s, headers, rows, i, key);
    var first := FirstCarrier(s, headers, rows, i, key);
    assert Disagree(s, headers, rows, first.value, i, key);
  }

  /** If two rows of a key disagree, the later or the earlier one contradicts the first. */
  lemma {:induction false} DisagreementShows(s: Spec, headers: Line, rows: seq<Line>, i: nat,
                                             j: nat, key: string)
    requires i < j < |rows| && Disagree(s, headers, rows, i, j, key)
    ensures ConflictAt(s, headers, rows, i, key) || ConflictAt(s, headers, rows, j, key)
  {
    FirstCarrierIsFirst(s, headers, rows, i, key);
    FirstCarrierIsFirst(s, headers, rows, j, key);
    FirstStays(s, headers, rows, i, j, key);
  }

  lemma {:induction false} FirstStays(s: Spec, headers: Line, rows: seq<Line>, i: nat, j: nat,
                                      key: string)
    requires i < j <= |rows| && Carries(s, headers, rows, i, key)
    ensures var first := FirstCarrier(s, headers, rows, i, key);
      FirstCarrier(s, headers, rows, j, key) == if first.Some? then first else Some(i)
    decreases j
  {
    if i + 1 < j {
      FirstStays(s, headers, rows, i, j - 1, key);
    }
  }

  /** A key is conflicting exactly when two rows that carry it have different payloads. */
  lemma {:induction false} ConflictsExactly(r: Readers, s: Spec, headers: Line, rows: seq<Line>,
                                            key: string)
    ensures key in ScanOf(r, s, headers, rows).keys.conflicting <==>
      exists i: nat, j: nat :: i < |rows| && j < |rows| && Disagree(s, headers, rows, i, j, key)
  {
    ConflictingKeys(r, s, headers, rows, |rows|, key);
    if i: nat :| i < |rows| && ConflictAt(s, headers, rows, i, key) {
      ConflictHasWitness(s, headers, rows, i, key);
    }
    if i: nat, j: nat :| i < |rows| && j < |rows| && Disagree(s, headers, rows, i, j, key) {
      if i < j {
        DisagreementShows(s, headers, rows, i, j, key);
      } else {
        DisagreementShows(s, headers, rows, j, i, key);
      }
    }
  }

  // ---------------------------------------------------------------------------
  // Valid rows
  // ---------------------------------------------------------------------------

  /** The clean rows among the first `n`, by number. */
  ghost function CleanRows(r: Readers, s: Spec, headers: Line, rows: seq<Line>, n: nat): (clean: set<nat>)
    requires n <= |rows|
  {
    if n == 0 then {}
    else AddIf(CleanRows(r, s, headers, rows, n - 1), n, IsClean(r, s, headers, rows, n - 1))
  }

  lemma {:induction false} AddIfFresh(ns: set<nat>, n: nat, yes: bool)
    requires n !in ns
    ensures |AddIf(ns, n, yes)| == |ns| + if yes then 1 else 0
  {
  }

  lemma {:induction false} OneKindEach(r: Readers, s: Spec, headers: Line, rows: seq<Line>, i: nat)
    requires i < |rows|
    ensures (if IsRejected(r, s, headers, rows, i) then 1 else 0)
      + (if IsDuplicate(s, headers, rows, i) then 1 else 0)
      + (if IsClean(r, s, headers, rows, i) then 1 else 0) == 1
  {
  }

  lemma {:induction false} CleanNumbers(r: Readers, s: Spec, headers: Line, rows: seq<Line>, n: nat,
                                        m: nat)
    requires n <= |rows|
    ensures m in CleanRows(r, s, headers, rows, n) <==> 0 < m <= n && IsClean(r, s, headers, rows, m - 1)
  {
    if n > 0 {
      CleanNumbers(r, s, headers, rows, n - 1, m);
    }
  }

  /** Every row is rejected, a duplicate or clean, and only one of them. */
  lemma {:induction false} RowsSplitThreeWays(r: Readers, s: Spec, headers: Line, rows: seq<Line>,
                                              n: nat)
    requires n <= |rows|
    ensures var scan := ScanUpTo(r, s, headers, rows, n);
      |scan.findings.rejected| + |scan.keys.duplicates| + |CleanRows(r, s, headers, rows, n)| == n
  {
    if n > 0 {
      var before := ScanUpTo(r, s, headers, rows, n - 1);
      var clean := CleanRows(r, s, headers, rows, n - 1);
      RowsSplitThreeWays(r, s, headers, rows, n - 1);
      SetsStep(r, s, headers, rows, n);
      RowSets(r, s, headers, rows, n - 1, n);
      CleanNumbers(r, s, headers, rows, n - 1, n);
      AddIfFresh(before.findings.rejected, n, IsRejected(r, s, headers, rows, n - 1));
      AddIfFresh(before.keys.duplicates, n, IsDuplicate(s, headers, rows, n - 1));
      AddIfFresh(clean, n, IsClean(r, s, headers, rows, n - 1));
      OneKindEach(r, s, headers, rows, n - 1);
    }
  }

  /** Duplicate and rejected rows are disjoint, so the reported number of valid rows is never
      negative: it is the number of first or keyless rows that nothing speaks against. */
  lemma {:induction false} ValidRowsExactly(r: Readers, s: Spec, headers: Line, rows: seq<Line>)
    ensures var scan := ScanOf(r, s, headers, rows);
      && scan.rows == |rows|
      && scan.findings.rejected !! scan.keys.duplicates
      && scan.rows - |scan.findings.rejected| - |scan.keys.duplicates|
         == |CleanRows(r, s, headers, rows, |rows|)|
  {
    RowsSplitThreeWays(r, s, headers, rows, |rows|);
    PayloadsTrackFirsts(r, s, headers, rows, |rows|);
    forall m | m in ScanOf(r, s, headers, rows).findings.rejected
      ensures m !in ScanOf(r, s, headers, rows).keys.duplicates
    {
      RowSets(r, s, headers, rows, |rows|, m);
    }
  }
}
