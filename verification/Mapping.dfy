/** Field mappings from source columns to canonical paths, and spreadsheet column names. */
module Mapping {
  import opened Contracts

  datatype Kind = AsString | AsDecimal | AsDate | AsConstant | AsMapping

  datatype Column = Number(n: int) | Name(s: string)

  datatype FieldMapping = FieldMapping(
    path: string, column: Option<Column>, sourceField: Option<string>, kind: Kind,
    required: bool, constant: Option<string>, table: Option<map<string, string>>)

  const REQUIRED_PATHS: set<string> := {"id", "amount", "currency", "status"}

  predicate IsRequired(m: FieldMapping) { m.required || m.path in REQUIRED_PATHS }

  predicate AllDigits(s: string) {
    s != "" && forall i :: 0 <= i < |s| ==> '0' <= s[i] <= '9'
  }

  function FromDigits(s: string): (n: nat)
    requires forall i :: 0 <= i < |s| ==> '0' <= s[i] <= '9'
  {
    if s == "" then 0 else FromDigits(s[..|s| - 1]) * 10 + (s[|s| - 1] - '0') as nat
  }

  predicate IsLetter(c: char) { 'A' <= c <= 'Z' || 'a' <= c <= 'z' }

  function Upper(s: string): (u: string)
    ensures |u| == |s|
    ensures forall i :: 0 <= i < |s| ==> (IsLetter(u[i]) <==> IsLetter(s[i]))
    ensures forall i :: 0 <= i < |s| && IsLetter(s[i]) ==> LetterIndex(u[i]) == LetterIndex(s[i])
  {
    seq(|s|, i requires 0 <= i < |s| =>
      if 'a' <= s[i] <= 'z' then (s[i] as int - 'a' as int + 'A' as int) as char else s[i])
  }

  function LetterIndex(c: char): (n: nat)
    requires IsLetter(c)
    ensures 1 <= n <= 26
  {
    if c <= 'Z' then (c - 'A') as nat + 1 else (c - 'a') as nat + 1
  }

  predicate IsColumnName(s: string) {
    1 <= |s| <= 3 && forall i :: 0 <= i < |s| ==> IsLetter(s[i])
  }

  function FromLetters(s: string): (n: nat)
    requires forall i :: 0 <= i < |s| ==> IsLetter(s[i])
    ensures s != "" ==> n >= 1
  {
    if s == "" then 0 else FromLetters(s[..|s| - 1]) * 26 + LetterIndex(s[|s| - 1])
  }

  /** The 1-based index of a column name, in either case; names have at most three letters. */
  function NameIndex(s: string): (n: Option<int>)
    ensures n.Some? ==> n.value >= 1
  {
    if IsColumnName(s) then Some(FromLetters(s)) else None
  }

  lemma {:induction false} UpperKeepsIndex(s: string, u: string)
    requires |u| == |s|
    requires forall i :: 0 <= i < |s| ==>
      IsLetter(s[i]) && IsLetter(u[i]) && LetterIndex(u[i]) == LetterIndex(s[i])
    ensures FromLetters(u) == FromLetters(s)
  {
    if s != "" {
      UpperKeepsIndex(s[..|s| - 1], u[..|u| - 1]);
    }
  }

  lemma {:induction false} UpperIsIrrelevant(s: string)
    ensures NameIndex(Upper(s)) == NameIndex(s)
  {
    if IsColumnName(s) {
      UpperKeepsIndex(s, Upper(s));
    } else if 1 <= |s| <= 3 {
      var i :| 0 <= i < |s| && !IsLetter(s[i]);
      assert !IsLetter(Upper(s)[i]);
    }
  }
}
