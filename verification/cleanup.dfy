/** The customer clean-up script: delete customers without a name, then
    delete every customer whose normalised name an earlier (lower id)
    customer already carries. */
module Cleanup {
  import opened Wrappers
  import opened Seqs

  /** The two columns the script reads; `name` may be null. */
  datatype CustomerRow = CustomerRow(id: int, name: Option<string>)

  /** The name is present and non-empty (JavaScript truthiness of a string). */
  predicate HasName(c: CustomerRow)
  {
    c.name.Some? && c.name.value != ""
  }

  predicate NoName(c: CustomerRow)
  {
    !HasName(c)
  }

  predicate DistinctIds(rows: seq<CustomerRow>)
  {
    forall i, j :: 0 <= i < j < |rows| ==> rows[i].id != rows[j].id
  }

  predicate Ascending(rows: seq<CustomerRow>)
  {
    forall i, j :: 0 <= i < j < |rows| ==> rows[i].id < rows[j].id
  }

  /** Place `c` among rows of smaller and larger ids. */
  function Insert(c: CustomerRow, s: seq<CustomerRow>): (r: seq<CustomerRow>)
    requires Ascending(s)
    requires forall x :: x in s ==> x.id != c.id
    ensures Ascending(r)
    ensures forall x :: x in r <==> x in s || x == c
    ensures multiset(r) == multiset(s) + multiset{c}
  {
    if |s| == 0 then [c]
    else if c.id < s[0].id then
      AscendingHead(s);
      AscendingCons(c, s);
      [c] + s
    else
      var tail := s[1..];
      assert s == [s[0]] + tail;
      AscendingHead(s);
      var rest := Insert(c, tail);
      AscendingCons(s[0], rest);
      [s[0]] + rest
  }

  /** The first row of an ascending run is below every later one, and the
      rest is ascending. */
  lemma AscendingHead(s: seq<CustomerRow>)
    requires Ascending(s) && |s| > 0
    ensures Ascending(s[1..])
    ensures forall x :: x in s[1..] ==> s[0].id < x.id
  {
    forall i, j | 0 <= i < j < |s[1..]| ensures s[1..][i].id < s[1..][j].id {
      assert s[1..][i] == s[i + 1] && s[1..][j] == s[j + 1];
    }
  }

  /** A row below every row of an ascending run may lead it. */
  lemma AscendingCons(h: CustomerRow, s: seq<CustomerRow>)
    requires Ascending(s)
    requires forall x :: x in s ==> h.id < x.id
    ensures Ascending([h] + s)
  {
    forall i, j | 0 <= i < j < |[h] + s| ensures ([h] + s)[i].id < ([h] + s)[j].id {
      assert ([h] + s)[j] == s[j - 1];
      if i > 0 { assert ([h] + s)[i] == s[i - 1]; }
    }
  }

  /** The rows ordered by id (`rows.sort((a, b) => a.id - b.id)`). */
  function SortById(rows: seq<CustomerRow>): (r: seq<CustomerRow>)
    requires DistinctIds(rows)
    ensures Ascending(r)
    ensures forall x :: x in r <==> x in rows
    ensures multiset(r) == multiset(rows)
  {
    if |rows| == 0 then []
    else
      assert rows == [rows[0]] + rows[1..];
      assert forall x :: x in rows[1..] ==> x.id != rows[0].id;
      Insert(rows[0], SortById(rows[1..]))
  }

  /** Dropping rows keeps ids unique. */
  lemma {:induction false} FilterDistinct(rows: seq<CustomerRow>, keep: CustomerRow -> bool)
    requires DistinctIds(rows)
    ensures DistinctIds(Filter(rows, keep))
  {
    if |rows| > 0 {
      FilterDistinct(rows[1..], keep);
      FilterMembers(rows[1..], keep);
      assert forall x :: x in rows[1..] ==> x.id != rows[0].id;
    }
  }

  /** Row `k` has a name that an earlier named row shares after normalisation. */
  predicate Duplicate(rows: seq<CustomerRow>, k: int, norm: string -> string)
    requires 0 <= k < |rows|
  {
    && HasName(rows[k])
    && exists j :: 0 <= j < k && HasName(rows[j]) && norm(rows[j].name.value) == norm(rows[k].name.value)
  }

  /** The duplicates among the first `n` rows, in row order. */
  function Marked(rows: seq<CustomerRow>, n: int, norm: string -> string): seq<CustomerRow>
    requires 0 <= n <= |rows|
  {
    if n == 0 then []
    else Marked(rows, n - 1, norm) + (if Duplicate(rows, n - 1, norm) then [rows[n - 1]] else [])
  }

  /** The normalised names of the named rows among the first `n`. */
  function SeenNames(rows: seq<CustomerRow>, n: int, norm: string -> string): set<string>
    requires 0 <= n <= |rows|
  {
    set j | 0 <= j < n && HasName(rows[j]) :: norm(rows[j].name.value)
  }

  /** The dedupe loop over the id-sorted rows: a named row whose normalised
      name was already seen is marked; otherwise its name is remembered. */
  method FindDuplicates(rows: seq<CustomerRow>, norm: string -> string) returns (toDelete: seq<CustomerRow>)
    ensures toDelete == Marked(rows, |rows|, norm)
  {
    var seen: set<string> := {};
    toDelete := [];
    var i := 0;
    while i < |rows|
      invariant 0 <= i <= |rows|
      invariant seen == SeenNames(rows, i, norm)
      invariant toDelete == Marked(rows, i, norm)
    {
      var c := rows[i];
      if HasName(c) && norm(c.name.value) in seen {
        toDelete := toDelete + [c];
      } else if HasName(c) {
        seen := seen + {norm(c.name.value)};
      }
      assert SeenNames(rows, i + 1, norm) == SeenNames(rows, i, norm) + (if HasName(c) then {norm(c.name.value)} else {});
      i := i + 1;
    }
  }

  /** Marked rows are named duplicates of the input, taken in input order. */
  lemma {:induction false} MarkedSpec(rows: seq<CustomerRow>, n: int, norm: string -> string)
    requires 0 <= n <= |rows|
    ensures forall c :: c in Marked(rows, n, norm) <==> exists k :: 0 <= k < n && rows[k] == c && Duplicate(rows, k, norm)
    ensures Ascending(rows) ==> Ascending(Marked(rows, n, norm))
    ensures Ascending(rows) ==> forall c :: c in Marked(rows, n, norm) ==> n > 0 && c.id <= rows[n - 1].id
  {
    if n > 0 {
      MarkedSpec(rows, n - 1, norm);
      var m := Marked(rows, n - 1, norm);
      if Ascending(rows) {
        forall c | c in m ensures c.id < rows[n - 1].id {
          assert n - 1 > 0 && c.id <= rows[n - 2].id;
        }
      }
    }
  }

  /** A customer is marked exactly when it has a name and a lower-id customer
      carries the same normalised name; the lowest id of each name survives,
      and so do customers without a name. */
  lemma MarkedIffEarlierSameName(rows: seq<CustomerRow>, norm: string -> string, k: int)
    requires DistinctIds(rows) && 0 <= k < |rows|
    ensures rows[k] in Marked(rows, |rows|, norm) <==>
              HasName(rows[k]) && exists j :: 0 <= j < k && HasName(rows[j]) && norm(rows[j].name.value) == norm(rows[k].name.value)
  {
    MarkedSpec(rows, |rows|, norm);
    if rows[k] in Marked(rows, |rows|, norm) {
      var k' :| 0 <= k' < |rows| && rows[k'] == rows[k] && Duplicate(rows, k', norm);
      assert k' == k;
    }
  }

  /** The customers that survive both passes carry pairwise different
      normalised names. */
  lemma SurvivorsDistinct(rows: seq<CustomerRow>, norm: string -> string, i: int, j: int)
    requires DistinctIds(rows) && 0 <= i < j < |rows|
    requires HasName(rows[i]) && HasName(rows[j])
    requires rows[i] !in Marked(rows, |rows|, norm) && rows[j] !in Marked(rows, |rows|, norm)
    ensures norm(rows[i].name.value) != norm(rows[j].name.value)
  {
    MarkedIffEarlierSameName(rows, norm, j);
  }

  /** The whole script: the customers deleted in the first pass, then those
      deleted as duplicates in the second. */
  method Cleanup(rows: seq<CustomerRow>, norm: string -> string) returns (purged: seq<CustomerRow>, duplicates: seq<CustomerRow>)
    requires DistinctIds(rows)
    ensures purged == Filter(rows, NoName)
    ensures forall c :: c in purged <==> c in rows && !HasName(c)
    ensures forall c :: c in duplicates ==> c in rows && HasName(c)
    ensures Ascending(duplicates)
    ensures DistinctIds(Filter(rows, HasName))
    ensures var remaining := SortById(Filter(rows, HasName));
            duplicates == Marked(remaining, |remaining|, norm)
  {
    purged := Filter(rows, NoName);
    FilterMembers(rows, NoName);
    var remaining := Filter(rows, HasName);
    FilterMembers(rows, HasName);
    FilterDistinct(rows, HasName);
    var sorted := SortById(remaining);
    duplicates := FindDuplicates(sorted, norm);
    MarkedSpec(sorted, |sorted|, norm);
  }
}
