/** GetStockData/get_tickers.py: the ticker universe. Each function reads a
    pipe-separated symbol directory (already parsed into rows here), drops
    the last row (the file-creation footer), keeps the rows that pass a
    conjunction of flag and name tests, renumbers them and keeps the two
    columns Symbol and Security Name. */
module Tickers {

  /** The columns of nasdaqtraded.txt that the filter reads or returns. */
  datatype NasdaqRow = NasdaqRow(nasdaqTraded: string, symbol: string, securityName: string,
                                 etf: string, testIssue: string)

  /** The columns of otherlisted.txt that the filter reads or returns. */
  datatype OtherRow = OtherRow(actSymbol: string, securityName: string, etf: string, testIssue: string)

  /** One row of either result: the two columns Symbol and Security Name. */
  datatype Listing = Listing(symbol: string, securityName: string)

  /** Series.str.contains(pat) for a pattern without regular-expression
      operators (the escaped '\.' and '\$' match the characters themselves):
      does pat occur in s, scanning start positions left to right. */
  predicate Contains(s: string, pat: string)
    decreases |s|
  {
    if |pat| <= |s| && s[..|pat|] == pat then true
    else if s == [] then false
    else Contains(s[1..], pat)
  }

  /** pat occurs in s starting at position i. */
  predicate MatchesAt(s: string, pat: string, i: int) {
    0 <= i && i + |pat| <= |s| && s[i..i + |pat|] == pat
  }

  /** Contains is the substring test: some start position matches. */
  lemma {:induction false} ContainsAt(s: string, pat: string)
    ensures Contains(s, pat) <==> exists i :: MatchesAt(s, pat, i)
    decreases |s|
  {
    if |pat| <= |s| && s[..|pat|] == pat {
      assert MatchesAt(s, pat, 0);
    } else if s == [] {
    } else {
      ContainsAt(s[1..], pat);
      if Contains(s, pat) {
        var i :| MatchesAt(s[1..], pat, i);
        assert s[i + 1..i + 1 + |pat|] == s[1..][i..i + |pat|];
        assert MatchesAt(s, pat, i + 1);
      }
      if exists i :: MatchesAt(s, pat, i) {
        var i :| MatchesAt(s, pat, i);
        assert s[1..][i - 1..i - 1 + |pat|] == s[i..i + |pat|];
        assert MatchesAt(s[1..], pat, i - 1);
      }
    }
  }

  /** A one-character pattern occurs exactly when the character does. */
  lemma ContainsChar(s: string, c: char)
    ensures Contains(s, [c]) <==> c in s
  {
    ContainsAt(s, [c]);
    if c in s {
      var i :| 0 <= i < |s| && s[i] == c;
      assert s[i..i + 1] == [c];
      assert MatchesAt(s, [c], i);
    }
    if exists i :: MatchesAt(s, [c], i) {
      var i :| MatchesAt(s, [c], i);
      assert s[i..i + 1][0] == s[i];
    }
  }

  /** The security-name tests shared by both lists: ETNs, preferred shares
      or series, and warrants are dropped. */
  predicate NameExcluded(name: string) {
    Contains(name, "ETN") || Contains(name, "Preferred Share") ||
    Contains(name, "Preferred Series") || Contains(name, "Warrants")
  }

  /** The symbol tests shared by both lists: a '.' or a '$' in the symbol. */
  predicate SymbolExcluded(symbol: string) {
    Contains(symbol, ".") || Contains(symbol, "$")
  }

  /** The row mask of get_nasdaq_tickers. */
  predicate KeepNasdaq(r: NasdaqRow) {
    r.nasdaqTraded != "N" && r.testIssue != "Y" && r.etf != "Y" &&
    !NameExcluded(r.securityName) && !SymbolExcluded(r.symbol)
  }

  /** The row mask of get_other_tickers: no Nasdaq Traded test, and the
      symbol tests read ACT Symbol. */
  predicate KeepOther(r: OtherRow) {
    r.testIssue != "Y" && r.etf != "Y" &&
    !NameExcluded(r.securityName) && !SymbolExcluded(r.actSymbol)
  }

  /** df[:-1]: every row but the last; nothing from an empty frame. */
  function DropFooter<T>(rows: seq<T>): (body: seq<T>)
    ensures |body| == if rows == [] then 0 else |rows| - 1
    ensures forall i :: 0 <= i < |body| ==> body[i] == rows[i]
  {
    if rows == [] then [] else rows[..|rows| - 1]
  }

  /** df[mask].reset_index(drop=True): the rows that pass, in their input
      order, numbered from 0. */
  function Filter<T>(rows: seq<T>, keep: T -> bool): (kept: seq<T>)
    ensures |kept| <= |rows|
    ensures forall x :: x in kept ==> x in rows && keep(x)
  {
    if rows == [] then []
    else (if keep(rows[0]) then [rows[0]] else []) + Filter(rows[1..], keep)
  }

  /** Every passing row is kept: nothing that passes the mask is lost. */
  lemma {:induction false} FilterKeepsPassing<T>(rows: seq<T>, keep: T -> bool, x: T)
    requires x in rows && keep(x)
    ensures x in Filter(rows, keep)
  {
    if rows[0] != x {
      FilterKeepsPassing(rows[1..], keep, x);
    }
  }

  /** Filtering distributes over concatenation, so the kept rows keep their
      relative order. */
  lemma {:induction false} FilterAppend<T>(a: seq<T>, b: seq<T>, keep: T -> bool)
    ensures Filter(a + b, keep) == Filter(a, keep) + Filter(b, keep)
  {
    if a != [] {
      assert (a + b)[0] == a[0];
      assert (a + b)[1..] == a[1..] + b;
      FilterAppend(a[1..], b, keep);
    } else {
      assert a + b == b;
    }
  }

  /** Applying the mask again to its own result removes nothing. */
  lemma {:induction false} FilterIdempotent<T>(rows: seq<T>, keep: T -> bool)
    ensures Filter(Filter(rows, keep), keep) == Filter(rows, keep)
  {
    if rows != [] {
      FilterIdempotent(rows[1..], keep);
      var head := if keep(rows[0]) then [rows[0]] else [];
      FilterAppend(head, Filter(rows[1..], keep), keep);
      assert Filter(head, keep) == head by {
        if keep(rows[0]) {
          assert head[1..] == [];
        }
      }
    }
  }

  /** .iloc[:, 1:3] of the Nasdaq file: Symbol and Security Name. */
  function NasdaqListing(r: NasdaqRow): Listing {
    Listing(r.symbol, r.securityName)
  }

  /** .iloc[:, 0:2] of the other file, renamed to Symbol and Security Name. */
  function OtherListing(r: OtherRow): Listing {
    Listing(r.actSymbol, r.securityName)
  }

  /** The projection of every kept row, in order. */
  function Listings<T>(rows: seq<T>, project: T -> Listing): (ls: seq<Listing>)
    ensures |ls| == |rows|
  {
    seq(|rows|, k requires 0 <= k < |rows| => project(rows[k]))
  }

  /** A listing comes out of the file exactly when some non-footer row
      passes the mask and projects to it. */
  lemma ListedExactly<T>(rows: seq<T>, keep: T -> bool, project: T -> Listing)
    ensures forall l :: l in Listings(Filter(DropFooter(rows), keep), project) <==>
              exists i :: 0 <= i < |rows| - 1 && keep(rows[i]) && l == project(rows[i])
  {
    var body := DropFooter(rows);
    var kept := Filter(body, keep);
    forall l
      ensures l in Listings(kept, project) <==>
              exists i :: 0 <= i < |rows| - 1 && keep(rows[i]) && l == project(rows[i])
    {
      if l in Listings(kept, project) {
        var k :| 0 <= k < |kept| && Listings(kept, project)[k] == l;
        assert kept[k] in body;
        var i :| 0 <= i < |body| && body[i] == kept[k];
        assert rows[i] == kept[k];
      }
      if exists i :: 0 <= i < |rows| - 1 && keep(rows[i]) && l == project(rows[i]) {
        var i :| 0 <= i < |rows| - 1 && keep(rows[i]) && l == project(rows[i]);
        assert body[i] == rows[i];
        FilterKeepsPassing(body, keep, rows[i]);
        var k :| 0 <= k < |kept| && kept[k] == rows[i];
        assert Listings(kept, project)[k] == l;
      }
    }
  }

  /** get_nasdaq_tickers on the parsed file: a (Symbol, Security Name)
      pair is listed exactly when some non-footer row passes every Nasdaq
      test and projects to it. */
  function GetNasdaqTickers(rows: seq<NasdaqRow>): (ls: seq<Listing>)
    ensures forall l :: l in ls <==>
              exists i :: 0 <= i < |rows| - 1 && KeepNasdaq(rows[i]) && l == NasdaqListing(rows[i])
  {
    ListedExactly(rows, KeepNasdaq, NasdaqListing);
    Listings(Filter(DropFooter(rows), KeepNasdaq), NasdaqListing)
  }

  /** get_other_tickers on the parsed file: the same, with the tests of
      the other-listed file. */
  function GetOtherTickers(rows: seq<OtherRow>): (ls: seq<Listing>)
    ensures forall l :: l in ls <==>
              exists i :: 0 <= i < |rows| - 1 && KeepOther(rows[i]) && l == OtherListing(rows[i])
  {
    ListedExactly(rows, KeepOther, OtherListing);
    Listings(Filter(DropFooter(rows), KeepOther), OtherListing)
  }

  /** The footer never matters: whatever the last row holds, the result is
      the one of the rows before it. */
  lemma FooterIgnored(body: seq<NasdaqRow>, footer: NasdaqRow, other: seq<OtherRow>, otherFooter: OtherRow)
    ensures GetNasdaqTickers(body + [footer]) == Listings(Filter(body, KeepNasdaq), NasdaqListing)
    ensures GetOtherTickers(other + [otherFooter]) == Listings(Filter(other, KeepOther), OtherListing)
  {
    assert DropFooter(body + [footer]) == body;
    assert DropFooter(other + [otherFooter]) == other;
  }

  /** No symbol in either list contains '.' or '$'. */
  lemma CleanSymbols(nasdaq: seq<NasdaqRow>, other: seq<OtherRow>, l: Listing)
    requires l in GetNasdaqTickers(nasdaq) || l in GetOtherTickers(other)
    ensures '.' !in l.symbol && '$' !in l.symbol
  {
    ContainsChar(l.symbol, '.');
    ContainsChar(l.symbol, '$');
  }

  /** Kept rows appear in the order of the file: the listings of a file
      split in two are the listings of the first part followed by those of
      the second. */
  lemma ListingsKeepOrder(a: seq<NasdaqRow>, b: seq<NasdaqRow>, footer: NasdaqRow)
    ensures GetNasdaqTickers(a + b + [footer]) ==
              Listings(Filter(a, KeepNasdaq), NasdaqListing) + Listings(Filter(b, KeepNasdaq), NasdaqListing)
  {
    assert DropFooter(a + b + [footer]) == a + b;
    FilterAppend(a, b, KeepNasdaq);
  }
}
