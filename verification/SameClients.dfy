/** Which entries may be merged: when two entries are of the same client, read from their columns. */
module SameClients {
  import opened Tables
  import opened Entries

  // ---- trimming, as a relation -------------------------------------------------------------

  const BLANKS := {' ', '\t', '\n', '\r', '\U{b}', '\U{c}', '\U{1c}', '\U{1d}', '\U{1e}', '\U{1f}'}

  predicate Blank(s: string) {
    forall k :: 0 <= k < |s| ==> s[k] in BLANKS
  }

  /** Cutting `s` at `i` and `j` leaves `t`: only blanks go, and `t` has none at its ends. */
  ghost predicate CutAt(s: string, t: string, i: nat, j: nat) {
    && i <= j <= |s| && t == s[i..j] && Blank(s[..i]) && Blank(s[j..])
    && (t == "" || (t[0] !in BLANKS && t[|t| - 1] !in BLANKS))
  }

  /** `t` is `s` without the blanks around it. */
  ghost predicate Trims(s: string, t: string) {
    exists i, j :: CutAt(s, t, i, j)
  }

  lemma BlankIsSpace(c: char)
    ensures IsSpace(c) <==> c in BLANKS
  {
  }

  lemma {:induction false} LeftIsCut(s: string) returns (i: nat)
    ensures i <= |s| && StripLeft(s) == s[i..] && Blank(s[..i]) && (i < |s| ==> s[i] !in BLANKS)
  {
    i := 0;
    if s != "" {
      BlankIsSpace(s[0]);
      if IsSpace(s[0]) {
        i := LeftIsCut(s[1..]);
        assert s[..i + 1] == [s[0]] + s[1..][..i];
        i := i + 1;
      }
    }
  }

  lemma {:induction false} RightIsCut(s: string) returns (j: nat)
    ensures j <= |s| && StripRight(s) == s[..j] && Blank(s[j..]) && (j > 0 ==> s[j - 1] !in BLANKS)
  {
    j := |s|;
    if s != "" {
      var n := |s| - 1;
      BlankIsSpace(s[n]);
      if IsSpace(s[n]) {
        j := RightIsCut(s[..n]);
        assert forall k :: 0 <= k < n - j ==> s[j..][k] == s[..n][j..][k];
      }
    }
  }

  lemma StripTrims(s: string)
    ensures Trims(s, StripRight(StripLeft(s)))
  {
    hide StripLeft, StripRight;
    var i := LeftIsCut(s);
    var n := RightIsCut(s[i..]);
    var t := s[i..][..n];
    assert t == s[i..i + n] && s[i + n..] == s[i..][n..];
    assert CutAt(s, t, i, i + n);
  }

  /** Nothing of one trimmed text is cut away by another cut. */
  lemma CutsAgree(s: string, t: string, u: string, i: nat, j: nat, i': nat, j': nat)
    requires CutAt(s, t, i, j) && CutAt(s, u, i', j') && t != ""
    ensures i' <= i && j <= j'
  {
  }

  lemma TrimIsUnique(s: string, t: string, u: string)
    requires Trims(s, t) && Trims(s, u)
    ensures t == u
  {
    var i, j :| CutAt(s, t, i, j);
    var i', j' :| CutAt(s, u, i', j');
    if t != "" {
      CutsAgree(s, t, u, i, j, i', j');
    }
    if u != "" {
      CutsAgree(s, u, t, i', j', i, j);
    }
  }

  // ---- the same client ---------------------------------------------------------------------

  /** The same ASCII letter in upper and in lower case. */
  predicate CaseOf(upper: char, lower: char) {
    'A' <= upper <= 'Z' && lower as int == upper as int + 32
  }

  /** The same text but for the case of its letters. */
  predicate SameLetters(a: string, b: string) {
    |a| == |b| && forall k :: 0 <= k < |a| ==> a[k] == b[k] || CaseOf(a[k], b[k]) || CaseOf(b[k], a[k])
  }

  lemma LowerIgnoresCase(a: string, b: string)
    ensures Lower(a) == Lower(b) <==> SameLetters(a, b)
  {
    if Lower(a) == Lower(b) {
      assert |a| == |Lower(a)| == |b|;
      forall k | 0 <= k < |a| ensures a[k] == b[k] || CaseOf(a[k], b[k]) || CaseOf(b[k], a[k]) {
        assert Lower(a)[k] == Lower(b)[k];
      }
    }
  }

  predicate Named(entry: Entry) {
    entry.clientName.Some? && entry.clientPhone.Some?
  }

  /** Trimmed, the two names differ in case at most, and the two phones do not differ. */
  ghost predicate SameClient(a: Entry, b: Entry) {
    && Named(a) && Named(b)
    && (exists m, n :: Trims(a.clientName.value, m) && Trims(b.clientName.value, n) && SameLetters(m, n))
    && (exists p :: Trims(a.clientPhone.value, p) && Trims(b.clientPhone.value, p))
  }

  lemma KeysTellClients(a: Entry, b: Entry)
    ensures Named(a) <==> ClientKey(a).Some?
    ensures SameClient(a, b) <==> ClientKey(a).Some? && ClientKey(a) == ClientKey(b)
  {
    hide Trims, SameLetters, Lower, StripLeft, StripRight;
    if Named(a) && Named(b) {
      var m, n := StripRight(StripLeft(a.clientName.value)), StripRight(StripLeft(b.clientName.value));
      var p, q := StripRight(StripLeft(a.clientPhone.value)), StripRight(StripLeft(b.clientPhone.value));
      StripTrims(a.clientName.value);
      StripTrims(b.clientName.value);
      StripTrims(a.clientPhone.value);
      StripTrims(b.clientPhone.value);
      LowerIgnoresCase(m, n);
      if SameClient(a, b) {
        var m', n' :| Trims(a.clientName.value, m') && Trims(b.clientName.value, n') && SameLetters(m', n');
        var p' :| Trims(a.clientPhone.value, p') && Trims(b.clientPhone.value, p');
        TrimIsUnique(a.clientName.value, m, m');
        TrimIsUnique(b.clientName.value, n, n');
        TrimIsUnique(a.clientPhone.value, p, p');
        TrimIsUnique(b.clientPhone.value, q, p');
      }
    }
  }

  // ---- when a merge goes through -----------------------------------------------------------

  /** An entry of the company, with a client, not merged and not used up. */
  predicate MayMerge(f: Funds, company: Company, e: Id) {
    && e < |f.entries| && f.entries[e].company == company
    && (f.entries[e].status.Unallocated? || f.entries[e].status.PartiallyAllocated?)
    && f.entries[e].mergedInto.None? && Named(f.entries[e])
  }

  lemma {:induction false} RefusalIff(f: Funds, company: Company, ids: seq<Id>, key: Option<(string, string)>)
    ensures MergeRefusal(f, company, ids, key).None? <==>
      && (forall i :: 0 <= i < |ids| ==> MayMerge(f, company, ids[i]))
      && forall i :: 0 <= i < |ids| ==>
           ClientKey(f.entries[ids[i]]) == if key.Some? then key else ClientKey(f.entries[ids[0]])
    decreases |ids|
  {
    hide ClientKey;
    if ids != [] {
      assert forall i :: 0 < i < |ids| ==> ids[i] == ids[1..][i - 1];
      if MayMerge(f, company, ids[0]) {
        var own := ClientKey(f.entries[ids[0]]);
        KeysTellClients(f.entries[ids[0]], f.entries[ids[0]]);
        RefusalIff(f, company, ids[1..], own);
        forall i | 0 <= i < |ids[1..]| ensures ids[1..][i] == ids[i + 1] {}
      } else if Owned(f, company, ids[0]) {
        KeysTellClients(f.entries[ids[0]], f.entries[ids[0]]);
      }
    }
  }

  /** A merge goes through exactly for two or more different entries of the company, each with a client,
      not merged and not used up, and any two of them of the same client. */
  lemma MergeSucceedsIff(l: Ledger, company: Company, ids: seq<Id>)
    ensures EntriesMerged(l, company, ids).Ok? <==>
      && |ids| >= 2 && Distinct(ids)
      && (forall i :: 0 <= i < |ids| ==> MayMerge(l.funds, company, ids[i]))
      && forall i, j :: 0 <= i < |ids| && 0 <= j < |ids| ==>
           SameClient(l.funds.entries[ids[i]], l.funds.entries[ids[j]])
  {
    var f := l.funds;
    RefusalIff(f, company, ids, None);
    hide ClientKey, SameClient, MergeRefusal;
    if forall i :: 0 <= i < |ids| ==> MayMerge(f, company, ids[i]) {
      forall i, j | 0 <= i < |ids| && 0 <= j < |ids|
        ensures ids[i] < |f.entries| && ids[j] < |f.entries|
        ensures SameClient(f.entries[ids[i]], f.entries[ids[j]])
          <==> ClientKey(f.entries[ids[i]]) == ClientKey(f.entries[ids[j]])
      {
        KeysTellClients(f.entries[ids[i]], f.entries[ids[j]]);
      }
    }
  }

  /** The merged entry carries the first source's client, word for word, who is that of every source. */
  lemma MergedEntryIsOfThatClient(l: Ledger, company: Company, ids: seq<Id>)
    requires EntriesMerged(l, company, ids).Ok?
    ensures var entries := EntriesMerged(l, company, ids).value.funds.entries;
      && |entries| == |l.funds.entries| + 1
      && var merged := entries[|l.funds.entries|];
         && merged.company == company && merged.status.Unallocated? && merged.mergedInto.None?
         && ids != [] && ids[0] < |l.funds.entries|
         && merged.clientName == l.funds.entries[ids[0]].clientName
         && merged.clientPhone == l.funds.entries[ids[0]].clientPhone
         && forall i :: 0 <= i < |ids| ==> ids[i] < |l.funds.entries| && SameClient(merged, l.funds.entries[ids[i]])
  {
    MergeSucceedsIff(l, company, ids);
    var merged := EntriesMerged(l, company, ids).value.funds.entries[|l.funds.entries|];
    hide SameClient;
    forall i | 0 <= i < |ids| ensures SameClient(merged, l.funds.entries[ids[i]]) {
      assert SameClient(l.funds.entries[ids[0]], l.funds.entries[ids[i]]);
      KeysTellClients(l.funds.entries[ids[0]], l.funds.entries[ids[i]]);
      KeysTellClients(merged, l.funds.entries[ids[i]]);
    }
  }
}
