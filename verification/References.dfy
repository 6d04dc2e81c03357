/** Daily references (app/utils/reference.py) and how a service picks the next one. */
module References {
  import opened Tables
  import opened NumberText

  /** A calendar day as it is printed: the century is not. */
  datatype Day = Day(day: nat, month: nat, year: nat)

  predicate Calendar(d: Day) {
    1 <= d.day <= 31 && 1 <= d.month <= 12 && d.year < 100
  }

  /** `{prefix}-{on_date:%d-%m-%y}-`. */
  function DailyPrefix(kind: string, d: Day): string {
    kind + "-" + Padded(d.day, 2) + "-" + Padded(d.month, 2) + "-" + Padded(d.year, 2) + "-"
  }

  function DailyReference(kind: string, d: Day, sequence: nat): string {
    DailyPrefix(kind, d) + Padded(sequence, 4)
  }

  /** The sequence number printed at the end of a reference. */
  function SequenceOf(kind: string, d: Day, reference: string): Option<nat> {
    var prefix := DailyPrefix(kind, d);
    if prefix <= reference && AllDigits(reference[|prefix|..]) then Some(Number(reference[|prefix|..])) else None
  }

  /** The sequence number can be recovered from the reference, also past 9999. */
  lemma SequenceIsRecoverable(kind: string, d: Day, n: nat)
    ensures DailyPrefix(kind, d) <= DailyReference(kind, d, n)
    ensures SequenceOf(kind, d, DailyReference(kind, d, n)) == Some(n)
  {
    var prefix := DailyPrefix(kind, d);
    assert DailyReference(kind, d, n)[|prefix|..] == Padded(n, 4);
    PaddedReadsBack(n, 4);
  }

  lemma ReferencesDiffer(kind: string, d: Day, m: nat, n: nat)
    ensures DailyReference(kind, d, m) == DailyReference(kind, d, n) ==> m == n
  {
    SequenceIsRecoverable(kind, d, m);
    SequenceIsRecoverable(kind, d, n);
  }

  lemma PrefixParts(kind: string, d: Day)
    requires Calendar(d)
    ensures var p, k := DailyPrefix(kind, d), |kind|;
      && |p| == k + 10
      && p[k + 1..k + 3] == Padded(d.day, 2)
      && p[k + 4..k + 6] == Padded(d.month, 2)
      && p[k + 7..k + 9] == Padded(d.year, 2)
  {
    TwoDigits(d.day);
    TwoDigits(d.month);
    TwoDigits(d.year);
  }

  /** References of different days never share a prefix. */
  lemma DaysDiffer(kind: string, d: Day, e: Day, reference: string)
    requires Calendar(d) && Calendar(e)
    requires DailyPrefix(kind, d) <= reference && DailyPrefix(kind, e) <= reference
    ensures d == e
  {
    PrefixParts(kind, d);
    PrefixParts(kind, e);
    assert DailyPrefix(kind, d) == reference[..|kind| + 10] == DailyPrefix(kind, e);
    PaddedReadsBack(d.day, 2);
    PaddedReadsBack(e.day, 2);
    PaddedReadsBack(d.month, 2);
    PaddedReadsBack(e.month, 2);
    PaddedReadsBack(d.year, 2);
    PaddedReadsBack(e.year, 2);
  }

  // ---- issuing -----------------------------------------------------------------------------

  const REFERENCE_MAX_RETRIES: nat := 5

  /** `count_by_company_and_reference_prefix` over the references of one company. */
  function CountWithPrefix(references: seq<string>, prefix: string): nat {
    if references == [] then 0
    else
      CountWithPrefix(references[..|references| - 1], prefix)
      + if prefix <= references[|references| - 1] then 1 else 0
  }

  /** The first of the candidates from `attempt` on that is not taken. */
  function FirstFree(references: seq<string>, kind: string, d: Day, issued: nat, attempt: nat): Result<string>
    requires attempt <= REFERENCE_MAX_RETRIES
    decreases REFERENCE_MAX_RETRIES - attempt
  {
    if attempt == REFERENCE_MAX_RETRIES then Err(Conflict)
    else
      var candidate := DailyReference(kind, d, issued + 1 + attempt);
      if candidate !in references then Ok(candidate) else FirstFree(references, kind, d, issued, attempt + 1)
  }

  function NextReference(references: seq<string>, kind: string, d: Day): Result<string> {
    FirstFree(references, kind, d, CountWithPrefix(references, DailyPrefix(kind, d)), 0)
  }

  method GenerateUniqueReference(references: seq<string>, kind: string, d: Day) returns (r: Result<string>)
    ensures r == NextReference(references, kind, d)
  {
    hide DailyReference, DailyPrefix, CountWithPrefix;
    var alreadyIssued := CountWithPrefix(references, DailyPrefix(kind, d));
    for attempt := 0 to REFERENCE_MAX_RETRIES
      invariant FirstFree(references, kind, d, alreadyIssued, attempt) == NextReference(references, kind, d)
    {
      var candidate := DailyReference(kind, d, alreadyIssued + 1 + attempt);
      if candidate !in references {
        return Ok(candidate);
      }
    }
    return Err(Conflict);
  }

  /** The `n`-th number after those counted is taken. */
  predicate Taken(references: seq<string>, kind: string, d: Day, n: nat) {
    DailyReference(kind, d, CountWithPrefix(references, DailyPrefix(kind, d)) + n) in references
  }

  lemma FreeNow(references: seq<string>, kind: string, d: Day, attempt: nat)
    requires attempt < 5
    ensures var issued := CountWithPrefix(references, DailyPrefix(kind, d));
      FirstFree(references, kind, d, issued, attempt)
      == if Taken(references, kind, d, attempt + 1) then FirstFree(references, kind, d, issued, attempt + 1)
         else Ok(DailyReference(kind, d, issued + (attempt + 1)))
  {
    hide DailyReference, DailyPrefix, CountWithPrefix;
    var issued := CountWithPrefix(references, DailyPrefix(kind, d));
    assert issued + 1 + attempt == issued + (attempt + 1);
  }

  lemma {:induction false} FirstFreeIs(references: seq<string>, kind: string, d: Day, attempt: nat, n: nat)
    requires attempt < n <= 5 && !Taken(references, kind, d, n)
    requires forall k :: attempt < k < n ==> Taken(references, kind, d, k)
    ensures FirstFree(references, kind, d, CountWithPrefix(references, DailyPrefix(kind, d)), attempt)
         == Ok(DailyReference(kind, d, CountWithPrefix(references, DailyPrefix(kind, d)) + n))
    decreases n - attempt
  {
    hide FirstFree, Taken, DailyReference, DailyPrefix, CountWithPrefix;
    FreeNow(references, kind, d, attempt);
    if attempt + 1 < n {
      FirstFreeIs(references, kind, d, attempt + 1, n);
    }
  }

  lemma {:induction false} NoneIsFree(references: seq<string>, kind: string, d: Day, attempt: nat)
    requires attempt <= 5 && forall k :: attempt < k <= 5 ==> Taken(references, kind, d, k)
    ensures FirstFree(references, kind, d, CountWithPrefix(references, DailyPrefix(kind, d)), attempt) == Err(Conflict)
    decreases 5 - attempt
  {
    hide Taken, DailyReference, DailyPrefix, CountWithPrefix;
    if attempt < 5 {
      FreeNow(references, kind, d, attempt);
      NoneIsFree(references, kind, d, attempt + 1);
    }
  }

  /** The reference issued is the first of the five numbers after those counted that is not taken; if all five
      are, there is a conflict. */
  lemma NextReferenceIsFirstFree(references: seq<string>, kind: string, d: Day, n: nat)
    ensures 1 <= n <= 5 && !Taken(references, kind, d, n) && (forall k :: 1 <= k < n ==> Taken(references, kind, d, k))
      ==> NextReference(references, kind, d)
          == Ok(DailyReference(kind, d, CountWithPrefix(references, DailyPrefix(kind, d)) + n))
    ensures (forall k :: 1 <= k <= 5 ==> Taken(references, kind, d, k)) ==>
      NextReference(references, kind, d) == Err(Conflict)
  {
    hide FirstFree, Taken, DailyReference, DailyPrefix, CountWithPrefix;
    if 1 <= n <= 5 && !Taken(references, kind, d, n) && (forall k :: 1 <= k < n ==> Taken(references, kind, d, k)) {
      FirstFreeIs(references, kind, d, 0, n);
    }
    if forall k :: 1 <= k <= 5 ==> Taken(references, kind, d, k) {
      NoneIsFree(references, kind, d, 0);
    }
  }

  /** One company's references after a run of creations, one on each of the given days. */
  function Issued(kind: string, days: seq<Day>): seq<string> {
    if days == [] then []
    else
      var before := Issued(kind, days[..|days| - 1]);
      match NextReference(before, kind, days[|days| - 1])
      case Ok(reference) => before + [reference]
      case Err(_) => before
  }

  function CountDay(days: seq<Day>, d: Day): nat {
    if days == [] then 0
    else CountDay(days[..|days| - 1], d) + if days[|days| - 1] == d then 1 else 0
  }

  /** What the i-th creation is called: its rank among the creations of its day. */
  function Expected(kind: string, days: seq<Day>, i: nat): string
    requires i < |days|
  {
    DailyReference(kind, days[i], CountDay(days[..i + 1], days[i]))
  }

  ghost predicate Gapless(kind: string, days: seq<Day>, references: seq<string>) {
    && |references| == |days|
    && (forall i :: 0 <= i < |days| ==> references[i] == Expected(kind, days, i))
    && (forall d :: Calendar(d) ==> CountWithPrefix(references, DailyPrefix(kind, d)) == CountDay(days, d))
  }

  lemma {:induction false} CountGrows(days: seq<Day>, i: nat, j: nat, d: Day)
    requires i <= j <= |days|
    ensures CountDay(days[..i], d) <= CountDay(days[..j], d)
    decreases j
  {
    if i < j {
      assert days[..j][..j - 1] == days[..j - 1];
      CountGrows(days, i, j - 1, d);
    }
  }

  /** Equal references are of the same day and number. */
  lemma SameReference(kind: string, d: Day, m: nat, e: Day, n: nat)
    requires Calendar(d) && Calendar(e)
    ensures DailyReference(kind, d, m) == DailyReference(kind, e, n) ==> d == e && m == n
  {
    hide DailyReference, SequenceOf;
    SequenceIsRecoverable(kind, d, m);
    SequenceIsRecoverable(kind, e, n);
    if DailyReference(kind, d, m) == DailyReference(kind, e, n) {
      DaysDiffer(kind, d, e, DailyReference(kind, d, m));
      ReferencesDiffer(kind, d, m, n);
    }
  }

  /** The candidate after those issued so far is not among them. */
  lemma NextIsFree(kind: string, days: seq<Day>, references: seq<string>, d: Day)
    requires Calendar(d) && (forall i :: 0 <= i < |days| ==> Calendar(days[i]))
    ensures Gapless(kind, days, references) ==> DailyReference(kind, d, CountDay(days, d) + 1) !in references
  {
    hide DailyReference, DailyPrefix, CountWithPrefix, Calendar;
    var candidate := DailyReference(kind, d, CountDay(days, d) + 1);
    assert days[..|days|] == days;
    forall i | Gapless(kind, days, references) && 0 <= i < |references| ensures references[i] != candidate {
      var rank := CountDay(days[..i + 1], days[i]);
      assert references[i] == Expected(kind, days, i) == DailyReference(kind, days[i], rank);
      if references[i] == candidate {
        SameReference(kind, days[i], rank, d, CountDay(days, d) + 1);
        CountGrows(days, i + 1, |days|, d);
      }
    }
  }

  lemma ExpectedKept(kind: string, days: seq<Day>, references: seq<string>, d: Day, next: string)
    requires Gapless(kind, days, references) && next == DailyReference(kind, d, CountDay(days, d) + 1)
    ensures forall i :: 0 <= i < |days| + 1 ==> (references + [next])[i] == Expected(kind, days + [d], i)
  {
    hide DailyReference, DailyPrefix, CountWithPrefix;
    var days' := days + [d];
    assert days'[..|days|] == days;
    forall i | 0 <= i < |days'| ensures (references + [next])[i] == Expected(kind, days', i) {
      if i < |days| {
        assert days'[..i + 1] == days[..i + 1];
        assert references[i] == Expected(kind, days, i);
      } else {
        assert days'[..i + 1] == days';
      }
    }
  }

  lemma CountsKept(kind: string, days: seq<Day>, references: seq<string>, d: Day, next: string, e: Day)
    requires Calendar(d) && Calendar(e) && next == DailyReference(kind, d, CountDay(days, d) + 1)
    requires CountWithPrefix(references, DailyPrefix(kind, e)) == CountDay(days, e)
    ensures CountWithPrefix(references + [next], DailyPrefix(kind, e)) == CountDay(days + [d], e)
  {
    hide DailyReference, DailyPrefix, SequenceOf;
    assert (days + [d])[..|days|] == days && (references + [next])[..|references|] == references;
    SequenceIsRecoverable(kind, d, CountDay(days, d) + 1);
    if DailyPrefix(kind, e) <= next {
      DaysDiffer(kind, d, e, next);
    }
  }

  lemma GaplessStep(kind: string, days: seq<Day>, references: seq<string>, d: Day)
    requires Calendar(d) && (forall i :: 0 <= i < |days| ==> Calendar(days[i]))
    ensures var next := DailyReference(kind, d, CountDay(days, d) + 1);
      Gapless(kind, days, references) ==>
        NextReference(references, kind, d) == Ok(next) && Gapless(kind, days + [d], references + [next])
  {
    hide DailyReference, DailyPrefix, CountWithPrefix, CountDay, Expected, Calendar;
    var next := DailyReference(kind, d, CountDay(days, d) + 1);
    NextIsFree(kind, days, references, d);
    if Gapless(kind, days, references) {
      ExpectedKept(kind, days, references, d, next);
      forall e | Calendar(e)
        ensures CountWithPrefix(references + [next], DailyPrefix(kind, e)) == CountDay(days + [d], e)
      {
        CountsKept(kind, days, references, d, next, e);
      }
    }
  }

  lemma NothingIssued(kind: string)
    ensures Gapless(kind, [], [])
  {
  }

  /** However the days are mixed, the creations of each day are numbered 1, 2, 3, ... without gaps,
      and no creation fails for want of a reference: its first candidate is always free. */
  lemma {:induction false} DailyReferencesAreGapless(kind: string, days: seq<Day>)
    requires forall i :: 0 <= i < |days| ==> Calendar(days[i])
    ensures Gapless(kind, days, Issued(kind, days))
  {
    hide DailyReference, DailyPrefix, Gapless;
    if days == [] {
      NothingIssued(kind);
    } else {
      var before, d := days[..|days| - 1], days[|days| - 1];
      DailyReferencesAreGapless(kind, before);
      GaplessStep(kind, before, Issued(kind, before), d);
      assert days == before + [d];
    }
  }
}
