/** The audit note of a reliquat, and the report that reads fees back from such notes
    (app/services/report_service.py). */
module FeeNotes {
  import opened Money
  import opened NumberText
  import opened Tables

  // ---- writing -----------------------------------------------------------------------------

  function ActionText(action: ReliquatAction): string {
    match action
    case KeepUnallocated => "unallocated"
    case Fee => "fee"
    case ClientCredit => "client_credit"
  }

  function CurrencyCode(c: Currency): string {
    match c
    case XOF => "XOF"
    case GNF => "GNF"
    case USD => "USD"
    case EUR => "EUR"
  }

  /** A quantized decimal as `str` prints it. */
  function AmountText(cents: nat): string {
    Digits(cents / 100) + "." + Padded(cents % 100, 2)
  }

  function NoteHead(action: ReliquatAction): string {
    "action=" + ActionText(action) + " amount="
  }

  function Note(action: ReliquatAction, cents: nat, currency: string): string {
    NoteHead(action) + AmountText(cents) + " " + currency
  }

  // ---- reading -----------------------------------------------------------------------------

  const FEE_NOTE_PREFIX := "action=fee amount="

  predicate IsSpace(c: char) {
    c == ' ' || '\t' <= c <= '\r' || '\U{1c}' <= c <= '\U{1f}'
  }

  predicate InAmount(c: char) {
    IsDigit(c) || c == '.'
  }

  /** Where the run of `[\d.]` that starts at `i` ends. */
  function AmountEnd(s: string, i: nat): (j: nat)
    requires i <= |s|
    ensures i <= j <= |s| && (forall k :: i <= k < j ==> InAmount(s[k])) && (j < |s| ==> !InAmount(s[j]))
    decreases |s| - i
  {
    if i < |s| && InAmount(s[i]) then AmountEnd(s, i + 1) else i
  }

  /** Where the run of `\S` that starts at `i` ends. */
  function WordEnd(s: string, i: nat): (j: nat)
    requires i <= |s|
    ensures i <= j <= |s| && (forall k :: i <= k < j ==> !IsSpace(s[k])) && (j < |s| ==> IsSpace(s[j]))
    decreases |s| - i
  {
    if i < |s| && !IsSpace(s[i]) then WordEnd(s, i + 1) else i
  }

  /** The groups of `action=fee amount=([\d.]+) (\S+)` matched at position `i`. Both runs are taken
      whole: after a shorter amount there would be no blank. */
  function MatchAt(s: string, i: nat): Option<(string, string)>
    requires i <= |s|
  {
    if !(FEE_NOTE_PREFIX <= s[i..]) then None
    else
      var start := i + |FEE_NOTE_PREFIX|;
      var end := AmountEnd(s, start);
      if end == start || end == |s| || s[end] != ' ' then None
      else
        var wordEnd := WordEnd(s, end + 1);
        if wordEnd == end + 1 then None else Some((s[start..end], s[end + 1..wordEnd]))
  }

  /** `re.search`: the leftmost match. */
  function Search(s: string, i: nat): Option<(string, string)>
    requires i <= |s|
    decreases |s| - i
  {
    if MatchAt(s, i).Some? then MatchAt(s, i)
    else if i == |s| then None
    else Search(s, i + 1)
  }

  function PointIn(s: string, i: nat): (j: nat)
    requires i <= |s|
    ensures i <= j <= |s| && (forall k :: i <= k < j ==> s[k] != '.') && (j < |s| ==> s[j] == '.')
    decreases |s| - i
  {
    if i < |s| && s[i] != '.' then PointIn(s, i + 1) else i
  }

  function Power10(k: nat): (r: real)
    ensures r > 0.0
  {
    if k == 0 then 1.0 else 10.0 * Power10(k - 1)
  }

  /** `Decimal(text)` for a text of digits and points; None is `InvalidOperation`. */
  function ParseDecimal(text: string): Option<real> {
    var point := PointIn(text, 0);
    if point == |text| then
      if text != "" && AllDigits(text) then Some(Number(text) as real) else None
    else
      var whole, fraction := text[..point], text[point + 1..];
      if |whole| + |fraction| == 0 || !AllDigits(whole) || !AllDigits(fraction) then None
      else Some(Number(whole) as real + Number(fraction) as real / Power10(|fraction|))
  }

  // ---- the round trip of one note ----------------------------------------------------------

  predicate Word(s: string) {
    s != "" && forall i :: 0 <= i < |s| ==> !IsSpace(s[i])
  }

  lemma DecimalParts(whole: string, fraction: string)
    requires AllDigits(whole) && AllDigits(fraction) && |fraction| == 2
    ensures ParseDecimal(whole + "." + fraction) == Some(Number(whole) as real + Number(fraction) as real / 100.0)
  {
    hide Number;
    var text := whole + "." + fraction;
    assert forall k :: 0 <= k < |whole| ==> text[k] == whole[k];
    assert text[|whole|] == '.' && text[..|whole|] == whole && text[|whole| + 1..] == fraction;
    assert PointIn(text, 0) == |whole|;
    assert Power10(2) == 10.0 * Power10(1) && Power10(1) == 10.0 * Power10(0);
  }

  lemma CentsSplit(cents: nat)
    ensures (cents / 100) as real + (cents % 100) as real / 100.0 == Decimal(cents)
  {
    assert (100 * (cents / 100) + cents % 100) as real == cents as real;
  }

  /** The text of a stored amount parses back to it. */
  lemma AmountReadsBack(cents: nat)
    ensures ParseDecimal(AmountText(cents)) == Some(Decimal(cents))
  {
    hide ParseDecimal, Padded, Digits;
    TwoDigits(cents % 100);
    PaddedReadsBack(cents % 100, 2);
    DecimalParts(Digits(cents / 100), Padded(cents % 100, 2));
    CentsSplit(cents);
  }

  lemma AmountIsRun(cents: nat)
    ensures AmountText(cents) != "" && forall k :: 0 <= k < |AmountText(cents)| ==> InAmount(AmountText(cents)[k])
  {
  }

  /** A match whose runs are where they are expected. */
  lemma MatchParts(s: string, amount: string, word: string)
    requires s == FEE_NOTE_PREFIX + amount + " " + word
    requires amount != "" && (forall k :: 0 <= k < |amount| ==> InAmount(amount[k])) && Word(word)
    ensures MatchAt(s, 0) == Some((amount, word))
  {
    var start := |FEE_NOTE_PREFIX|;
    var end := start + |amount|;
    assert s[0..] == s && s[..start] == FEE_NOTE_PREFIX;
    assert s[start..end] == amount && s[end] == ' ' && s[end + 1..|s|] == word;
    RunsEnd(FEE_NOTE_PREFIX, amount, word);
  }

  lemma RunsEnd(head: string, amount: string, word: string)
    requires (forall k :: 0 <= k < |amount| ==> InAmount(amount[k])) && Word(word)
    ensures var s, end := head + amount + " " + word, |head| + |amount|;
      AmountEnd(s, |head|) == end && WordEnd(s, end + 1) == |s|
  {
    hide AmountEnd, WordEnd;
    var s, start, end := head + amount + " " + word, |head|, |head| + |amount|;
    assert forall k :: start <= k < end ==> s[k] == amount[k - start];
    assert s[end] == ' ' && AmountEnd(s, start) == end;
    assert forall k :: end + 1 <= k < |s| ==> s[k] == word[k - end - 1];
    assert WordEnd(s, end + 1) == |s|;
  }

  lemma FeeHead()
    ensures NoteHead(Fee) == FEE_NOTE_PREFIX
  {
  }

  /** Parsing the note written for a fee returns exactly its amount and currency. */
  lemma FeeNoteReadsBack(cents: nat, currency: string)
    requires Word(currency)
    ensures Search(Note(Fee, cents, currency), 0) == Some((AmountText(cents), currency))
    ensures ParseDecimal(AmountText(cents)) == Some(Decimal(cents))
  {
    hide NoteHead, AmountText, ParseDecimal, MatchAt, Word;
    FeeHead();
    AmountIsRun(cents);
    MatchParts(Note(Fee, cents, currency), AmountText(cents), currency);
    AmountReadsBack(cents);
  }

  /** Wherever the pattern's literal part occurs, a blank follows an `e`. */
  lemma LiteralHasBlank(s: string, i: nat)
    requires i <= |s| && FEE_NOTE_PREFIX <= s[i..]
    ensures i + 10 < |s| && s[i + 10] == ' ' && s[i + 9] == 'e'
  {
    assert s[i..][10] == FEE_NOTE_PREFIX[10] && s[i..][9] == FEE_NOTE_PREFIX[9];
  }

  predicate BlankAfterE(s: string, k: nat) {
    0 < k < |s| && s[k] == ' ' && s[k - 1] == 'e'
  }

  lemma CreditHead(k: nat)
    ensures !BlankAfterE(NoteHead(ClientCredit), k)
    ensures |NoteHead(ClientCredit)| > 0
  {
    var head := "action=client_credit amount=";
    assert NoteHead(ClientCredit) == head;
    assert head[20] == ' ' && forall j :: 0 <= j < |head| && j != 20 ==> head[j] != ' ';
  }

  lemma BlanksOfNote(head: string, amount: string, word: string, k: nat)
    requires amount != "" && (forall j :: 0 <= j < |amount| ==> InAmount(amount[j])) && Word(word)
    requires !BlankAfterE(head, k)
    ensures !BlankAfterE(head + amount + " " + word, k)
  {
    var s := head + amount + " " + word;
    if 0 < k < |s| {
      if k < |head| {
        assert s[k] == head[k] && s[k - 1] == head[k - 1];
      } else if k < |head| + |amount| {
        assert s[k] == amount[k - |head|];
      } else if k == |head| + |amount| {
        assert s[k - 1] == amount[|amount| - 1];
      } else {
        assert s[k] == word[k - |head| - |amount| - 1];
      }
    }
  }

  /** No blank of a client-credit note follows an `e`. */
  lemma BlanksOfCreditNote(cents: nat, currency: string, k: nat)
    requires Word(currency)
    ensures !BlankAfterE(Note(ClientCredit, cents, currency), k)
  {
    hide NoteHead, AmountText, Word, BlankAfterE;
    AmountIsRun(cents);
    CreditHead(k);
    BlanksOfNote(NoteHead(ClientCredit), AmountText(cents), currency, k);
  }

  lemma {:induction false} CreditNoteNeverMatches(cents: nat, currency: string, i: nat)
    requires Word(currency) && i <= |Note(ClientCredit, cents, currency)|
    ensures Search(Note(ClientCredit, cents, currency), i).None?
    decreases |Note(ClientCredit, cents, currency)| - i
  {
    hide Note, Word;
    var s := Note(ClientCredit, cents, currency);
    if FEE_NOTE_PREFIX <= s[i..] {
      LiteralHasBlank(s, i);
      BlanksOfCreditNote(cents, currency, i + 10);
      assert false;
    }
    if i < |s| {
      CreditNoteNeverMatches(cents, currency, i + 1);
    }
  }

  // ---- the fees report ---------------------------------------------------------------------

  datatype Log = Log(
    company: Company, action: string, entityType: string, entity: Id, day: int, note: Option<string>)

  datatype FeeRow = FeeRow(sourceType: string, source: Id, amount: real, currency: string, day: int)

  predicate InPeriod(day: int, from: Option<int>, to: Option<int>) {
    !(from.Some? && day < from.value) && !(to.Some? && day > to.value)
  }

  predicate IsReliquat(log: Log) {
    log.action == "transfer.reliquat" || log.action == "payment.reliquat"
  }

  /** What one log adds to the report. */
  function FeeOf(log: Log, from: Option<int>, to: Option<int>): Result<seq<FeeRow>> {
    if !IsReliquat(log) || !InPeriod(log.day, from, to) || log.note.None? then Ok([])
    else
      match Search(log.note.value, 0)
      case None => Ok([])
      case Some((amount, currency)) =>
        match ParseDecimal(amount)
        case None => Err(BadAmount)
        case Some(value) => Ok([FeeRow(log.entityType, log.entity, value, currency, log.day)])
  }

  function FeesReport(logs: seq<Log>, from: Option<int>, to: Option<int>): Result<seq<FeeRow>> {
    if logs == [] then Ok([])
    else
      var rows :- FeesReport(logs[..|logs| - 1], from, to);
      var last :- FeeOf(logs[|logs| - 1], from, to);
      Ok(rows + last)
  }

  method BuildFeesReport(logs: seq<Log>, from: Option<int>, to: Option<int>) returns (r: Result<seq<FeeRow>>)
    ensures r == FeesReport(logs, from, to)
  {
    var rows: seq<FeeRow> := [];
    for i := 0 to |logs|
      invariant FeesReport(logs[..i], from, to) == Ok(rows)
    {
      var log := logs[i];
      assert logs[..i + 1][..i] == logs[..i] && logs[..i + 1][i] == log && rows + [] == rows;
      if !IsReliquat(log) {
        continue;
      }
      if !InPeriod(log.day, from, to) {
        continue;
      }
      if log.note.None? {
        continue;
      }
      var groups := Search(log.note.value, 0);
      if groups.None? {
        continue;
      }
      var (amount, currency) := groups.value;
      var value := ParseDecimal(amount);
      if value.None? {
        FailureStays(logs, i + 1, from, to);
        return Err(BadAmount);
      }
      rows := rows + [FeeRow(log.entityType, log.entity, value.value, currency, log.day)];
    }
    assert logs[..|logs|] == logs;
    return Ok(rows);
  }

  /** A malformed amount fails the whole report. */
  lemma {:induction false} FailureStays(logs: seq<Log>, i: nat, from: Option<int>, to: Option<int>)
    requires i <= |logs| && FeesReport(logs[..i], from, to).Err?
    ensures FeesReport(logs, from, to) == FeesReport(logs[..i], from, to)
    decreases |logs|
  {
    if i < |logs| {
      assert logs[..|logs| - 1][..i] == logs[..i];
      FailureStays(logs[..|logs| - 1], i, from, to);
    } else {
      assert logs[..i] == logs;
    }
  }

  // ---- the report of the notes operations leave behind -------------------------------------

  function KindText(kind: OpKind): string {
    if kind.Transfer? then "transfer" else "payment"
  }

  /** The logs written when operation `o` is created: its reliquat, if it has one, and its creation. */
  function LogsOf(op: Op, o: Id, day: int): seq<Log> {
    var creation := [Log(op.company, KindText(op.kind) + ".create", KindText(op.kind), o, day, None)];
    if op.split.reliquat > 0 then
      [Log(op.company, KindText(op.kind) + ".reliquat", KindText(op.kind), o, day,
           Some(Note(op.action, op.split.reliquat, CurrencyCode(op.currency))))] + creation
    else creation
  }

  /** The logs of all companies, oldest first. */
  function AllLogs(ops: seq<Op>, days: seq<int>): seq<Log>
    requires |days| == |ops|
  {
    if ops == [] then []
    else
      var o := |ops| - 1;
      AllLogs(ops[..o], days[..o]) + LogsOf(ops[o], o, days[o])
  }

  /** `audit_log_repository.list_by_company`: newest first. */
  function ListByCompany(logs: seq<Log>, company: Company): seq<Log> {
    if logs == [] then []
    else
      var last, earlier := logs[|logs| - 1], ListByCompany(logs[..|logs| - 1], company);
      if last.company == company then [last] + earlier else earlier
  }

  /** The fee row of an operation, if it kept a fee in the period. */
  function FeeRows(op: Op, o: Id, day: int, from: Option<int>, to: Option<int>): seq<FeeRow> {
    if op.action.Fee? && op.split.reliquat > 0 && InPeriod(day, from, to)
    then [FeeRow(KindText(op.kind), o, Decimal(op.split.reliquat), CurrencyCode(op.currency), day)] else []
  }

  /** The fees of one company, newest first, read from the operations themselves. */
  function Fees(ops: seq<Op>, days: seq<int>, company: Company, from: Option<int>, to: Option<int>): seq<FeeRow>
    requires |days| == |ops|
  {
    if ops == [] then []
    else
      var o := |ops| - 1;
      var earlier := Fees(ops[..o], days[..o], company, from, to);
      if ops[o].company == company then FeeRows(ops[o], o, days[o], from, to) + earlier else earlier
  }

  lemma {:induction false} ListConcat(a: seq<Log>, b: seq<Log>, company: Company)
    ensures ListByCompany(a + b, company) == ListByCompany(b, company) + ListByCompany(a, company)
    decreases |b|
  {
    if b == [] {
      assert a + b == a && [] + ListByCompany(a, company) == ListByCompany(a, company);
    } else {
      assert (a + b)[..|a + b| - 1] == a + b[..|b| - 1];
      ListConcat(a, b[..|b| - 1], company);
    }
  }

  lemma ListOfOne(log: Log, company: Company)
    ensures ListByCompany([log], company) == if log.company == company then [log] else []
  {
    assert [log][..0] == [] && [log] + [] == [log];
  }

  lemma {:induction false} ReportConcat(a: seq<Log>, b: seq<Log>, from: Option<int>, to: Option<int>)
    requires FeesReport(a, from, to).Ok? && FeesReport(b, from, to).Ok?
    ensures FeesReport(a + b, from, to) == Ok(FeesReport(a, from, to).value + FeesReport(b, from, to).value)
    decreases |b|
  {
    hide FeeOf;
    if b == [] {
      assert a + b == a && FeesReport(a, from, to).value + [] == FeesReport(a, from, to).value;
    } else {
      var rest := b[..|b| - 1];
      ReportConcat(a, rest, from, to);
      assert (a + b)[..|a + b| - 1] == a + rest && (a + b)[|a + b| - 1] == b[|b| - 1];
      var x, y, z := FeesReport(a, from, to).value, FeesReport(rest, from, to).value, FeeOf(b[|b| - 1], from, to).value;
      assert (x + y) + z == x + (y + z);
    }
  }

  lemma CodeIsWord(c: Currency)
    ensures Word(CurrencyCode(c))
  {
  }

  lemma SingleReport(log: Log, from: Option<int>, to: Option<int>)
    ensures FeesReport([log], from, to) == FeeOf(log, from, to)
  {
    hide FeeOf;
    assert [log][..0] == [];
    if FeeOf(log, from, to).Ok? {
      assert [] + FeeOf(log, from, to).value == FeeOf(log, from, to).value;
    }
  }

  lemma ReliquatLogReport(op: Op, o: Id, day: int, from: Option<int>, to: Option<int>)
    requires op.split.reliquat > 0 && !op.action.KeepUnallocated?
    ensures FeeOf(LogsOf(op, o, day)[0], from, to) == Ok(FeeRows(op, o, day, from, to))
  {
    hide Note, Search, ParseDecimal, AmountText;
    var currency := CurrencyCode(op.currency);
    CodeIsWord(op.currency);
    assert IsReliquat(LogsOf(op, o, day)[0]);
    if op.action.Fee? {
      FeeNoteReadsBack(op.split.reliquat, currency);
    } else {
      CreditNoteNeverMatches(op.split.reliquat, currency, 0);
    }
  }

  lemma CreationLogReport(op: Op, o: Id, day: int, from: Option<int>, to: Option<int>)
    ensures var logs := LogsOf(op, o, day); FeeOf(logs[|logs| - 1], from, to) == Ok([])
  {
    hide Note;
    var logs := LogsOf(op, o, day);
    assert logs[|logs| - 1].action[|KindText(op.kind)| + 1] == 'c';
  }

  /** What one operation's logs add to the report of its company. */
  lemma LogsReport(op: Op, o: Id, day: int, from: Option<int>, to: Option<int>)
    requires op.split.reliquat > 0 ==> !op.action.KeepUnallocated?
    ensures FeesReport(ListByCompany(LogsOf(op, o, day), op.company), from, to) == Ok(FeeRows(op, o, day, from, to))
  {
    hide Note, FeeOf, FeesReport, KindText, ListByCompany;
    var logs := LogsOf(op, o, day);
    CreationLogReport(op, o, day, from, to);
    SingleReport(logs[|logs| - 1], from, to);
    if op.split.reliquat > 0 {
      ReliquatLogReport(op, o, day, from, to);
      SingleReport(logs[0], from, to);
      ReportConcat([logs[1]], [logs[0]], from, to);
      ListOfOne(logs[0], op.company);
      ListOfOne(logs[1], op.company);
      ListConcat([logs[0]], [logs[1]], op.company);
      assert logs == [logs[0]] + [logs[1]];
      assert [] + FeeRows(op, o, day, from, to) == FeeRows(op, o, day, from, to);
    } else {
      ListOfOne(logs[0], op.company);
      assert logs == [logs[0]];
    }
  }

  lemma OthersLogs(op: Op, o: Id, day: int, company: Company)
    requires op.company != company
    ensures ListByCompany(LogsOf(op, o, day), company) == []
  {
    hide Note, KindText, ListByCompany;
    var logs := LogsOf(op, o, day);
    ListOfOne(logs[0], company);
    if |logs| == 2 {
      ListOfOne(logs[1], company);
      ListConcat([logs[0]], [logs[1]], company);
      assert logs == [logs[0]] + [logs[1]];
    } else {
      assert logs == [logs[0]];
    }
  }

  /** The report a company gets from the notes of any list of operations, its own and others', is the
      list of its own fee reliquats of the period, newest first, each with its exact amount and
      currency; credited reliquats never show up. */
  lemma {:induction false} ReportListsFees(
    ops: seq<Op>, days: seq<int>, company: Company, from: Option<int>, to: Option<int>)
    requires |days| == |ops|
    requires forall o :: 0 <= o < |ops| && ops[o].split.reliquat > 0 ==> !ops[o].action.KeepUnallocated?
    ensures FeesReport(ListByCompany(AllLogs(ops, days), company), from, to) == Ok(Fees(ops, days, company, from, to))
  {
    if ops == [] {
      assert AllLogs(ops, days) == [];
    } else {
      hide LogsOf, FeesReport, FeeRows, ListByCompany;
      var o := |ops| - 1;
      var mine := ListByCompany(LogsOf(ops[o], o, days[o]), company);
      ReportListsFees(ops[..o], days[..o], company, from, to);
      ListConcat(AllLogs(ops[..o], days[..o]), LogsOf(ops[o], o, days[o]), company);
      if ops[o].company == company {
        LogsReport(ops[o], o, days[o], from, to);
        ReportConcat(mine, ListByCompany(AllLogs(ops[..o], days[..o]), company), from, to);
      } else {
        OthersLogs(ops[o], o, days[o], company);
        assert [] + ListByCompany(AllLogs(ops[..o], days[..o]), company)
            == ListByCompany(AllLogs(ops[..o], days[..o]), company);
      }
    }
  }

  /** A fee of the company in the period, both ends included, read from the operation's columns. */
  predicate IsFee(ops: seq<Op>, days: seq<int>, o: Id, company: Company, from: Option<int>, to: Option<int>)
    requires |days| == |ops|
  {
    && o < |ops| && ops[o].company == company && ops[o].action.Fee? && ops[o].split.reliquat > 0
    && (from.Some? ==> from.value <= days[o]) && (to.Some? ==> days[o] <= to.value)
  }

  lemma PeriodIsInclusive(day: int, from: Option<int>, to: Option<int>)
    ensures InPeriod(day, from, to) <==> (from.Some? ==> from.value <= day) && (to.Some? ==> day <= to.value)
  {
  }

  function FeeRowOf(ops: seq<Op>, days: seq<int>, o: Id): FeeRow
    requires o < |ops| == |days|
  {
    FeeRow(KindText(ops[o].kind), o, Decimal(ops[o].split.reliquat), CurrencyCode(ops[o].currency), days[o])
  }

  /** The fees of the first `n` operations. */
  lemma {:induction false} FeesUpTo(
    ops: seq<Op>, days: seq<int>, n: nat, company: Company, from: Option<int>, to: Option<int>)
    returns (ids: seq<Id>)
    requires n <= |ops| == |days|
    ensures |Fees(ops[..n], days[..n], company, from, to)| == |ids|
    ensures forall k :: 0 <= k < |ids| ==>
      ids[k] < n && Fees(ops[..n], days[..n], company, from, to)[k] == FeeRowOf(ops, days, ids[k])
    ensures forall j, k :: 0 <= j < k < |ids| ==> ids[j] > ids[k]
    ensures forall o: Id :: o in ids <==> o < n && IsFee(ops, days, o, company, from, to)
  {
    hide IsFee, KindText, CurrencyCode, InPeriod, FeeRowOf;
    ids := [];
    if n > 0 {
      var o := n - 1;
      ids := FeesUpTo(ops, days, o, company, from, to);
      assert ops[..n][..o] == ops[..o] && days[..n][..o] == days[..o];
      FeeOfLast(ops, days, o, company, from, to);
      if IsFee(ops, days, o, company, from, to) {
        ids := [o] + ids;
      }
    }
  }

  lemma FeeOfLast(ops: seq<Op>, days: seq<int>, o: Id, company: Company, from: Option<int>, to: Option<int>)
    requires o < |ops| == |days|
    ensures (if ops[o].company == company then FeeRows(ops[o], o, days[o], from, to) else [])
      == if IsFee(ops, days, o, company, from, to) then [FeeRowOf(ops, days, o)] else []
  {
    PeriodIsInclusive(days[o], from, to);
  }

  /** The rows of the report are the fees of the operations `ids`, each once, the newest first. */
  lemma FeesAreThoseOf(
    ops: seq<Op>, days: seq<int>, company: Company, from: Option<int>, to: Option<int>) returns (ids: seq<Id>)
    requires |days| == |ops|
    ensures |Fees(ops, days, company, from, to)| == |ids|
    ensures forall k :: 0 <= k < |ids| ==>
      ids[k] < |ops| && Fees(ops, days, company, from, to)[k] == FeeRowOf(ops, days, ids[k])
    ensures forall j, k :: 0 <= j < k < |ids| ==> ids[j] > ids[k]
    ensures forall o: Id :: o in ids <==> IsFee(ops, days, o, company, from, to)
  {
    hide Fees, FeeRowOf;
    assert ops[..|ops|] == ops && days[..|days|] == days;
    ids := FeesUpTo(ops, days, |ops|, company, from, to);
  }
}
