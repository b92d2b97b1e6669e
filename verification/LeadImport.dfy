/** Importing leads from a file, again and again (internal/modules/crm/import.go, internal/platform/importer/importer.go:167-188). */
module LeadImport {
  // And its report (internal/platform/importer/importer.go).

  import opened Wrappers
  import opened Sequences
  import opened Decimals
  import opened Sorting

  // ---- rows and leads -----------------------------------------------------------------------

  datatype Row = Row(number: int, fields: map<string, string>)

  datatype Lead = Lead(title: string, company: string, contact: string, email: string, phone: string, currency: string, value: int, stage: int)

  datatype Why = NeedsName | NotANumber | NotADate | NoSuchOwner | NoSuchStage | TitleTooLong | NegativeValue | BadCurrency | BadEmail | NoParty | CouldNotSave

  datatype Match = Phone | Email | NameAndCompany

  datatype Outcome = Committed | Valid | Error(why: Why) | Duplicate(same: Match)

  datatype RowResult = RowResult(number: int, outcome: Outcome)

  /** The organisation, and the text functions of the Go library that the import calls. */
  datatype Env = Env(lower: string -> string, upper: string -> string, number: string -> Option<int>, isDate: string -> bool,
                     currency: string, owners: set<string>, stages: map<string, int>, first: int)

  predicate IsSpace(c: char) {
    c == ' ' || ('\t' <= c <= '\r') || c == '\U{0085}' || c == '\U{00A0}' || c == '\U{1680}' || ('\U{2000}' <= c <= '\U{200A}')
    || c == '\U{2028}' || c == '\U{2029}' || c == '\U{202F}' || c == '\U{205F}' || c == '\U{3000}'
  }

  function TrimLeft(s: string): string { if s != "" && IsSpace(s[0]) then TrimLeft(s[1..]) else s }

  function TrimRight(s: string): string { if s != "" && IsSpace(s[|s| - 1]) then TrimRight(s[..|s| - 1]) else s }

  function TrimSpace(s: string): string { TrimRight(TrimLeft(s)) }

  function Field(row: Row, name: string): string { TrimSpace(if name in row.fields then row.fields[name] else "") }

  datatype Reading = Good(lead: Lead) | Bad(why: Why)

  predicate HasAt(s: string) { exists i :: 0 <= i < |s| && s[i] == '@' }

  /** Input.validate, in its order. */
  function Objection(l: Lead): Option<Why> {
    if TrimSpace(l.title) == "" || |TrimSpace(l.title)| > 160 then Some(TitleTooLong)
    else if l.value < 0 then Some(NegativeValue)
    else if |l.currency| != 3 then Some(BadCurrency)
    else if l.email != "" && !HasAt(l.email) then Some(BadEmail)
    else if TrimSpace(l.company) == "" && TrimSpace(l.contact) == "" then Some(NoParty)
    else None
  }

  function TitleOf(row: Row): string {
    if Field(row, "title") != "" then Field(row, "title") else if Field(row, "company_name") != "" then Field(row, "company_name") else Field(row, "contact_name")
  }

  /** What a row says, or the first thing wrong with it. */
  function Read(env: Env, row: Row): Reading {
    var value, close := Field(row, "value"), Field(row, "expected_close");
    var owner, stage := env.lower(Field(row, "owner")), env.lower(Field(row, "stage"));
    var currency := env.upper(Field(row, "currency"));
    if TitleOf(row) == "" then Bad(NeedsName)
    else if value != "" && env.number(value).None? then Bad(NotANumber)
    else if close != "" && !env.isDate(close) then Bad(NotADate)
    else if owner != "" && owner !in env.owners then Bad(NoSuchOwner)
    else if stage != "" && stage !in env.stages then Bad(NoSuchStage)
    else
      var l := Lead(TitleOf(row), Field(row, "company_name"), Field(row, "contact_name"), Field(row, "contact_email"), Field(row, "contact_phone"),
                    if currency == "" then env.currency else currency, if value == "" then 0 else env.number(value).value,
                    if stage == "" then env.first else env.stages[stage]);
      var o := Objection(l);
      if o.Some? then Bad(o.value) else Good(l)
  }

  /** What the database keeps of a lead: every text trimmed. */
  function Stored(l: Lead): Lead {
    l.(title := TrimSpace(l.title), company := TrimSpace(l.company), contact := TrimSpace(l.contact), email := TrimSpace(l.email), phone := TrimSpace(l.phone))
  }

  // ---- recognising a lead -------------------------------------------------------------------

  /** The keys of the map of seen leads; the prefixes "n:", "p:" and "e:" keep the kinds apart. */
  datatype Key = ByName(text: string) | ByPhone(digits: string) | ByEmail(email: string)

  function Digits(s: string): string {
    if s == "" then "" else
    Digits(s[..|s| - 1]) + if IsDigit(s[|s| - 1]) then [s[|s| - 1]] else ""
  }

  /** phoneKey: the last ten digits, if there are at least seven. */
  function PhoneKey(s: string): string {
    var d := Digits(s);
    var last := if |d| > 10 then d[|d| - 10..] else d;
    if |last| < 7 then "" else last
  }

  function NameKey(env: Env, l: Lead): Key { ByName(env.lower(l.title) + "|" + env.lower(l.company)) }

  /** markSeen */
  function KeysOf(env: Env, l: Lead): set<Key> {
    (if env.lower(l.title) != "" then {NameKey(env, l)} else {})
    + (if PhoneKey(l.phone) != "" then {ByPhone(PhoneKey(l.phone))} else {})
    + (if env.lower(l.email) != "" then {ByEmail(env.lower(l.email))} else {})
  }

  /** matchSeen */
  function MatchSeen(env: Env, seen: set<Key>, l: Lead): Option<Match> {
    if PhoneKey(l.phone) != "" && ByPhone(PhoneKey(l.phone)) in seen then Some(Phone)
    else if env.lower(l.email) != "" && ByEmail(env.lower(l.email)) in seen then Some(Email)
    else if NameKey(env, l) in seen then Some(NameAndCompany)
    else None
  }

  /** The keys of all leads already kept. */
  function AllKeys(env: Env, leads: seq<Lead>): set<Key> {
    if leads == [] then {} else AllKeys(env, leads[..|leads| - 1]) + KeysOf(env, leads[|leads| - 1])
  }

  // ---- the import, row by row ---------------------------------------------------------------

  /** How saving a lead ends: Unread when it was saved but could not be read back, which is reported as an error. */
  datatype Save = Saved | SavedNotMoved | Unread | NotSaved

  datatype Progress = Progress(results: seq<RowResult>, seen: set<Key>, created: seq<Lead>)

  /** A row's number and what it says. */
  datatype Entry = Entry(number: int, reading: Reading)

  function EntryOf(env: Env, row: Row): Entry { Entry(row.number, Read(env, row)) }

  function Entries(env: Env, rows: seq<Row>): (es: seq<Entry>)
    ensures |es| == |rows|
  {
    if rows == [] then [] else Entries(env, rows[..|rows| - 1]) + [EntryOf(env, rows[|rows| - 1])]
  }

  function OneRow(env: Env, p: Progress, e: Entry, dryRun: bool, save: Save): Progress {
    match e.reading
    case Bad(why) => p.(results := p.results + [RowResult(e.number, Error(why))])
    case Good(lead) =>
      match MatchSeen(env, p.seen, lead)
      case Some(same) => p.(results := p.results + [RowResult(e.number, Duplicate(same))])
      case None =>
        if dryRun then Progress(p.results + [RowResult(e.number, Valid)], p.seen + KeysOf(env, lead), p.created)
        else match save
          case NotSaved => p.(results := p.results + [RowResult(e.number, Error(CouldNotSave))])
          case Unread => p.(results := p.results + [RowResult(e.number, Error(CouldNotSave))], created := p.created + [Stored(lead)])
          case _ => Progress(p.results + [RowResult(e.number, Committed)], p.seen + KeysOf(env, lead), p.created + [Stored(lead)])
  }

  function Imported(env: Env, entries: seq<Entry>, dryRun: bool, saves: nat -> Save, seen: set<Key>): (p: Progress)
    ensures |p.results| == |entries|
  {
    if entries == [] then Progress([], seen, []) else
    OneRow(env, Imported(env, entries[..|entries| - 1], dryRun, saves, seen), entries[|entries| - 1], dryRun, saves(|entries| - 1))
  }

  // ---- what it promises ---------------------------------------------------------------------

  /** One result per row, in row order; a dry run saves nothing. */
  lemma {:induction false} OneResultPerRow(env: Env, entries: seq<Entry>, dryRun: bool, saves: nat -> Save, seen: set<Key>)
    ensures var p := Imported(env, entries, dryRun, saves, seen);
      (forall i :: 0 <= i < |entries| ==> p.results[i].number == entries[i].number) && (dryRun ==> p.created == [])
  {
    if entries != [] {
      var front, e := entries[..|entries| - 1], entries[|entries| - 1];
      OneResultPerRow(env, front, dryRun, saves, seen);
      OneResult(env, Imported(env, front, dryRun, saves, seen), e, dryRun, saves(|front|));
    }
  }

  lemma {:induction false} OneResult(env: Env, p: Progress, e: Entry, dryRun: bool, save: Save)
    ensures var q := OneRow(env, p, e, dryRun, save);
      |q.results| == |p.results| + 1 && q.results == p.results + [q.results[|p.results|]] && q.results[|p.results|].number == e.number
      && (dryRun ==> q.created == p.created)
  {}

  /** The outcome of a dry run for the same row. */
  function AsDryRun(r: RowResult): RowResult { if r.outcome == Committed then r.(outcome := Valid) else r }

  /** When every save succeeds a dry run says of each row what the real run then does, with Valid for Committed. */
  lemma {:induction false} DryRunForetells(env: Env, entries: seq<Entry>, dry: nat -> Save, saves: nat -> Save, seen: set<Key>)
    requires forall i :: saves(i) == Saved || saves(i) == SavedNotMoved
    ensures var p, q := Imported(env, entries, true, dry, seen), Imported(env, entries, false, saves, seen);
      p.seen == q.seen && forall i :: 0 <= i < |p.results| ==> p.results[i] == AsDryRun(q.results[i])
  {
    if entries != [] { DryRunForetells(env, entries[..|entries| - 1], dry, saves, seen); }
  }

  lemma {:induction false} TrimRightKeepsStart(s: string)
    requires s == "" || !IsSpace(s[0])
    ensures var t := TrimRight(s); TrimLeft(t) == t && TrimRight(t) == t
  {
    if s != "" && IsSpace(s[|s| - 1]) { TrimRightKeepsStart(s[..|s| - 1]); }
  }

  lemma {:induction false} TrimLeftStart(s: string)
    ensures TrimLeft(s) == "" || !IsSpace(TrimLeft(s)[0])
  {
    if s != "" && IsSpace(s[0]) { TrimLeftStart(s[1..]); }
  }

  lemma {:induction false} TrimTwice(s: string)
    ensures TrimSpace(TrimSpace(s)) == TrimSpace(s)
  {
    TrimLeftStart(s);
    TrimRightKeepsStart(TrimLeft(s));
  }

  /** What every reading promises: a good lead is stored as it is, and its name is one the keys can hold. */
  predicate Sound(env: Env, e: Entry) { e.reading.Good? ==> Stored(e.reading.lead) == e.reading.lead && env.lower(e.reading.lead.title) != "" }

  predicate AllSound(env: Env, entries: seq<Entry>) { forall e :: e in entries ==> Sound(env, e) }

  /** Lower-casing leaves a text that is not empty not empty. */
  ghost predicate KeepsText(env: Env) { forall s :: s != "" ==> env.lower(s) != "" }

  lemma {:induction false} ReadIsSound(env: Env, row: Row)
    requires KeepsText(env)
    ensures Sound(env, EntryOf(env, row))
  {
    forall name
      ensures TrimSpace(Field(row, name)) == Field(row, name)
    {
      TrimTwice(if name in row.fields then row.fields[name] else "");
    }
  }

  lemma {:induction false} EntriesAreSound(env: Env, rows: seq<Row>)
    requires KeepsText(env)
    ensures AllSound(env, Entries(env, rows))
  {
    if rows != [] {
      EntriesAreSound(env, rows[..|rows| - 1]);
      ReadIsSound(env, rows[|rows| - 1]);
    }
  }

  lemma {:induction false} AllKeysMore(env: Env, leads: seq<Lead>, l: Lead)
    ensures AllKeys(env, leads + [l]) == AllKeys(env, leads) + KeysOf(env, l)
  {
    assert (leads + [l])[..|leads|] == leads;
  }

  lemma {:induction false} AllKeysConcat(env: Env, a: seq<Lead>, b: seq<Lead>)
    ensures AllKeys(env, a + b) == AllKeys(env, a) + AllKeys(env, b)
  {
    if b == [] {
      assert a + b == a;
    } else {
      AllKeysConcat(env, a, b[..|b| - 1]);
      AllKeysMore(env, a + b[..|b| - 1], b[|b| - 1]);
      LastOfConcat(a, b);
    }
  }

  predicate Recognised(env: Env, seen: set<Key>, e: Entry) { e.reading.Good? && MatchSeen(env, seen, e.reading.lead).Some? }

  /** A larger set of seen leads recognises at least as much. */
  lemma {:induction false} SeesMore(env: Env, seen: set<Key>, more: set<Key>, e: Entry)
    requires seen <= more
    ensures Recognised(env, seen, e) ==> Recognised(env, more, e)
  {}

  lemma {:induction false} OwnKeysMatch(env: Env, seen: set<Key>, l: Lead)
    requires KeysOf(env, l) <= seen && env.lower(l.title) != ""
    ensures MatchSeen(env, seen, l).Some?
  {
    assert NameKey(env, l) in KeysOf(env, l);
  }

  /** One row of a real run, seen against all keys it may leave behind. */
  lemma {:induction false} OneRowIsRecognised(env: Env, p: Progress, e: Entry, save: Save, base: set<Key>)
    requires Sound(env, e) && p.seen <= base + AllKeys(env, p.created)
    ensures var q := OneRow(env, p, e, false, save);
      && q.seen <= base + AllKeys(env, q.created) && AllKeys(env, p.created) <= AllKeys(env, q.created)
      && |q.results| == |p.results| + 1 && q.results[..|p.results|] == p.results
      && (!q.results[|p.results|].outcome.Error? ==> Recognised(env, base + AllKeys(env, q.created), e))
  {
    if e.reading.Good? {
      var lead := e.reading.lead;
      AllKeysMore(env, p.created, lead);
      SeesMore(env, p.seen, base + AllKeys(env, p.created), e);
      OwnKeysMatch(env, base + AllKeys(env, p.created) + KeysOf(env, lead), lead);
      assert base + AllKeys(env, p.created) + KeysOf(env, lead) == base + (AllKeys(env, p.created) + KeysOf(env, lead));
    }
  }

  /** What was committed or found to be a duplicate is recognised by these keys. */
  predicate AllRecognised(env: Env, known: set<Key>, results: seq<RowResult>, entries: seq<Entry>)
    requires |results| == |entries|
  {
    forall i :: 0 <= i < |entries| && !results[i].outcome.Error? ==> Recognised(env, known, entries[i])
  }

  lemma {:induction false} OneMoreRecognised(env: Env, known: set<Key>, more: set<Key>, results: seq<RowResult>, entries: seq<Entry>, r: RowResult, e: Entry)
    requires |results| == |entries| && AllRecognised(env, known, results, entries) && known <= more
    requires !r.outcome.Error? ==> Recognised(env, more, e)
    ensures AllRecognised(env, more, results + [r], entries + [e])
  {
    forall i | 0 <= i < |entries|
      ensures Recognised(env, known, entries[i]) ==> Recognised(env, more, entries[i])
    {
      SeesMore(env, known, more, entries[i]);
    }
  }

  lemma {:induction false} RecognisedNext(env: Env, p: Progress, front: seq<Entry>, e: Entry, save: Save, seen: set<Key>)
    requires Sound(env, e) && |p.results| == |front|
    requires p.seen <= seen + AllKeys(env, p.created) && AllRecognised(env, seen + AllKeys(env, p.created), p.results, front)
    ensures var q := OneRow(env, p, e, false, save);
      && |q.results| == |front + [e]| && q.seen <= seen + AllKeys(env, q.created)
      && AllRecognised(env, seen + AllKeys(env, q.created), q.results, front + [e])
  {
    var q := OneRow(env, p, e, false, save);
    OneRowIsRecognised(env, p, e, save, seen);
    OneResult(env, p, e, false, save);
    OneMoreRecognised(env, seen + AllKeys(env, p.created), seen + AllKeys(env, q.created), p.results, front, q.results[|front|], e);
  }

  /** Everything seen in a real run was there before or was created; and what was committed or a duplicate is recognised afterwards. */
  lemma {:induction false} CreatedIsRecognised(env: Env, entries: seq<Entry>, saves: nat -> Save, seen: set<Key>)
    requires AllSound(env, entries)
    ensures var p := Imported(env, entries, false, saves, seen);
      p.seen <= seen + AllKeys(env, p.created) && AllRecognised(env, seen + AllKeys(env, p.created), p.results, entries)
  {
    if entries != [] {
      var front, e := entries[..|entries| - 1], entries[|entries| - 1];
      assert e in entries && forall x :: x in front ==> x in entries;
      CreatedIsRecognised(env, front, saves, seen);
      RecognisedNext(env, Imported(env, front, false, saves, seen), front, e, saves(|front|), seen);
      LastApart(entries);
    }
  }

  lemma {:induction false} OneRowOutcome(env: Env, p: Progress, e: Entry, dryRun: bool, save: Save)
    ensures var q := OneRow(env, p, e, dryRun, save);
      && p.seen <= q.seen && |q.results| == |p.results| + 1 && q.results[..|p.results|] == p.results
      && (Recognised(env, p.seen, e) ==> q.results[|p.results|].outcome.Duplicate?)
      && (e.reading.Bad? ==> q.results[|p.results|].outcome == Error(e.reading.why))
  {}

  /** A lead that is recognised from the start is never saved, and a bad row is always an error. */
  lemma {:induction false} RecognisedIsDuplicate(env: Env, entries: seq<Entry>, dryRun: bool, saves: nat -> Save, seen: set<Key>)
    ensures var p := Imported(env, entries, dryRun, saves, seen);
      && seen <= p.seen
      && forall i :: 0 <= i < |entries| ==>
           && (Recognised(env, seen, entries[i]) ==> p.results[i].outcome.Duplicate?)
           && (entries[i].reading.Bad? ==> p.results[i].outcome == Error(entries[i].reading.why))
  {
    if entries != [] {
      var front, e := entries[..|entries| - 1], entries[|entries| - 1];
      RecognisedIsDuplicate(env, front, dryRun, saves, seen);
      ToldNext(env, Imported(env, front, dryRun, saves, seen), front, e, dryRun, saves(|front|), seen);
      LastApart(entries);
    }
  }

  predicate Told(env: Env, e: Entry, seen: set<Key>, r: RowResult) {
    (Recognised(env, seen, e) ==> r.outcome.Duplicate?) && (e.reading.Bad? ==> r.outcome == Error(e.reading.why))
  }

  lemma {:induction false} ToldNext(env: Env, p: Progress, front: seq<Entry>, e: Entry, dryRun: bool, save: Save, seen: set<Key>)
    requires seen <= p.seen && |p.results| == |front| && forall i :: 0 <= i < |front| ==> Told(env, front[i], seen, p.results[i])
    ensures var q := OneRow(env, p, e, dryRun, save);
      && seen <= q.seen && |q.results| == |front + [e]| && forall i :: 0 <= i < |front + [e]| ==> Told(env, (front + [e])[i], seen, q.results[i])
  {
    OneRowOutcome(env, p, e, dryRun, save);
    SeesMore(env, seen, p.seen, e);
    var q := OneRow(env, p, e, dryRun, save);
    forall i | 0 <= i < |front|
      ensures q.results[i] == p.results[i]
    {
      assert q.results[i] == q.results[..|p.results|][i];
    }
  }

  /** Importing the same file again: whatever the first run committed or found to be a duplicate is now a duplicate. */
  lemma {:induction false} SecondRunSkips(env: Env, rows: seq<Row>, leads: seq<Lead>, first: nat -> Save, second: nat -> Save, dryRun: bool)
    requires KeepsText(env)
    ensures var es := Entries(env, rows);
      var p := Imported(env, es, false, first, AllKeys(env, leads));
      var q := Imported(env, es, dryRun, second, AllKeys(env, leads + p.created));
      forall i :: 0 <= i < |rows| && !p.results[i].outcome.Error? ==> q.results[i].outcome.Duplicate?
  {
    var es := Entries(env, rows);
    var p := Imported(env, es, false, first, AllKeys(env, leads));
    EntriesAreSound(env, rows);
    CreatedIsRecognised(env, es, first, AllKeys(env, leads));
    AllKeysConcat(env, leads, p.created);
    RecognisedIsDuplicate(env, es, dryRun, second, AllKeys(env, leads + p.created));
  }

  lemma {:induction false} ErrorsAreBadRows(env: Env, entries: seq<Entry>, saves: nat -> Save, seen: set<Key>)
    requires forall i :: saves(i) == Saved || saves(i) == SavedNotMoved
    ensures var p := Imported(env, entries, false, saves, seen);
      forall i :: 0 <= i < |entries| && p.results[i].outcome.Error? ==> entries[i].reading.Bad?
  {
    if entries != [] {
      var front, e := entries[..|entries| - 1], entries[|entries| - 1];
      ErrorsAreBadRows(env, front, saves, seen);
      ErrorsNext(env, Imported(env, front, false, saves, seen), front, e, saves(|front|));
      LastApart(entries);
    }
  }

  lemma {:induction false} ErrorsNext(env: Env, p: Progress, front: seq<Entry>, e: Entry, save: Save)
    requires (save == Saved || save == SavedNotMoved) && |p.results| == |front|
    requires forall i :: 0 <= i < |front| && p.results[i].outcome.Error? ==> front[i].reading.Bad?
    ensures var q := OneRow(env, p, e, false, save);
      |q.results| == |front + [e]| && forall i :: 0 <= i < |front + [e]| && q.results[i].outcome.Error? ==> (front + [e])[i].reading.Bad?
  {
    OneRowOutcome(env, p, e, false, save);
    var q := OneRow(env, p, e, false, save);
    forall i | 0 <= i < |front|
      ensures q.results[i] == p.results[i]
    {
      assert q.results[i] == q.results[..|p.results|][i];
    }
  }

  /** When every save of the first run succeeded, the second commits nothing: its rows are all duplicates or the same errors. */
  lemma {:induction false} SecondRunCommitsNothing(env: Env, rows: seq<Row>, leads: seq<Lead>, first: nat -> Save, second: nat -> Save)
    requires KeepsText(env) && forall i :: first(i) == Saved || first(i) == SavedNotMoved
    ensures var es := Entries(env, rows);
      var p := Imported(env, es, false, first, AllKeys(env, leads));
      var q := Imported(env, es, false, second, AllKeys(env, leads + p.created));
      forall i :: 0 <= i < |rows| ==> if es[i].reading.Bad? then q.results[i].outcome == Error(es[i].reading.why) else q.results[i].outcome.Duplicate?
  {
    var es := Entries(env, rows);
    var p := Imported(env, es, false, first, AllKeys(env, leads));
    SecondRunSkips(env, rows, leads, first, second, false);
    ErrorsAreBadRows(env, es, first, AllKeys(env, leads));
    RecognisedIsDuplicate(env, es, false, second, AllKeys(env, leads + p.created));
  }

  // ---- the report ---------------------------------------------------------------------------

  datatype Report = Report(dryRun: bool, total: nat, committed: nat, valid: nat, errors: nat, duplicates: nat, results: seq<RowResult>)

  predicate ByNumber(a: RowResult, b: RowResult) { a.number <= b.number }

  predicate SameKind(a: Outcome, b: Outcome) { a.Committed? == b.Committed? && a.Valid? == b.Valid? && a.Error? == b.Error? && a.Duplicate? == b.Duplicate? }

  function Count(results: seq<RowResult>, kind: Outcome): nat {
    if results == [] then 0 else Count(results[..|results| - 1], kind) + if SameKind(results[|results| - 1].outcome, kind) then 1 else 0
  }

  lemma {:induction false} CountNext(results: seq<RowResult>, k: nat, kind: Outcome)
    requires k < |results|
    ensures Count(results[..k + 1], kind) == Count(results[..k], kind) + if SameKind(results[k].outcome, kind) then 1 else 0
  {
    assert results[..k + 1][..k] == results[..k];
  }

  function ReportOf(dryRun: bool, results: seq<RowResult>): Report {
    Report(dryRun, |results|, Count(results, Committed), Count(results, Valid), Count(results, Error(CouldNotSave)), Count(results, Duplicate(Phone)), results)
  }

  class Builder {
    const dryRun: bool
    var results: seq<RowResult>

    constructor (dryRun: bool)
      ensures this.dryRun == dryRun && results == []
    {
      this.dryRun, results := dryRun, [];
    }

    method Add(number: int, outcome: Outcome)
      modifies this`results
      ensures results == old(results) + [RowResult(number, outcome)]
    {
      results := results + [RowResult(number, outcome)];
    }

    /** Report: the results sorted by row number in place, and counted by kind. */
    method MakeReport() returns (rep: Report)
      modifies this`results
      ensures results == SortBy(old(results), ByNumber) && rep == ReportOf(dryRun, results)
    {
      results := SortBy(results, ByNumber);
      var committed, valid, errors, duplicates := 0, 0, 0, 0;
      for k := 0 to |results|
        invariant results == SortBy(old(results), ByNumber)
        invariant committed == Count(results[..k], Committed) && valid == Count(results[..k], Valid)
        invariant errors == Count(results[..k], Error(CouldNotSave)) && duplicates == Count(results[..k], Duplicate(Phone))
      {
        CountNext(results, k, Committed);
        CountNext(results, k, Valid);
        CountNext(results, k, Error(CouldNotSave));
        CountNext(results, k, Duplicate(Phone));
        match results[k].outcome {
          case Committed => committed := committed + 1;
          case Valid => valid := valid + 1;
          case Error(_) => errors := errors + 1;
          case Duplicate(_) => duplicates := duplicates + 1;
        }
      }
      assert results[..|results|] == results;
      rep := Report(dryRun, |results|, committed, valid, errors, duplicates, results);
    }
  }

  /** The report holds every result once, in row order, and the four counts add up to the number of rows. */
  lemma {:induction false} ReportIsComplete(dryRun: bool, results: seq<RowResult>)
    ensures var r := ReportOf(dryRun, SortBy(results, ByNumber));
      && r.committed + r.valid + r.errors + r.duplicates == r.total == |results|
      && multiset(r.results) == multiset(results) && forall i, j :: 0 <= i < j < |r.results| ==> r.results[i].number <= r.results[j].number
  {
    SortSorts(results, ByNumber);
    SameMembers(results, ByNumber);
    CountsAddUp(SortBy(results, ByNumber));
  }

  lemma {:induction false} CountsAddUp(results: seq<RowResult>)
    ensures Count(results, Committed) + Count(results, Valid) + Count(results, Error(CouldNotSave)) + Count(results, Duplicate(Phone)) == |results|
  {
    if results != [] { CountsAddUp(results[..|results| - 1]); }
  }

  // ---- the service --------------------------------------------------------------------------

  class Crm {
    const env: Env
    var leads: seq<Lead>

    constructor (env: Env)
      ensures this.env == env && leads == []
    {
      this.env, leads := env, [];
    }

    method SeenLeads() returns (seen: set<Key>)
      ensures seen == AllKeys(env, leads)
    {
      seen := {};
      for k := 0 to |leads|
        invariant seen == AllKeys(env, leads[..k])
      {
        assert leads[..k + 1][..k] == leads[..k];
        seen := seen + KeysOf(env, leads[k]);
      }
      assert leads[..|leads|] == leads;
    }

    /** One row of the file: p is how far the import has come. */
    method ImportRow(b: Builder, row: Row, seen: set<Key>, dryRun: bool, save: Save, ghost p: Progress, ghost base: seq<Lead>) returns (seen': set<Key>)
      requires b.results == p.results && seen == p.seen && leads == base + p.created
      modifies this`leads, b`results
      ensures var q := OneRow(env, p, EntryOf(env, row), dryRun, save);
        b.results == q.results && seen' == q.seen && leads == base + q.created
    {
      seen' := seen;
      var r := Read(env, row);
      if r.Bad? {
        b.Add(row.number, Error(r.why));
        return;
      }
      var same := MatchSeen(env, seen, r.lead);
      if same.Some? {
        b.Add(row.number, Duplicate(same.value));
        return;
      }
      if dryRun {
        seen' := seen + KeysOf(env, r.lead);
        b.Add(row.number, Valid);
        return;
      }
      if save == NotSaved {
        b.Add(row.number, Error(CouldNotSave));
        return;
      }
      leads := leads + [Stored(r.lead)];
      if save == Unread {
        b.Add(row.number, Error(CouldNotSave));
        return;
      }
      seen' := seen + KeysOf(env, r.lead);
      b.Add(row.number, Committed);
    }

    /** The next row of the file. */
    method ImportNext(b: Builder, rows: seq<Row>, k: nat, seen: set<Key>, dryRun: bool, saves: nat -> Save, ghost start: set<Key>, ghost base: seq<Lead>) returns (seen': set<Key>)
      requires k < |rows| && Stands(b, Imported(env, Entries(env, rows[..k]), dryRun, saves, start), seen, base)
      modifies this`leads, b`results
      ensures Stands(b, Imported(env, Entries(env, rows[..k + 1]), dryRun, saves, start), seen', base)
    {
      ghost var p := Imported(env, Entries(env, rows[..k]), dryRun, saves, start);
      ImportedMore(env, rows, k, dryRun, saves, start);
      seen' := ImportRow(b, rows[k], seen, dryRun, saves(k), p, base);
    }

    ghost predicate Stands(b: Builder, p: Progress, seen: set<Key>, base: seq<Lead>)
      reads this, b
    {
      b.results == p.results && seen == p.seen && leads == base + p.created
    }

    /** Import: every row read, recognised or saved, and reported. */
    method Import(rows: seq<Row>, dryRun: bool, saves: nat -> Save) returns (rep: Report)
      modifies this`leads
      ensures var p := Imported(env, Entries(env, rows), dryRun, saves, AllKeys(env, old(leads)));
        rep == ReportOf(dryRun, SortBy(p.results, ByNumber)) && leads == old(leads) + p.created
    {
      var b := new Builder(dryRun);
      var seen := SeenLeads();
      ghost var start := seen;
      for k := 0 to |rows|
        invariant fresh(b) && b.dryRun == dryRun
        invariant Stands(b, Imported(env, Entries(env, rows[..k]), dryRun, saves, start), seen, old(leads))
      {
        seen := ImportNext(b, rows, k, seen, dryRun, saves, start, old(leads));
      }
      assert rows[..|rows|] == rows;
      rep := b.MakeReport();
    }
  }

  lemma {:induction false} EntriesMore(env: Env, rows: seq<Row>, k: nat)
    requires k < |rows|
    ensures Entries(env, rows[..k + 1]) == Entries(env, rows[..k]) + [EntryOf(env, rows[k])]
  {
    assert rows[..k + 1][..k] == rows[..k];
  }

  lemma {:induction false} ImportedMore(env: Env, rows: seq<Row>, k: nat, dryRun: bool, saves: nat -> Save, seen: set<Key>)
    requires k < |rows|
    ensures Imported(env, Entries(env, rows[..k + 1]), dryRun, saves, seen)
         == OneRow(env, Imported(env, Entries(env, rows[..k]), dryRun, saves, seen), EntryOf(env, rows[k]), dryRun, saves(k))
  {
    var es, e := Entries(env, rows[..k]), EntryOf(env, rows[k]);
    EntriesMore(env, rows, k);
    assert (es + [e])[..k] == es;
  }


  // ---- who is the same ----------------------------------------------------------------------

  /** The digits of a text are its digits, in order. */
  lemma {:induction false} DigitsOfMore(s: string, c: char)
    ensures Digits(s + [c]) == Digits(s) + if '0' <= c <= '9' then [c] else ""
  {
    assert (s + [c])[..|s|] == s;
  }

  function LastTen(digits: string): string { if |digits| > 10 then digits[|digits| - 10..] else digits }

  /** Two leads are the same by phone exactly when both numbers have seven digits or more and their last ten agree, whatever their
      names; else by e-mail when both have the same one but for case; else by title and company together, but for case. */
  lemma {:induction false} SameExactly(env: Env, known: Lead, l: Lead)
    ensures var byPhone := |Digits(known.phone)| >= 7 && |Digits(l.phone)| >= 7 && LastTen(Digits(known.phone)) == LastTen(Digits(l.phone));
      var byEmail := env.lower(l.email) != "" && env.lower(known.email) == env.lower(l.email);
      var byName := env.lower(known.title) != "" && env.lower(known.title) + "|" + env.lower(known.company) == env.lower(l.title) + "|" + env.lower(l.company);
      MatchSeen(env, KeysOf(env, known), l)
        == if byPhone then Some(Phone) else if byEmail then Some(Email) else if byName then Some(NameAndCompany) else None
  {
    PhoneKeys(known.phone, l.phone);
  }

  lemma {:induction false} PhoneKeys(p: string, q: string)
    ensures PhoneKey(p) != "" && PhoneKey(q) == PhoneKey(p) <==> |Digits(p)| >= 7 && |Digits(q)| >= 7 && LastTen(Digits(p)) == LastTen(Digits(q))
  {}

  /** And a lead is a duplicate exactly when one of those seen before is the same. */
  lemma {:induction false} DuplicateExactly(env: Env, leads: seq<Lead>, l: Lead)
    ensures MatchSeen(env, AllKeys(env, leads), l).Some? <==> exists k :: k in leads && MatchSeen(env, KeysOf(env, k), l).Some?
  {
    if leads != [] {
      var front, last := leads[..|leads| - 1], leads[|leads| - 1];
      DuplicateExactly(env, front, l);
      SeenByEither(env, AllKeys(env, front), KeysOf(env, last), l);
      assert forall k :: k in leads <==> k in front || k == last;
    }
  }

  lemma {:induction false} SeenByEither(env: Env, a: set<Key>, b: set<Key>, l: Lead)
    ensures MatchSeen(env, a + b, l).Some? <==> MatchSeen(env, a, l).Some? || MatchSeen(env, b, l).Some?
  {}


  // ---- which rows become leads --------------------------------------------------------------

  /** The row's title: its own, or else the company, or else the contact. */
  function Named(row: Row): string {
    if Field(row, "title") != "" then Field(row, "title") else if Field(row, "company_name") != "" then Field(row, "company_name") else Field(row, "contact_name")
  }

  /** A row becomes a lead exactly when it has a company or a contact, a title of at most 160 characters, a number or nothing as value, not
      below zero, a date or nothing, a known owner and stage or none, a currency of three letters, and an @ in its e-mail if it has one. */
  lemma {:induction false} ReadExactly(env: Env, row: Row)
    ensures var value, currency := Field(row, "value"), env.upper(Field(row, "currency"));
      Read(env, row).Good? <==>
        && (Field(row, "company_name") != "" || Field(row, "contact_name") != "") && 0 < |Named(row)| <= 160
        && (value == "" || (env.number(value).Some? && env.number(value).value >= 0))
        && (Field(row, "expected_close") == "" || env.isDate(Field(row, "expected_close")))
        && (env.lower(Field(row, "owner")) == "" || env.lower(Field(row, "owner")) in env.owners)
        && (env.lower(Field(row, "stage")) == "" || env.lower(Field(row, "stage")) in env.stages)
        && |if currency == "" then env.currency else currency| == 3
        && (Field(row, "contact_email") == "" || exists i :: 0 <= i < |Field(row, "contact_email")| && Field(row, "contact_email")[i] == '@')
  {
    TrimmedFields(row);
  }

  lemma {:induction false} TrimmedFields(row: Row)
    ensures forall name :: TrimSpace(Field(row, name)) == Field(row, name)
  {
    forall name
      ensures TrimSpace(Field(row, name)) == Field(row, name)
    {
      TrimTwice(if name in row.fields then row.fields[name] else "");
    }
  }

  /** And its fields are those of the row, trimmed, with the organisation's currency, no value and the first open stage where nothing is given. */
  lemma {:induction false} ReadFields(env: Env, row: Row)
    requires Read(env, row).Good?
    ensures var l, currency, stage := Read(env, row).lead, env.upper(Field(row, "currency")), env.lower(Field(row, "stage"));
      && l.title == Named(row) && l.company == Field(row, "company_name") && l.contact == Field(row, "contact_name")
      && l.email == Field(row, "contact_email") && l.phone == Field(row, "contact_phone")
      && l.currency == (if currency == "" then env.currency else currency)
      && (if Field(row, "value") == "" then l.value == 0 else env.number(Field(row, "value")) == Some(l.value))
      && (if stage == "" then l.stage == env.first else stage in env.stages && l.stage == env.stages[stage])
  {}
}
